/** Values that cross the method channel between the host and the plugin,
    as the Android side sees them after decoding: each constructor stands for
    the Java runtime class the standard message codec produces. */
module Values {

  datatype Option<+T> = None | Some(value: T)

  newtype Byte = x: int | 0 <= x < 256

  /** A decoded channel value. VInt is a java.lang.Integer (32-bit), VLong a
      java.lang.Long (64-bit); the two are kept apart because a Java cast to
      one of them raises on the other. */
  datatype Value =
    | VNull
    | VBool(b: bool)
    | VInt(i: int)
    | VLong(l: int)
    | VStr(s: string)
    | VBytes(bytes: seq<Byte>)
    | VList(items: seq<Value>)
    | VMap(entries: map<string, Value>)

  type Dict = map<string, Value>

  /** The outcome of Java code that may raise a runtime exception on the way
      (a failed cast, or unboxing a null): Thrown means it raised. */
  datatype Checked<+T> = Ok(value: T) | Thrown {
    predicate IsFailure() { Thrown? }
    function PropagateFailure<U>(): Checked<U> requires Thrown? { Thrown }
    function Extract(): T requires Ok? { value }
  }

  /** A Java String that may be null. */
  function StrOrNull(s: Option<string>): Value {
    match s
    case None => VNull
    case Some(t) => VStr(t)
  }

  /** A Java List<String>. */
  function StrList(xs: seq<string>): (r: seq<Value>)
    ensures |r| == |xs|
    ensures forall i :: 0 <= i < |xs| ==> r[i] == VStr(xs[i])
  {
    seq(|xs|, i requires 0 <= i < |xs| => VStr(xs[i]))
  }

  /** StringUtil.isEmpty: null or the empty string. */
  predicate IsEmpty(s: Option<string>) {
    s.None? || s.value == ""
  }

  /** ASCII lower-casing of one character. */
  function Lower(c: char): char {
    if 'A' <= c <= 'Z' then (c as int + 32) as char else c
  }

  /** String.equalsIgnoreCase over ASCII text, with a possibly null argument. */
  predicate EqualsIgnoreCase(a: string, b: Option<string>) {
    b.Some? && |a| == |b.value| && forall i :: 0 <= i < |a| ==> Lower(a[i]) == Lower(b.value[i])
  }
}
