/** Values shared by the RTMP client model: the argument values that calls
    carry, and the outcome of an operation that may throw. */
module RtmpValues {

  import opened JavaLang

  /** A value carried as a call argument, a connection parameter or a play option. */
  datatype Value =
    | VNull
    | VBool(b: bool)
    | VInt(i: int32)                       // java.lang.Integer
    | VDouble(d: real)                     // any other java.lang.Number (AMF numbers decode as Double)
    | VStr(s: string)
    | VObjectMap(entries: map<string, Value>)
    | VOther(id: nat)                      // any other object, by identity

  /** How a void operation ends: normally, or by throwing. */
  datatype Outcome = Done | Thrown(failure: Failure)

  /** `map.get(key)` on a Java map: a missing key reads as null. */
  function Get(m: map<string, Value>, key: string): (v: Value)
    ensures key !in m ==> v == VNull
    ensures key in m ==> v == m[key]
  {
    if key in m then m[key] else VNull
  }
}
