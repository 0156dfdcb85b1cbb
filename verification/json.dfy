/** The generic JSON value that every payload field (options, details, args,
    kwargs) holds. Objects are maps, so two objects with the same members are
    equal whatever order they were written in, as with serde_json's default
    key-ordered map. Numbers are the non-negative integers the protocol uses. */
module Json {

  datatype JValue =
    | JNull
    | JBool(b: bool)
    | JNum(n: nat)
    | JStr(s: string)
    | JArr(items: seq<JValue>)
    | JObj(fields: map<string, JValue>)

  /** The empty object `{}`. */
  const EmptyObject: JValue := JObj(map[])

  /** The empty array `[]`. */
  const EmptyArray: JValue := JArr([])

  /** A value an `args` field may hold: an array or null. */
  predicate IsArgsShaped(v: JValue) {
    v.JArr? || v.JNull?
  }

  /** A value a `kwargs` field may hold: an object or null. */
  predicate IsKwargsShaped(v: JValue) {
    v.JObj? || v.JNull?
  }
}
