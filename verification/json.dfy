/** A JSON document as a value tree. Objects keep their entries in order and may
    repeat a key, as a JSON text can; the decoders decide what repetition means. */
module Json {

  datatype JValue =
    | JNull
    | JBool(b: bool)
    | JNumber(literal: string)
    | JStr(str: string)
    | JArr(items: seq<JValue>)
    | JObj(entries: seq<(string, JValue)>)

  /** Why a decoder rejected a document. */
  datatype DecodeError =
    | InvalidType(expected: string)       // the document has the wrong JSON kind
    | UnknownVariant(tag: string)         // an enum tag that names no variant
    | ExpectedEnumEntry                   // an enum object with no entry at all
    | TrailingEntries                     // an enum object with more than one entry
    | InvalidLength(got: nat)             // a struct given as an array that is too short
    | TrailingElements                    // a struct given as an array that is too long
    | DuplicateField(field: string)
    | MissingField(field: string)
    | InvalidNumber(text: string)         // not a decimal integer, or out of range

  /** Number of entries of `entries` whose key is `key`. */
  function CountKey(entries: seq<(string, JValue)>, key: string): (n: nat)
    ensures n <= |entries|
  {
    if |entries| == 0 then 0
    else (if entries[0].0 == key then 1 else 0) + CountKey(entries[1..], key)
  }
}
