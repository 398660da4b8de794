/** The browser's `localStorage`: a map from keys to stored strings, and the
    JSON codec the history service uses on the strings it stores. */
module Storage {
  import opened Collections
  import opened Types

  /** `JSON.parse` and `JSON.stringify` as applied to the history buffer.
      `parse` yields `None` when the text is not valid JSON. */
  datatype JsonCodec = JsonCodec(
    parse: string -> Option<seq<ChecklistHistory>>,
    stringify: seq<ChecklistHistory> -> string)

  /** What the built-in codec guarantees: the text of an array is never empty
      and parses back to the same array. */
  ghost predicate Faithful(json: JsonCodec) {
    forall h :: json.stringify(h) != "" && json.parse(json.stringify(h)) == Some(h)
  }

  class LocalStorage {
    var items: map<string, string>

    constructor (initial: map<string, string>)
      ensures items == initial
    {
      items := initial;
    }
  }
}
