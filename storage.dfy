/** The browser's `localStorage` as the cart scripts use it: a map from key to
    stored text. A text is known only by what `JSON.parse` makes of it. */
module Storage {
  import opened Basics

  /** The value `JSON.parse` returns: an array of cart lines, or some other JSON
      value (null, a number, a string, an object, a boolean) of which only its
      truthiness matters to the scripts. */
  datatype Json<L> = JArray(items: seq<L>) | JNonArray(truthy: bool)

  /** A stored text: one that parses to a JSON value, one on which `JSON.parse`
      throws, or the empty string (falsy, and `JSON.parse("")` throws). */
  datatype StoredText<L> = Parses(value: Json<L>) | Malformed | Blank

  /** `JSON.stringify(items)`: a text that parses back to the same array. */
  function Stringify<L>(items: seq<L>): (t: StoredText<L>)
    ensures t.Parses? && t.value == JArray(items)
  {
    Parses(JArray(items))
  }

  /** `localStorage.getItem(key)`, with `None` for `null`. */
  function GetItem<L>(storage: map<string, StoredText<L>>, key: string): Option<StoredText<L>> {
    if key in storage then Some(storage[key]) else None
  }

  /** `JSON.parse(localStorage.getItem(key) || '[]')`: a missing or empty text
      reads as `[]`; `None` stands for the exception `JSON.parse` throws. */
  function ParseOrEmptyArray<L>(stored: Option<StoredText<L>>): (r: Option<Json<L>>)
    ensures stored.None? ==> r == Some(JArray([]))
    ensures stored == Some(Blank) ==> r == Some(JArray([]))
    ensures stored == Some(Malformed) <==> r.None?
    ensures stored.Some? && stored.value.Parses? ==> r == Some(stored.value.value)
  {
    match stored
    case None => Some(JArray([]))
    case Some(Blank) => Some(JArray([]))
    case Some(Malformed) => None
    case Some(Parses(v)) => Some(v)
  }
}
