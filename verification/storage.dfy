/** The device-local key-value store and the read/write pattern every
    screen repeats: read one key, parse it, keep the list in memory, and on
    every change serialize the whole list back under the same key. */
module Storage {
  import opened Wrappers
  import opened Json
  import opened Codec

  /** AsyncStorage: keys to raw stored text. */
  type Store = map<string, string>

  /** What a screen holds: the store and its in-memory list (React state). */
  datatype View = View(store: Store, list: seq<Value>)

  /** `s1` and `s2` hold the same thing under `k`, including both lacking it. */
  predicate Agree(s1: Store, s2: Store, k: string) {
    (k in s1 <==> k in s2) && (k in s1 ==> s1[k] == s2[k])
  }

  /** Every key outside `keys` is untouched from `s` to `s'`. */
  ghost predicate OnlyChanged(s: Store, s': Store, keys: set<string>) {
    forall k :: k !in keys ==> Agree(s, s', k)
  }

  /** The backup's `JSON.parse(value || '[]')`: a missing or empty value
      reads as the empty array; anything else is parsed, and None means the
      parse threw. */
  function Read(c: Codec, s: Store, key: string): (r: Option<Value>)
    ensures key !in s || s[key] == "" ==> r == Some(JArr([]))
    ensures key in s && s[key] != "" ==> r == c.decode(s[key])
  {
    if key in s && s[key] != "" then c.decode(s[key]) else Some(JArr([]))
  }

  /** The screens' load on mount. The list starts as `[]` and is replaced
      only when the stored value is non-empty and parses; a parse error is
      caught and logged, so the list stays `[]`. A value that parses to
      something other than an array is also read as `[]` here. */
  function Load(c: Codec, s: Store, key: string): (xs: seq<Value>)
    ensures key !in s || s[key] == "" ==> xs == []
    ensures key in s && s[key] != "" && c.decode(s[key]).None? ==> xs == []
    ensures Read(c, s, key).Some? && Read(c, s, key).value.JArr? ==> xs == Read(c, s, key).value.items
  {
    match Read(c, s, key)
    case Some(JArr(ys)) => ys
    case _ => []
  }

  /** `AsyncStorage.setItem(key, JSON.stringify(xs))`: the whole list
      replaces whatever was stored under `key`, and nothing else changes.
      Loading the key again gives back exactly `xs`. */
  function Save(c: Codec, s: Store, key: string, xs: seq<Value>): (r: Store)
    ensures key in r && r[key] == c.encode(JArr(xs))
    ensures OnlyChanged(s, r, {key})
    ensures r.Keys == s.Keys + {key}
    ensures Lawful(c) ==> Load(c, r, key) == xs
  {
    s[key := c.encode(JArr(xs))]
  }

  /** A second save under the same key discards the first: writes are full
      overwrites, never merges. */
  lemma SaveOverwrites(c: Codec, s: Store, key: string, xs: seq<Value>, ys: seq<Value>)
    ensures Save(c, Save(c, s, key, xs), key, ys) == Save(c, s, key, ys)
  {
  }
}
