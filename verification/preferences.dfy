/** The persisted application preferences the helpers are configured through,
    abstracted as a key -> value map plus the log of every write issued to it.
    Only the four keys of the helpers are named; every other preference is an
    `OtherKey`. */
module Preferences {

  datatype Key = FFmpegPath | FFmpegTimeout | RhubarbPath | RhubarbTimeout | OtherKey(name: string)

  datatype Value = Str(s: string) | Int(i: int)

  datatype Write = Write(key: Key, value: Value)

  datatype Prefs = Prefs(values: map<Key, Value>, writes: seq<Write>)

  /** A string preference; a key that is absent or holds no string reads as
      the empty string, as an invalid QVariant converts. */
  function GetString(p: Prefs, key: Key): string {
    if key in p.values && p.values[key].Str? then p.values[key].s else ""
  }

  /** An integer preference; absent or non-integer values read as 0. */
  function GetInt(p: Prefs, key: Key): int {
    if key in p.values && p.values[key].Int? then p.values[key].i else 0
  }

  /** `a` and `b` agree on key `k`: both lack it or both hold the same value. */
  predicate SameOn(a: map<Key, Value>, b: map<Key, Value>, k: Key) {
    (k !in a && k !in b) || (k in a && k in b && a[k] == b[k])
  }

  /** `r` is `p` after `setValue(key, v)`: one write appended, `key` holds `v`,
      every other key as before. */
  ghost predicate WrittenOnce(p: Prefs, r: Prefs, key: Key, v: Value) {
    && r.writes == p.writes + [Write(key, v)]
    && key in r.values && r.values[key] == v
    && (forall k :: k != key ==> SameOn(p.values, r.values, k))
  }

  /** A change-guarded string setter: when the stored string already equals
      `v` the store is returned untouched and no write is issued; otherwise
      exactly one write of `v` to `key` is issued. */
  function SetString(p: Prefs, key: Key, v: string): (r: Prefs)
    ensures GetString(r, key) == v
    ensures GetString(p, key) == v ==> r == p
    ensures GetString(p, key) != v ==> WrittenOnce(p, r, key, Str(v))
    ensures forall k :: k != key ==> SameOn(p.values, r.values, k)
  {
    if GetString(p, key) == v then p
    else Prefs(p.values[key := Str(v)], p.writes + [Write(key, Str(v))])
  }

  /** The change-guarded integer setter. */
  function SetInt(p: Prefs, key: Key, v: int): (r: Prefs)
    ensures GetInt(r, key) == v
    ensures GetInt(p, key) == v ==> r == p
    ensures GetInt(p, key) != v ==> WrittenOnce(p, r, key, Int(v))
    ensures forall k :: k != key ==> SameOn(p.values, r.values, k)
  {
    if GetInt(p, key) == v then p
    else Prefs(p.values[key := Int(v)], p.writes + [Write(key, Int(v))])
  }
}
