/**
 * Android's SharedPreferences as the settings layer uses it: a map from key to a string or a
 * boolean. Reads are functions of the map; writes are methods of a `SharedPreferences` object
 * whose `entries` they update in place (an editor's puts followed by its commit or apply, taken as
 * one synchronous update).
 */
module Preferences {
  import opened Wrappers

  /**
   * The keys the core reads and writes. The fragments' key constants whose strings are not shown
   * are separate constructors, hence pairwise distinct; the file and NTRIP client fragments own
   * every key `FileClient(_)` resp. `NtripClient(_)`; a key whose string is shown is a `Literal`.
   */
  datatype Key =
    | InputRoverEnable | InputRoverType | InputRoverFormat
    | InputRoverCommandsAtStartup | InputRoverCommandsAtShutdown | InputRoverReceiverOption
    | OutputSolution1Enable | OutputSolution1Type | OutputSolution1Format
    | LogRoverEnable | LogRoverType
    | FileClient(field: string)
    | NtripClient(field: string)
    | Literal(name: string)

  datatype PrefValue = Str(s: string) | Bool(b: bool)

  type Store = map<Key, PrefValue>

  /** `getString(key, def)`: the stored string, `def` when the key is absent; a boolean entry does not cast. */
  function GetString(s: Store, k: Key, def: string): (r: Result<string>)
    ensures r.Ok? <==> (k !in s || s[k].Str?)
    ensures r.Ok? ==> r.value == (if k in s then s[k].s else def)
    ensures r.Err? ==> r.error == ClassCast
  {
    if k !in s then Ok(def)
    else match s[k]
      case Str(v) => Ok(v)
      case Bool(_) => Err(ClassCast)
  }

  /** `getString(key, null)`: as `GetString`, with Java's null for an absent key. */
  function GetStringOrNull(s: Store, k: Key): (r: Result<Option<string>>)
    ensures r.Ok? <==> (k !in s || s[k].Str?)
    ensures r.Ok? ==> r.value == (if k in s then Some(s[k].s) else None)
    ensures r.Err? ==> r.error == ClassCast
  {
    if k !in s then Ok(None)
    else match s[k]
      case Str(v) => Ok(Some(v))
      case Bool(_) => Err(ClassCast)
  }

  /** `getBoolean(key, def)`: the stored boolean, `def` when the key is absent; a string entry does not cast. */
  function GetBoolean(s: Store, k: Key, def: bool): (r: Result<bool>)
    ensures r.Ok? <==> (k !in s || s[k].Bool?)
    ensures r.Ok? ==> r.value == (if k in s then s[k].b else def)
    ensures r.Err? ==> r.error == ClassCast
  {
    if k !in s then Ok(def)
    else match s[k]
      case Bool(v) => Ok(v)
      case Str(_) => Err(ClassCast)
  }

  /** Writes to disjoint sets of keys can be made in either order. */
  lemma DisjointUpdatesCommute(s: Store, a: Store, b: Store)
    requires forall k :: k in a ==> k !in b
    ensures (s + a) + b == (s + b) + a
  {
    var lhs, rhs := (s + a) + b, (s + b) + a;
    forall k | k in lhs
      ensures k in rhs && lhs[k] == rhs[k]
    {
    }
    assert lhs.Keys == rhs.Keys;
  }

  /** A preferences file: its entries, changed in place by the puts. */
  class SharedPreferences {
    var entries: Store

    constructor (initial: Store)
      ensures entries == initial
    {
      entries := initial;
    }

    method PutString(k: Key, v: string)
      modifies this
      ensures entries == old(entries)[k := Str(v)]
    {
      entries := entries[k := Str(v)];
    }

    method PutBoolean(k: Key, v: bool)
      modifies this
      ensures entries == old(entries)[k := Bool(v)]
    {
      entries := entries[k := Bool(v)];
    }
  }
}
