/**
 * The file and NTRIP client fragments that the settings layer calls but whose code is not part of
 * this model. They are taken at their interface, under one assumption: each reads and writes only
 * its own keys (`FileClient(_)` resp. `NtripClient(_)`). Their readers are therefore applied to the
 * store restricted to those keys, and their default writers put a value's entries under those keys.
 */
module ClientFragments {
  import opened Wrappers
  import opened Preferences

  /** A file or NTRIP client `Value`, seen as the entries its `setDefaultValue` writes, by field name. */
  datatype ClientValue = ClientValue(fields: map<string, PrefValue>)

  /**
   * The unseen calls: the file and NTRIP fragments' `readPath` and `readSummary`, each of which may
   * throw, and `StreamNtripClientFragment.encodeNtripTcpPath(user, password, host, port,
   * mountpoint, str)`, whose null arguments are `None`.
   */
  datatype Foreign = Foreign(
    fileReadPath: Store -> Result<string>,
    fileReadSummary: Store -> Result<string>,
    ntripReadPath: Store -> Result<string>,
    ntripReadSummary: Store -> Result<string>,
    encodeNtripTcpPath: (Option<string>, Option<string>, string, string, Option<string>, Option<string>) -> string)

  /** The entries of the file client fragment. */
  function FileView(s: Store): (v: Store)
    ensures forall k: Key :: k in v <==> k in s && k.FileClient?
    ensures forall k: Key :: k in v ==> v[k] == s[k]
  {
    map k | k in s && k.FileClient? :: s[k]
  }

  /** The entries of the NTRIP client fragment. */
  function NtripView(s: Store): (v: Store)
    ensures forall k: Key :: k in v <==> k in s && k.NtripClient?
    ensures forall k: Key :: k in v ==> v[k] == s[k]
  {
    map k | k in s && k.NtripClient? :: s[k]
  }

  /** The entries the file client's `setDefaultValue` writes for `v`. */
  function FileEntries(v: ClientValue): (m: Store)
    ensures forall k: Key :: k in m <==> k.FileClient? && k.field in v.fields
    ensures forall k: Key :: k in m ==> m[k] == v.fields[k.field]
  {
    map f | f in v.fields :: FileClient(f) := v.fields[f]
  }

  /** The entries the NTRIP client's `setDefaultValue` writes for `v`. */
  function NtripEntries(v: ClientValue): (m: Store)
    ensures forall k: Key :: k in m <==> k.NtripClient? && k.field in v.fields
    ensures forall k: Key :: k in m ==> m[k] == v.fields[k.field]
  {
    map f | f in v.fields :: NtripClient(f) := v.fields[f]
  }

  /** `StreamFileClientFragment.setDefaultValue` on a store: `v`'s entries, and only file client keys change. */
  function WithFileDefaults(s: Store, v: ClientValue): (r: Store)
    ensures forall k: Key :: k in FileEntries(v) ==> k in r && r[k] == FileEntries(v)[k]
    ensures forall k: Key :: k in s ==> k in r
    ensures forall k: Key :: k in r && !k.FileClient? ==> k in s && r[k] == s[k]
  {
    s + FileEntries(v)
  }

  /** `StreamNtripClientFragment.setDefaultValue` on a store: `v`'s entries, and only NTRIP client keys change. */
  function WithNtripDefaults(s: Store, v: ClientValue): (r: Store)
    ensures forall k: Key :: k in NtripEntries(v) ==> k in r && r[k] == NtripEntries(v)[k]
    ensures forall k: Key :: k in s ==> k in r
    ensures forall k: Key :: k in r && !k.NtripClient? ==> k in s && r[k] == s[k]
  {
    s + NtripEntries(v)
  }

  /** Entries under other keys commute with the file client's defaults. */
  lemma FileDefaultsCommute(s: Store, own: Store, v: ClientValue)
    requires forall k: Key :: k in own ==> !k.FileClient?
    ensures WithFileDefaults(s + own, v) == WithFileDefaults(s, v) + own
  {
    DisjointUpdatesCommute(s, own, FileEntries(v));
  }

  /** Entries under other keys commute with the NTRIP client's defaults. */
  lemma NtripDefaultsCommute(s: Store, own: Store, v: ClientValue)
    requires forall k: Key :: k in own ==> !k.NtripClient?
    ensures WithNtripDefaults(s + own, v) == WithNtripDefaults(s, v) + own
  {
    DisjointUpdatesCommute(s, own, NtripEntries(v));
  }

  method FileSetDefaultValue(prefs: SharedPreferences, v: ClientValue)
    modifies prefs
    ensures prefs.entries == WithFileDefaults(old(prefs.entries), v)
  {
    prefs.entries := WithFileDefaults(prefs.entries, v);
  }

  method NtripSetDefaultValue(prefs: SharedPreferences, v: ClientValue)
    modifies prefs
    ensures prefs.entries == WithNtripDefaults(old(prefs.entries), v)
  {
    prefs.entries := WithNtripDefaults(prefs.entries, v);
  }
}
