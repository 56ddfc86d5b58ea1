# RtkGps stream settings, modelled in Dafny

RtkGps is an Android front end for the RTKLIB positioning engine. Its engine settings live in
Android `SharedPreferences` files, one file per stream. This project models the stream part of
`SettingsHelper` and the TCP client fragment it calls:

- the defaults records. `StreamDefaultsBase` holds enable, type and the three client fragments'
  defaults. The input, output and log records extend it.
- the three seeders. Each writes a record into a stream's preferences, but only when forced or
  when the stream's enable key is absent.
- the three readers. Each turns a stream's preferences back into an engine stream description.
- `readStreamPath`, `readStreamSummary` and the three `read*StreamSumary` helpers, which dispatch
  on the stream type.
- `StreamTcpClientFragment`: its `Value` (host and port, with the port kept in 1..65535),
  `setDefaultValue`, `readPath` and `readSummary`.

A preferences file is a `Store`, a map from `Key` to a string or a boolean. Reads are functions of
the store. Writes are methods of a `SharedPreferences` object whose `entries` they change. A seeder
method is proved equal to a function (`SeedInput`, `SeedOutput`, `SeedLog`), and the round-trip
lemmas are stated about those functions. A Java exception is the `Err` case of a `Result`; the
Android getters' failed cast is `ClassCast`.

The file and NTRIP client fragments are not part of this model. Their `readPath`, `readSummary` and
`StreamNtripClientFragment.encodeNtripTcpPath` are parameters, gathered in the record `Foreign`.
Each is assumed to touch only its own keys: the readers are handed the store restricted to the
fragment's keys, and the default writers put a `ClientValue`'s fields under those keys.

Files:

- `wrappers.dfy`: `Option`, `Result`, `Exception`.
- `constants.dfy`: `StreamType`, `StreamFormat`, `SolutionFormat`, with `name()` and `valueOf`.
- `preferences.dfy`: keys, store, getters and the `SharedPreferences` object.
- `decimal.dfy`: `String.valueOf(int)` and its inverse.
- `fragments.dfy`: the file and NTRIP client fragments at their interface.
- `tcp_client.dfy`: `StreamTcpClientFragment`.
- `settings_helper.dfy`: `SettingsHelper`.

## Model

| member | source | states |
|---|---|---|
| Rtklib.StreamTypeValueOf | src/ru0xdc/rtkgps/settings/SettingsHelper.java:236 | `StreamType.valueOf` returns the constant whose `name()` is the string, and there is one exactly when some constant has that name |
| Rtklib.StreamFormatValueOf | src/ru0xdc/rtkgps/settings/SettingsHelper.java:239 | `StreamFormat.valueOf` is the inverse of `name()` on the format constants |
| Rtklib.SolutionFormatValueOf | src/ru0xdc/rtkgps/settings/SettingsHelper.java:270 | `SolutionFormat.valueOf` is the inverse of `name()` on the solution format constants |
| Rtklib.StreamTypeNameInverse | src/ru0xdc/rtkgps/settings/SettingsHelper.java:165 | `StreamType.name()`, as the seeders store it, is mapped back to the same constant by `valueOf`, and distinct constants have distinct names |
| Rtklib.StreamFormatNameInverse | src/ru0xdc/rtkgps/settings/SettingsHelper.java:166 | `StreamFormat.name()` is mapped back to the same constant by `valueOf`, and distinct formats have distinct names |
| Rtklib.SolutionFormatNameInverse | src/ru0xdc/rtkgps/settings/SettingsHelper.java:191 | `SolutionFormat.name()` is mapped back to the same constant by `valueOf`, and distinct formats have distinct names |
| Preferences.GetString | src/ru0xdc/rtkgps/settings/SettingsHelper.java:239-241 | `getString(key, def)` succeeds exactly when the key is absent or holds a string; it gives the stored string or else the default; a boolean entry fails with a class cast |
| Preferences.GetStringOrNull | src/ru0xdc/rtkgps/settings/SettingsHelper.java:236 | `getString(key, null)` gives null for an absent key and the string otherwise; a boolean entry fails with a class cast |
| Preferences.GetBoolean | src/ru0xdc/rtkgps/settings/SettingsHelper.java:231 | `getBoolean(key, def)` gives the stored boolean or the default; a string entry fails with a class cast |
| Preferences.SharedPreferences.PutString | src/ru0xdc/rtkgps/settings/SettingsHelper.java:165-171 | a put followed by its commit sets exactly that key to the string |
| Preferences.SharedPreferences.PutBoolean | src/ru0xdc/rtkgps/settings/SettingsHelper.java:164 | a put followed by its commit sets exactly that key to the boolean |
| Preferences.DisjointUpdatesCommute | src/ru0xdc/rtkgps/settings/SettingsHelper.java:164-175 | writes to disjoint sets of keys give the same store in either order |
| JavaDecimal.Decimal | src/ru0xdc/rtkgps/settings/StreamTcpClientFragment.java:94 | `String.valueOf(port)` is nonempty; it starts with '-' exactly for a negative number; the rest is digits with no leading zero; a non-negative number starts with '0' only when it is zero |
| JavaDecimal.NatDecimal | src/ru0xdc/rtkgps/settings/StreamTcpClientFragment.java:94 | the digits of a natural number start with '0' only for zero, and there is a single digit exactly below ten |
| JavaDecimal.NatDecimalValue | src/ru0xdc/rtkgps/settings/StreamTcpClientFragment.java:94 | the digits of a natural number denote that number |
| JavaDecimal.DecimalRoundTrip | src/ru0xdc/rtkgps/settings/StreamTcpClientFragment.java:94 | reading the decimal string back gives the integer |
| JavaDecimal.DecimalInjective | src/ru0xdc/rtkgps/settings/StreamTcpClientFragment.java:94 | different ports are written as different strings |
| ClientFragments.FileView | src/ru0xdc/rtkgps/settings/SettingsHelper.java:308 | the file fragment sees exactly the entries under its own keys, unchanged |
| ClientFragments.NtripView | src/ru0xdc/rtkgps/settings/SettingsHelper.java:311 | the NTRIP fragment sees exactly the entries under its own keys, unchanged |
| ClientFragments.FileEntries | src/ru0xdc/rtkgps/settings/SettingsHelper.java:173 | the file fragment's defaults are the value's fields, under file client keys only |
| ClientFragments.NtripEntries | src/ru0xdc/rtkgps/settings/SettingsHelper.java:174 | the NTRIP fragment's defaults are the value's fields, under NTRIP client keys only |
| ClientFragments.WithFileDefaults | src/ru0xdc/rtkgps/settings/SettingsHelper.java:173 | the file fragment's `setDefaultValue` writes the value's entries, keeps every key, and changes only file client keys |
| ClientFragments.WithNtripDefaults | src/ru0xdc/rtkgps/settings/SettingsHelper.java:174 | the NTRIP fragment's `setDefaultValue` writes the value's entries, keeps every key, and changes only NTRIP client keys |
| ClientFragments.FileDefaultsCommute | src/ru0xdc/rtkgps/settings/SettingsHelper.java:164-173 | entries outside the file fragment's keys commute with its defaults |
| ClientFragments.NtripDefaultsCommute | src/ru0xdc/rtkgps/settings/SettingsHelper.java:164-174 | entries outside the NTRIP fragment's keys commute with its defaults |
| ClientFragments.FileSetDefaultValue | src/ru0xdc/rtkgps/settings/SettingsHelper.java:173 | the object's entries become the file fragment's defaults applied to the old entries |
| ClientFragments.NtripSetDefaultValue | src/ru0xdc/rtkgps/settings/SettingsHelper.java:174 | the object's entries become the NTRIP fragment's defaults applied to the old entries |
| StreamTcpClientFragment.Value.constructor | src/ru0xdc/rtkgps/settings/StreamTcpClientFragment.java:30-36 | a new value is "localhost":1020 and satisfies the port invariant |
| StreamTcpClientFragment.Value.SetHost | src/ru0xdc/rtkgps/settings/StreamTcpClientFragment.java:38-42 | a null host throws NullPointerException and changes nothing; otherwise the host is stored and the port kept; the invariant holds |
| StreamTcpClientFragment.Value.SetPort | src/ru0xdc/rtkgps/settings/StreamTcpClientFragment.java:44-48 | a port outside 1..65535 throws IllegalArgumentException and changes nothing; otherwise it is stored; the host is kept and the invariant holds |
| StreamTcpClientFragment.WithDefaultValue | src/ru0xdc/rtkgps/settings/StreamTcpClientFragment.java:88-96 | `setDefaultValue` adds exactly the host key and the port key, with the host and the decimal port, and keeps every other entry |
| StreamTcpClientFragment.DefaultValueCommutes | src/ru0xdc/rtkgps/settings/StreamTcpClientFragment.java:88-96 | entries under other keys commute with `setDefaultValue` |
| StreamTcpClientFragment.SetDefaultValue | src/ru0xdc/rtkgps/settings/StreamTcpClientFragment.java:88-96 | the object's entries become the old entries with the value's host and decimal port |
| StreamTcpClientFragment.StoredPortInRange | src/ru0xdc/rtkgps/settings/StreamTcpClientFragment.java:44-48 | for a valid value, the stored port string is all digits and parses back to the port, which lies in 1..65535 |
| StreamTcpClientFragment.ReadPath | src/ru0xdc/rtkgps/settings/StreamTcpClientFragment.java:131-141 | `readPath` succeeds exactly when host and port are absent or strings; it is the encoder applied to the stored host and the stored port, each "" when its own key is absent, with null for the other four arguments |
| StreamTcpClientFragment.ReadSummary | src/ru0xdc/rtkgps/settings/StreamTcpClientFragment.java:143-145 | `readSummary` succeeds exactly when `readPath` does, and is "tcp:" followed by the path |
| StreamTcpClientFragment.ReadPathAfterSetDefault | src/ru0xdc/rtkgps/settings/StreamTcpClientFragment.java:88-141 | after `setDefaultValue`, `readPath` encodes exactly the value's host and decimal port |
| StreamTcpClientFragment.ReadPathFrame | src/ru0xdc/rtkgps/settings/StreamTcpClientFragment.java:131-145 | path and summary depend on the host and port entries only |
| SettingsHelper.StreamDefaultsBase.constructor | src/ru0xdc/rtkgps/settings/SettingsHelper.java:28-34 | a base record is enabled, of type NTRIPCLI, with fresh client defaults (a TCP value "localhost":1020) |
| SettingsHelper.StreamDefaultsBase.SetEnabled | src/ru0xdc/rtkgps/settings/SettingsHelper.java:36-39 | sets the enable flag, changes no other field, returns the record itself |
| SettingsHelper.StreamDefaultsBase.SetType | src/ru0xdc/rtkgps/settings/SettingsHelper.java:41-44 | sets the type, changes no other field, returns the record itself |
| SettingsHelper.StreamDefaultsBase.SetFileClientDefaults | src/ru0xdc/rtkgps/settings/SettingsHelper.java:46-49 | sets the file client defaults, changes no other field, returns the record itself |
| SettingsHelper.StreamDefaultsBase.SetNtripClientDefaults | src/ru0xdc/rtkgps/settings/SettingsHelper.java:51-54 | sets the NTRIP client defaults, changes no other field, returns the record itself |
| SettingsHelper.StreamDefaultsBase.SetTcpClientDefaults | src/ru0xdc/rtkgps/settings/SettingsHelper.java:56-59 | keeps a reference to the given TCP value, changes no other field, returns the record itself |
| SettingsHelper.InputStreamDefaults.constructor | src/ru0xdc/rtkgps/settings/SettingsHelper.java:69-75 | an input record is the base defaults with format RTCM3 and empty commands and receiver option |
| SettingsHelper.InputStreamDefaults.SetFormat | src/ru0xdc/rtkgps/settings/SettingsHelper.java:77-80 | sets the format, keeps the commands and receiver option, returns the record itself |
| SettingsHelper.OutputStreamDefaults.constructor | src/ru0xdc/rtkgps/settings/SettingsHelper.java:88-92 | an output record is the base defaults with type FILE and format LLH |
| SettingsHelper.OutputStreamDefaults.SetFormat | src/ru0xdc/rtkgps/settings/SettingsHelper.java:94-97 | sets the format and returns the record itself |
| SettingsHelper.LogStreamDefaults.constructor | src/ru0xdc/rtkgps/settings/SettingsHelper.java:102-105 | a log record is the base defaults with type FILE |
| SettingsHelper.WithClientDefaults | src/ru0xdc/rtkgps/settings/SettingsHelper.java:173-175 | the three client `setDefaultValue` calls keep every key, change only client fragment keys, and leave the file and NTRIP fields and the TCP host and decimal port in the store |
| SettingsHelper.Seed | src/ru0xdc/rtkgps/settings/SettingsHelper.java:160-162 | when not forced and the enable key is present, a seeder leaves the store as it is |
| SettingsHelper.ClientDefaultsCommute | src/ru0xdc/rtkgps/settings/SettingsHelper.java:163-175 | a stream's own entries commute with the client fragments' defaults |
| SettingsHelper.SeedWrites | src/ru0xdc/rtkgps/settings/SettingsHelper.java:160-176 | a seeder that writes leaves the client defaults overlaid by the record's own entries |
| SettingsHelper.InputEntries | src/ru0xdc/rtkgps/settings/SettingsHelper.java:164-169 | the input seeder writes exactly the six input rover keys |
| SettingsHelper.OutputEntries | src/ru0xdc/rtkgps/settings/SettingsHelper.java:189-191 | the output seeder writes exactly the three output solution keys |
| SettingsHelper.LogEntries | src/ru0xdc/rtkgps/settings/SettingsHelper.java:209-210 | the log seeder writes exactly the two log rover keys |
| SettingsHelper.SeedInput | src/ru0xdc/rtkgps/settings/SettingsHelper.java:151-177 | not forced with the enable key present: no change; otherwise the client defaults overlaid by the six input entries, each holding the record's field (type and format by name) |
| SettingsHelper.SeedOutput | src/ru0xdc/rtkgps/settings/SettingsHelper.java:179-198 | the same, with the three output entries |
| SettingsHelper.SeedLog | src/ru0xdc/rtkgps/settings/SettingsHelper.java:200-218 | the same, with the two log entries |
| SettingsHelper.SeedInputOnce | src/ru0xdc/rtkgps/settings/SettingsHelper.java:160 | after any seed, an unforced seed changes nothing |
| SettingsHelper.SeedOutputOnce | src/ru0xdc/rtkgps/settings/SettingsHelper.java:185 | after any seed, an unforced seed changes nothing |
| SettingsHelper.SeedLogOnce | src/ru0xdc/rtkgps/settings/SettingsHelper.java:205 | after any seed, an unforced seed changes nothing |
| SettingsHelper.SetClientDefaultValues | src/ru0xdc/rtkgps/settings/SettingsHelper.java:173-175 | the object's entries become `WithClientDefaults` of the old entries |
| SettingsHelper.SetInputStreamDefaultValues | src/ru0xdc/rtkgps/settings/SettingsHelper.java:151-177 | the object's entries become `SeedInput` of the old entries |
| SettingsHelper.SetOutputStreamDefaultValues | src/ru0xdc/rtkgps/settings/SettingsHelper.java:179-198 | the object's entries become `SeedOutput` of the old entries |
| SettingsHelper.SetLogStreamDefaultValues | src/ru0xdc/rtkgps/settings/SettingsHelper.java:200-218 | the object's entries become `SeedLog` of the old entries |
| SettingsHelper.ParseStreamType | src/ru0xdc/rtkgps/settings/SettingsHelper.java:236 | `StreamType.valueOf` succeeds exactly on a constant's name and gives that constant; null throws NullPointerException; any other string throws IllegalArgumentException |
| SettingsHelper.ParseStreamFormat | src/ru0xdc/rtkgps/settings/SettingsHelper.java:239 | `StreamFormat.valueOf` succeeds exactly on a constant's name and gives that constant; otherwise IllegalArgumentException |
| SettingsHelper.ParseSolutionFormat | src/ru0xdc/rtkgps/settings/SettingsHelper.java:270 | `SolutionFormat.valueOf` succeeds exactly on a constant's name and gives that constant; otherwise IllegalArgumentException |
| SettingsHelper.ReadStreamHead | src/ru0xdc/rtkgps/settings/SettingsHelper.java:229-236 | no type key throws IllegalStateException before anything else is read; disabled (or enable absent) reads as NONE; a string enable entry fails to cast; otherwise the stored type, and an unknown name fails |
| SettingsHelper.ReadStreamPath | src/ru0xdc/rtkgps/settings/SettingsHelper.java:302-323 | FILE, NTRIPCLI and TCPCLI delegate to their fragment's `readPath`; NONE gives ""; any other type throws IllegalArgumentException |
| SettingsHelper.ReadStreamSummary | src/ru0xdc/rtkgps/settings/SettingsHelper.java:346-366 | the same dispatch with each fragment's `readSummary` |
| SettingsHelper.ReadInputStreamPrefs | src/ru0xdc/rtkgps/settings/SettingsHelper.java:220-247 | no type key gives IllegalStateException; disabled gives a NONE stream with nothing else set; an unknown type name gives IllegalArgumentException; an enabled read holds the stored type, the stored format (RTCM3 when absent), the stored startup commands and receiver option ("" when absent) and the type's path; the format is set exactly when the stream is enabled |
| SettingsHelper.ReadOutputStreamPrefs | src/ru0xdc/rtkgps/settings/SettingsHelper.java:249-276 | the same, with the given solution options kept and NMEA as the missing-format fallback |
| SettingsHelper.ReadLogStreamPrefs | src/ru0xdc/rtkgps/settings/SettingsHelper.java:278-300 | the same, for type and path only; the path is set exactly when the stream is enabled |
| SettingsHelper.ReadSummaryOf | src/ru0xdc/rtkgps/settings/SettingsHelper.java:325-344 | with no type key the type is NONE and the summary is ""; a boolean entry fails to cast; an unknown name throws IllegalArgumentException; otherwise the summary of the stored type; the enable key is not consulted |
| SettingsHelper.ReadInputStreamSummary | src/ru0xdc/rtkgps/settings/SettingsHelper.java:325-330 | the summary of the input rover type key; "" when the key is absent |
| SettingsHelper.ReadOutputStreamSummary | src/ru0xdc/rtkgps/settings/SettingsHelper.java:332-337 | the summary of the output solution type key; "" when the key is absent |
| SettingsHelper.ReadLogStreamSummary | src/ru0xdc/rtkgps/settings/SettingsHelper.java:339-344 | the summary of the log rover type key; "" when the key is absent |
| SettingsHelper.ReadInputEnabled | src/ru0xdc/rtkgps/settings/SettingsHelper.java:229-246 | an enabled input store holding a type reads back as that type with its path, or fails where the path fails; a format and two strings that are stored are read back, and absent ones read as RTCM3, "" and "" |
| SettingsHelper.ReadOutputEnabled | src/ru0xdc/rtkgps/settings/SettingsHelper.java:260-275 | an enabled output store holding a type reads back as that type with its path; a stored solution format is read back and an absent one reads as NMEA |
| SettingsHelper.ReadLogEnabled | src/ru0xdc/rtkgps/settings/SettingsHelper.java:287-299 | an enabled log store holding a type reads back as that type with its path |
| SettingsHelper.SeedThenReadInputDisabled | src/ru0xdc/rtkgps/settings/SettingsHelper.java:151-234 | a seed that writes a disabled input record reads back as a NONE stream |
| SettingsHelper.SeedThenReadInput | src/ru0xdc/rtkgps/settings/SettingsHelper.java:151-247 | a seed that writes an enabled input record reads back as its type, format, startup commands and receiver option with the type's path, and fails exactly where that path fails |
| SettingsHelper.SeedThenReadInputTcp | src/ru0xdc/rtkgps/settings/SettingsHelper.java:151-247 | for a TCP client input record, the path read back encodes the record's TCP host and decimal port |
| SettingsHelper.SeedThenReadInputUnhandled | src/ru0xdc/rtkgps/settings/SettingsHelper.java:151-247 | seeding an enabled input record of a type the dispatch does not know makes reading it throw IllegalArgumentException |
| SettingsHelper.SeedThenReadOutputDisabled | src/ru0xdc/rtkgps/settings/SettingsHelper.java:179-265 | a seed that writes a disabled output record reads back as a NONE stream |
| SettingsHelper.SeedThenReadOutput | src/ru0xdc/rtkgps/settings/SettingsHelper.java:179-276 | a seed that writes an enabled output record reads back as its type and solution format with the type's path |
| SettingsHelper.SeedThenReadOutputTcp | src/ru0xdc/rtkgps/settings/SettingsHelper.java:179-276 | for a TCP client output record, the path read back encodes the record's TCP host and decimal port |
| SettingsHelper.SeedThenReadOutputUnhandled | src/ru0xdc/rtkgps/settings/SettingsHelper.java:179-276 | seeding an enabled output record of an unknown type makes reading it throw IllegalArgumentException |
| SettingsHelper.SeedThenReadLogDisabled | src/ru0xdc/rtkgps/settings/SettingsHelper.java:200-292 | a seed that writes a disabled log record reads back as a NONE stream |
| SettingsHelper.SeedThenReadLog | src/ru0xdc/rtkgps/settings/SettingsHelper.java:200-300 | a seed that writes an enabled log record reads back as its type with the type's path |
| SettingsHelper.SeedThenReadLogTcp | src/ru0xdc/rtkgps/settings/SettingsHelper.java:200-300 | for a TCP client log record, the path read back encodes the record's TCP host and decimal port |
| SettingsHelper.SeedThenReadLogUnhandled | src/ru0xdc/rtkgps/settings/SettingsHelper.java:200-300 | seeding an enabled log record of an unknown type makes reading it throw IllegalArgumentException |
| SettingsHelper.DispatchFrame | src/ru0xdc/rtkgps/settings/SettingsHelper.java:302-366 | path and summary depend only on the client fragments' entries |
| SettingsHelper.InputIgnoresShutdownCommands | src/ru0xdc/rtkgps/settings/SettingsHelper.java:220-247 | the input reader never reads the shutdown commands key: stores that differ only there read alike |
| SettingsHelper.SummaryFrame | src/ru0xdc/rtkgps/settings/SettingsHelper.java:325-366 | a summary depends only on the type key and the client fragments' entries, so not on the enable key |
| SettingsHelper.SummaryAgreesWithPath | src/ru0xdc/rtkgps/settings/SettingsHelper.java:302-366 | for every type except FILE and NTRIPCLI, the summary is the path behind its tag ("tcp:" for TCPCLI, nothing for NONE), and both fail alike |

## Left out

- The Android lifecycle and UI of the TCP fragment are not modelled: its constructor, `onCreate`, `onActivityCreated`, `initPreferenceScreen`, `onResume`, `onPause`, `reloadSummaries` and the change listener (StreamTcpClientFragment.java:52-86 and 98-129). They touch only the screen and the listener registry.
- `DBG` logging is left out; it has no effect on stored values.
- `setDefaultValues` and `loadSettings` (SettingsHelper.java:109-149) are left out. They only call the other fragments, and the code of those fragments is not part of this model.
- Opening a preferences file by name is left out; each operation takes the preferences object or its entries directly.
- Commit and apply are both one synchronous update of the entries. The asynchronous write to disk that `apply` does is not modelled.
- The file and NTRIP client fragments are not part of this model. Their readers and `encodeNtripTcpPath` are parameters. Their default values are constructor parameters of the defaults records, and their `setDefaultValue` is taken to write a value's fields under that fragment's keys only.
- The constant lists of `StreamType`, `StreamFormat` and `SolutionFormat` follow RTKLIB, because the enumeration sources are not part of this model. Only the constants this code names (NONE, FILE, TCPCLI, NTRIPCLI, RTCM3, LLH, NMEA) affect what is proved.
- The engine's `InputStream`, `OutputStream` and `LogStream` objects are values here. A field the reader never sets is `None`.
- Java null is modelled only where the code checks for it (`setHost`) and where it can occur (`getString(key, null)`). Null defaults objects and null preferences are not modelled.
- The TCP `Value` fields are set only through the modelled setters. Java's private access is not modelled.
- The seed-then-read lemmas cover a seed that writes. A seed that does not write leaves the store unchanged, and that case is stated by `SeedInput`, `SeedOutput` and `SeedLog`.
- The output reader falls back to NMEA when the format key is absent, while the output defaults record seeds LLH. Every seed writes the format key, so the fallback matters only for a store that was never seeded by this code.
