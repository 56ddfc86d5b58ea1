/**
 * The stream part of the settings helper: the defaults records of the input, output and log
 * streams, the seeders that write a defaults record into a stream's preferences (when forced, or
 * when the stream has never been seeded), the readers that turn a stream's preferences back into
 * a stream description, and the path and summary dispatch on the stream type.
 */
module SettingsHelper {
  import opened Wrappers
  import opened Rtklib
  import opened Preferences
  import opened ClientFragments
  import Tcp = StreamTcpClientFragment
  import opened JavaDecimal

  // ---------------------------------------------------------------------------------------------
  // Defaults records. The input, output and log records extend the base record; here each holds
  // its base record as `base`.

  class StreamDefaultsBase {
    var enable: bool
    var streamType: StreamType
    var fileClientDefaults: ClientValue
    var ntripClientDefaults: ClientValue
    var tcpClientDefaults: Tcp.Value

    /** The file and NTRIP fragments' default values are those fragments' fresh `Value`s. */
    constructor (fileDefault: ClientValue, ntripDefault: ClientValue)
      ensures enable && streamType == NTRIPCLI
      ensures fileClientDefaults == fileDefault && ntripClientDefaults == ntripDefault
      ensures fresh(tcpClientDefaults) && tcpClientDefaults.Valid()
      ensures tcpClientDefaults.host == Tcp.DefaultHost && tcpClientDefaults.port == Tcp.DefaultPort
    {
      enable := true;
      streamType := NTRIPCLI;
      fileClientDefaults := fileDefault;
      ntripClientDefaults := ntripDefault;
      tcpClientDefaults := new Tcp.Value();
    }

    method SetEnabled(enabled: bool) returns (self: StreamDefaultsBase)
      modifies this
      ensures self == this && enable == enabled
      ensures streamType == old(streamType) && tcpClientDefaults == old(tcpClientDefaults)
      ensures fileClientDefaults == old(fileClientDefaults) && ntripClientDefaults == old(ntripClientDefaults)
    {
      enable := enabled;
      self := this;
    }

    method SetType(t: StreamType) returns (self: StreamDefaultsBase)
      modifies this
      ensures self == this && streamType == t
      ensures enable == old(enable) && tcpClientDefaults == old(tcpClientDefaults)
      ensures fileClientDefaults == old(fileClientDefaults) && ntripClientDefaults == old(ntripClientDefaults)
    {
      streamType := t;
      self := this;
    }

    method SetFileClientDefaults(defaults: ClientValue) returns (self: StreamDefaultsBase)
      modifies this
      ensures self == this && fileClientDefaults == defaults
      ensures enable == old(enable) && streamType == old(streamType) && tcpClientDefaults == old(tcpClientDefaults)
      ensures ntripClientDefaults == old(ntripClientDefaults)
    {
      fileClientDefaults := defaults;
      self := this;
    }

    method SetNtripClientDefaults(defaults: ClientValue) returns (self: StreamDefaultsBase)
      modifies this
      ensures self == this && ntripClientDefaults == defaults
      ensures enable == old(enable) && streamType == old(streamType) && tcpClientDefaults == old(tcpClientDefaults)
      ensures fileClientDefaults == old(fileClientDefaults)
    {
      ntripClientDefaults := defaults;
      self := this;
    }

    /** Keeps a reference to `defaults`: later changes to that object are seen by the seeders. */
    method SetTcpClientDefaults(defaults: Tcp.Value) returns (self: StreamDefaultsBase)
      modifies this
      ensures self == this && tcpClientDefaults == defaults
      ensures enable == old(enable) && streamType == old(streamType)
      ensures fileClientDefaults == old(fileClientDefaults) && ntripClientDefaults == old(ntripClientDefaults)
    {
      tcpClientDefaults := defaults;
      self := this;
    }
  }

  class InputStreamDefaults {
    const base: StreamDefaultsBase
    var format: StreamFormat
    var commandsAtStartup: string
    var commandsAtShutdown: string
    var receiverOption: string

    constructor (fileDefault: ClientValue, ntripDefault: ClientValue)
      ensures fresh(base) && fresh(base.tcpClientDefaults) && base.tcpClientDefaults.Valid()
      ensures base.enable && base.streamType == NTRIPCLI
      ensures base.fileClientDefaults == fileDefault && base.ntripClientDefaults == ntripDefault
      ensures base.tcpClientDefaults.host == Tcp.DefaultHost && base.tcpClientDefaults.port == Tcp.DefaultPort
      ensures format == RTCM3
      ensures commandsAtStartup == "" && commandsAtShutdown == "" && receiverOption == ""
    {
      base := new StreamDefaultsBase(fileDefault, ntripDefault);
      format := RTCM3;
      commandsAtStartup := "";
      commandsAtShutdown := "";
      receiverOption := "";
    }

    method SetFormat(f: StreamFormat) returns (self: InputStreamDefaults)
      modifies this
      ensures self == this && format == f
      ensures commandsAtStartup == old(commandsAtStartup) && commandsAtShutdown == old(commandsAtShutdown)
      ensures receiverOption == old(receiverOption)
    {
      format := f;
      self := this;
    }
  }

  class OutputStreamDefaults {
    const base: StreamDefaultsBase
    var format: SolutionFormat

    constructor (fileDefault: ClientValue, ntripDefault: ClientValue)
      ensures fresh(base) && fresh(base.tcpClientDefaults) && base.tcpClientDefaults.Valid()
      ensures base.enable && base.streamType == FILE
      ensures base.fileClientDefaults == fileDefault && base.ntripClientDefaults == ntripDefault
      ensures base.tcpClientDefaults.host == Tcp.DefaultHost && base.tcpClientDefaults.port == Tcp.DefaultPort
      ensures format == LLH
    {
      var b := new StreamDefaultsBase(fileDefault, ntripDefault);
      b.streamType := FILE;
      base := b;
      format := LLH;
    }

    method SetFormat(f: SolutionFormat) returns (self: OutputStreamDefaults)
      modifies this
      ensures self == this && format == f
    {
      format := f;
      self := this;
    }
  }

  class LogStreamDefaults {
    const base: StreamDefaultsBase

    constructor (fileDefault: ClientValue, ntripDefault: ClientValue)
      ensures fresh(base) && fresh(base.tcpClientDefaults) && base.tcpClientDefaults.Valid()
      ensures base.enable && base.streamType == FILE
      ensures base.fileClientDefaults == fileDefault && base.ntripClientDefaults == ntripDefault
      ensures base.tcpClientDefaults.host == Tcp.DefaultHost && base.tcpClientDefaults.port == Tcp.DefaultPort
    {
      var b := new StreamDefaultsBase(fileDefault, ntripDefault);
      b.streamType := FILE;
      base := b;
    }
  }

  // ---------------------------------------------------------------------------------------------
  // Seeders. Each writes its record's own entries, then the three client fragments' defaults,
  // and only when forced or when the stream's enable key is absent.

  const InputRoverKeys: set<Key> := {InputRoverEnable, InputRoverType, InputRoverFormat,
    InputRoverCommandsAtStartup, InputRoverCommandsAtShutdown, InputRoverReceiverOption}
  const OutputSolution1Keys: set<Key> := {OutputSolution1Enable, OutputSolution1Type, OutputSolution1Format}
  const LogRoverKeys: set<Key> := {LogRoverEnable, LogRoverType}

  /** The keys of the three client fragments. */
  predicate ClientKey(k: Key) {
    k.FileClient? || k.NtripClient? || k == Tcp.KeyHost || k == Tcp.KeyPort
  }

  /** `r` and `t` agree on every client fragment key. */
  ghost predicate SameClientEntries(r: Store, t: Store) {
    forall k :: ClientKey(k) ==> (k in r <==> k in t) && (k in r ==> r[k] == t[k])
  }

  /** The client fragments' `setDefaultValue` calls that end every seeder, in their order. */
  function WithClientDefaults(s: Store, b: StreamDefaultsBase): (r: Store)
    reads b, b.tcpClientDefaults
    ensures forall k :: k in s ==> k in r
    ensures forall k :: k in r && !ClientKey(k) ==> k in s && r[k] == s[k]
    ensures forall f :: f in b.fileClientDefaults.fields ==> FileClient(f) in r && r[FileClient(f)] == b.fileClientDefaults.fields[f]
    ensures forall f :: f in b.ntripClientDefaults.fields ==> NtripClient(f) in r && r[NtripClient(f)] == b.ntripClientDefaults.fields[f]
    ensures Tcp.KeyHost in r && r[Tcp.KeyHost] == Str(b.tcpClientDefaults.host)
    ensures Tcp.KeyPort in r && r[Tcp.KeyPort] == Str(Decimal(b.tcpClientDefaults.port))
  {
    var withFile := WithFileDefaults(s, b.fileClientDefaults);
    var withNtrip := WithNtripDefaults(withFile, b.ntripClientDefaults);
    Tcp.WithDefaultValue(withNtrip, b.tcpClientDefaults.host, b.tcpClientDefaults.port)
  }

  /**
   * A seeder's effect on the store: when forced, or when `enableKey` is absent, the record's own
   * entries `own` and then the client fragments' defaults; otherwise nothing.
   */
  function Seed(s: Store, force: bool, enableKey: Key, own: Store, b: StreamDefaultsBase): (r: Store)
    reads b, b.tcpClientDefaults
    ensures !force && enableKey in s ==> r == s
  {
    if force || enableKey !in s then WithClientDefaults(s + own, b) else s
  }

  /** Entries outside the client fragments' keys commute with the client defaults. */
  lemma ClientDefaultsCommute(s: Store, own: Store, b: StreamDefaultsBase)
    requires forall k :: k in own ==> !ClientKey(k)
    ensures WithClientDefaults(s + own, b) == WithClientDefaults(s, b) + own
  {
    var s1 := WithFileDefaults(s, b.fileClientDefaults);
    var s2 := WithNtripDefaults(s1, b.ntripClientDefaults);
    FileDefaultsCommute(s, own, b.fileClientDefaults);
    NtripDefaultsCommute(s1, own, b.ntripClientDefaults);
    Tcp.DefaultValueCommutes(s2, own, b.tcpClientDefaults.host, b.tcpClientDefaults.port);
  }

  /** What a seeder that writes: its own entries, the client defaults, and no other change. */
  lemma SeedWrites(s: Store, force: bool, enableKey: Key, own: Store, b: StreamDefaultsBase)
    requires forall k :: k in own ==> !ClientKey(k)
    ensures force || enableKey !in s ==> Seed(s, force, enableKey, own, b) == WithClientDefaults(s, b) + own
  {
    ClientDefaultsCommute(s, own, b);
  }

  /** The entries `setInputStreamDefaultValues` writes for the input stream itself. */
  function InputEntries(d: InputStreamDefaults): (m: Store)
    reads d, d.base
    ensures m.Keys == InputRoverKeys
  {
    map[InputRoverEnable := Bool(d.base.enable),
        InputRoverType := Str(d.base.streamType.Name()),
        InputRoverFormat := Str(d.format.Name()),
        InputRoverCommandsAtStartup := Str(d.commandsAtStartup),
        InputRoverCommandsAtShutdown := Str(d.commandsAtShutdown),
        InputRoverReceiverOption := Str(d.receiverOption)]
  }

  /** The store after `setInputStreamDefaultValues(force, d)`. */
  function SeedInput(s: Store, force: bool, d: InputStreamDefaults): (r: Store)
    reads d, d.base, d.base.tcpClientDefaults
    ensures !force && InputRoverEnable in s ==> r == s
    ensures force || InputRoverEnable !in s ==>
      && r == WithClientDefaults(s, d.base) + InputEntries(d)
      && r[InputRoverEnable] == Bool(d.base.enable)
      && r[InputRoverType] == Str(d.base.streamType.Name())
      && r[InputRoverFormat] == Str(d.format.Name())
      && r[InputRoverCommandsAtStartup] == Str(d.commandsAtStartup)
      && r[InputRoverCommandsAtShutdown] == Str(d.commandsAtShutdown)
      && r[InputRoverReceiverOption] == Str(d.receiverOption)
  {
    SeedWrites(s, force, InputRoverEnable, InputEntries(d), d.base);
    Seed(s, force, InputRoverEnable, InputEntries(d), d.base)
  }

  /** The entries `setOutputStreamDefaultValues` writes for the output stream itself. */
  function OutputEntries(d: OutputStreamDefaults): (m: Store)
    reads d, d.base
    ensures m.Keys == OutputSolution1Keys
  {
    map[OutputSolution1Enable := Bool(d.base.enable),
        OutputSolution1Type := Str(d.base.streamType.Name()),
        OutputSolution1Format := Str(d.format.Name())]
  }

  /** The store after `setOutputStreamDefaultValues(force, d)`. */
  function SeedOutput(s: Store, force: bool, d: OutputStreamDefaults): (r: Store)
    reads d, d.base, d.base.tcpClientDefaults
    ensures !force && OutputSolution1Enable in s ==> r == s
    ensures force || OutputSolution1Enable !in s ==>
      && r == WithClientDefaults(s, d.base) + OutputEntries(d)
      && r[OutputSolution1Enable] == Bool(d.base.enable)
      && r[OutputSolution1Type] == Str(d.base.streamType.Name())
      && r[OutputSolution1Format] == Str(d.format.Name())
  {
    SeedWrites(s, force, OutputSolution1Enable, OutputEntries(d), d.base);
    Seed(s, force, OutputSolution1Enable, OutputEntries(d), d.base)
  }

  /** The entries `setLogStreamDefaultValues` writes for the log stream itself. */
  function LogEntries(d: LogStreamDefaults): (m: Store)
    reads d.base
    ensures m.Keys == LogRoverKeys
  {
    map[LogRoverEnable := Bool(d.base.enable),
        LogRoverType := Str(d.base.streamType.Name())]
  }

  /** The store after `setLogStreamDefaultValues(force, d)`. */
  function SeedLog(s: Store, force: bool, d: LogStreamDefaults): (r: Store)
    reads d.base, d.base.tcpClientDefaults
    ensures !force && LogRoverEnable in s ==> r == s
    ensures force || LogRoverEnable !in s ==>
      && r == WithClientDefaults(s, d.base) + LogEntries(d)
      && r[LogRoverEnable] == Bool(d.base.enable)
      && r[LogRoverType] == Str(d.base.streamType.Name())
  {
    SeedWrites(s, force, LogRoverEnable, LogEntries(d), d.base);
    Seed(s, force, LogRoverEnable, LogEntries(d), d.base)
  }

  /** The client fragments' `setDefaultValue` calls, made on the preferences object. */
  method SetClientDefaultValues(prefs: SharedPreferences, b: StreamDefaultsBase)
    modifies prefs
    ensures prefs.entries == WithClientDefaults(old(prefs.entries), b)
  {
    FileSetDefaultValue(prefs, b.fileClientDefaults);
    NtripSetDefaultValue(prefs, b.ntripClientDefaults);
    Tcp.SetDefaultValue(prefs, b.tcpClientDefaults);
  }

  /** The six puts of the input seeder write exactly the input entries. */
  lemma InputPutsWriteEntries(s: Store, d: InputStreamDefaults)
    ensures s[InputRoverEnable := Bool(d.base.enable)]
             [InputRoverType := Str(d.base.streamType.Name())]
             [InputRoverFormat := Str(d.format.Name())]
             [InputRoverCommandsAtStartup := Str(d.commandsAtStartup)]
             [InputRoverCommandsAtShutdown := Str(d.commandsAtShutdown)]
             [InputRoverReceiverOption := Str(d.receiverOption)]
            == s + InputEntries(d)
  {
  }

  method SetInputStreamDefaultValues(prefs: SharedPreferences, force: bool, defaults: InputStreamDefaults)
    modifies prefs
    ensures prefs.entries == SeedInput(old(prefs.entries), force, defaults)
  {
    ghost var s0 := prefs.entries;
    var needUpdate := force || InputRoverEnable !in prefs.entries;
    if needUpdate {
      prefs.PutBoolean(InputRoverEnable, defaults.base.enable);
      prefs.PutString(InputRoverType, defaults.base.streamType.Name());
      prefs.PutString(InputRoverFormat, defaults.format.Name());
      prefs.PutString(InputRoverCommandsAtStartup, defaults.commandsAtStartup);
      prefs.PutString(InputRoverCommandsAtShutdown, defaults.commandsAtShutdown);
      prefs.PutString(InputRoverReceiverOption, defaults.receiverOption);
      InputPutsWriteEntries(s0, defaults);
      SetClientDefaultValues(prefs, defaults.base);
      assert prefs.entries == Seed(s0, force, InputRoverEnable, InputEntries(defaults), defaults.base);
    }
  }

  method SetOutputStreamDefaultValues(prefs: SharedPreferences, force: bool, defaults: OutputStreamDefaults)
    modifies prefs
    ensures prefs.entries == SeedOutput(old(prefs.entries), force, defaults)
  {
    var needUpdate := force || OutputSolution1Enable !in prefs.entries;
    if needUpdate {
      prefs.PutBoolean(OutputSolution1Enable, defaults.base.enable);
      prefs.PutString(OutputSolution1Type, defaults.base.streamType.Name());
      prefs.PutString(OutputSolution1Format, defaults.format.Name());
      assert prefs.entries == old(prefs.entries) + OutputEntries(defaults);
      SetClientDefaultValues(prefs, defaults.base);
    }
  }

  method SetLogStreamDefaultValues(prefs: SharedPreferences, force: bool, defaults: LogStreamDefaults)
    modifies prefs
    ensures prefs.entries == SeedLog(old(prefs.entries), force, defaults)
  {
    var needUpdate := force || LogRoverEnable !in prefs.entries;
    if needUpdate {
      prefs.PutBoolean(LogRoverEnable, defaults.base.enable);
      prefs.PutString(LogRoverType, defaults.base.streamType.Name());
      assert prefs.entries == old(prefs.entries) + LogEntries(defaults);
      SetClientDefaultValues(prefs, defaults.base);
    }
  }

  /** Once a stream is seeded, an unforced seed changes nothing: the first seed's values stay. */
  lemma SeedInputOnce(s: Store, force: bool, d: InputStreamDefaults)
    ensures SeedInput(SeedInput(s, force, d), false, d) == SeedInput(s, force, d)
  {
  }

  lemma SeedOutputOnce(s: Store, force: bool, d: OutputStreamDefaults)
    ensures SeedOutput(SeedOutput(s, force, d), false, d) == SeedOutput(s, force, d)
  {
  }

  lemma SeedLogOnce(s: Store, force: bool, d: LogStreamDefaults)
    ensures SeedLog(SeedLog(s, force, d), false, d) == SeedLog(s, force, d)
  {
  }

  // ---------------------------------------------------------------------------------------------
  // Readers. The stream objects they fill in belong to the engine's settings; here they are
  // values, and a field the reader never sets is `None`.

  datatype InputStream = InputStream(
    streamType: StreamType,
    format: Option<StreamFormat>,
    commandsAtStartup: Option<string>,
    receiverOption: Option<string>,
    path: Option<string>)

  datatype OutputStream<O> = OutputStream(
    solutionOptions: O,
    streamType: StreamType,
    solutionFormat: Option<SolutionFormat>,
    path: Option<string>)

  datatype LogStream = LogStream(streamType: StreamType, path: Option<string>)

  /** `StreamType.valueOf(name)`: null throws NullPointerException, an unknown name IllegalArgumentException. */
  function ParseStreamType(name: Option<string>): (r: Result<StreamType>)
    ensures r.Ok? <==> name.Some? && exists t: StreamType :: t.Name() == name.value
    ensures r.Ok? ==> r.value.Name() == name.value
    ensures name.None? ==> r == Err(NullPointer)
    ensures name.Some? && r.Err? ==> r.error == IllegalArgument
  {
    if name.None? then Err(NullPointer)
    else match StreamTypeValueOf(name.value)
      case Some(t) => Ok(t)
      case None => Err(IllegalArgument)
  }

  /** `StreamFormat.valueOf(name)`. */
  function ParseStreamFormat(name: string): (r: Result<StreamFormat>)
    ensures r.Ok? <==> exists f: StreamFormat :: f.Name() == name
    ensures r.Ok? ==> r.value.Name() == name
    ensures r.Err? ==> r.error == IllegalArgument
  {
    match StreamFormatValueOf(name)
    case Some(f) => Ok(f)
    case None => Err(IllegalArgument)
  }

  /** `SolutionFormat.valueOf(name)`. */
  function ParseSolutionFormat(name: string): (r: Result<SolutionFormat>)
    ensures r.Ok? <==> exists f: SolutionFormat :: f.Name() == name
    ensures r.Ok? ==> r.value.Name() == name
    ensures r.Err? ==> r.error == IllegalArgument
  {
    match SolutionFormatValueOf(name)
    case Some(f) => Ok(f)
    case None => Err(IllegalArgument)
  }

  /** The stream is switched on: its enable key holds `true` (an absent key reads as `false`). */
  predicate Enabled(s: Store, enableKey: Key) {
    enableKey in s && s[enableKey] == Bool(true)
  }

  /** The stream is switched off: its enable key is absent or holds `false`. */
  predicate Disabled(s: Store, enableKey: Key) {
    enableKey !in s || s[enableKey] == Bool(false)
  }

  /**
   * The opening every reader shares: IllegalStateException without a type key, before any other
   * key is looked at; `None` (the stream is NONE) when disabled; otherwise the stored type.
   */
  function ReadStreamHead(s: Store, enableKey: Key, typeKey: Key): (r: Result<Option<StreamType>>)
    ensures typeKey !in s ==> r == Err(IllegalState)
    ensures typeKey in s && Disabled(s, enableKey) ==> r == Ok(None)
    ensures typeKey in s && enableKey in s && s[enableKey].Str? ==> r == Err(ClassCast)
    ensures r.Ok? && r.value.Some? ==>
              Enabled(s, enableKey) && typeKey in s && s[typeKey] == Str(r.value.value.Name())
    ensures typeKey in s && Enabled(s, enableKey) && s[typeKey].Str? ==>
              (r.Ok? <==> StreamTypeValueOf(s[typeKey].s).Some?)
    ensures r.Err? ==> typeKey !in s || r.error in {ClassCast, IllegalArgument}
  {
    if typeKey !in s then Err(IllegalState)
    else
      var enabled :- GetBoolean(s, enableKey, false);
      if !enabled then Ok(None)
      else
        var name :- GetStringOrNull(s, typeKey);
        var t :- ParseStreamType(name);
        Ok(Some(t))
  }

  /** The stream types whose path and summary the dispatch knows. */
  predicate Handled(t: StreamType) {
    t == FILE || t == NTRIPCLI || t == TCPCLI || t == NONE
  }

  /** `readStreamPath`: the fragment of the stream's type reads its path; NONE has the empty path. */
  function ReadStreamPath(t: StreamType, s: Store, f: Foreign): (r: Result<string>)
    ensures t == NONE ==> r == Ok("")
    ensures !Handled(t) ==> r == Err(IllegalArgument)
    ensures t == FILE ==> r == f.fileReadPath(FileView(s))
    ensures t == NTRIPCLI ==> r == f.ntripReadPath(NtripView(s))
    ensures t == TCPCLI ==> r == Tcp.ReadPath(s, f.encodeNtripTcpPath)
  {
    match t
    case FILE => f.fileReadPath(FileView(s))
    case NTRIPCLI => f.ntripReadPath(NtripView(s))
    case TCPCLI => Tcp.ReadPath(s, f.encodeNtripTcpPath)
    case NONE => Ok("")
    case _ => Err(IllegalArgument)
  }

  /** `readStreamSummary`: as `readStreamPath`, with each fragment's summary. */
  function ReadStreamSummary(t: StreamType, s: Store, f: Foreign): (r: Result<string>)
    ensures t == NONE ==> r == Ok("")
    ensures !Handled(t) ==> r == Err(IllegalArgument)
    ensures t == FILE ==> r == f.fileReadSummary(FileView(s))
    ensures t == NTRIPCLI ==> r == f.ntripReadSummary(NtripView(s))
    ensures t == TCPCLI ==> r == Tcp.ReadSummary(s, f.encodeNtripTcpPath)
  {
    match t
    case FILE => f.fileReadSummary(FileView(s))
    case NTRIPCLI => f.ntripReadSummary(NtripView(s))
    case TCPCLI => Tcp.ReadSummary(s, f.encodeNtripTcpPath)
    case NONE => Ok("")
    case _ => Err(IllegalArgument)
  }

  /** `readInputStreamPrefs`. */
  function ReadInputStreamPrefs(s: Store, f: Foreign): (r: Result<InputStream>)
    ensures InputRoverType !in s ==> r == Err(IllegalState)
    ensures InputRoverType in s && Disabled(s, InputRoverEnable) ==> r == Ok(InputStream(NONE, None, None, None, None))
    ensures (InputRoverType in s && Enabled(s, InputRoverEnable) && s[InputRoverType].Str? &&
             StreamTypeValueOf(s[InputRoverType].s).None?) ==> r == Err(IllegalArgument)
    ensures r.Ok? && r.value.format.Some? ==>
              && Enabled(s, InputRoverEnable) && s[InputRoverType] == Str(r.value.streamType.Name())
              && (InputRoverFormat !in s ==> r.value.format == Some(RTCM3))
              && (InputRoverFormat in s ==> s[InputRoverFormat] == Str(r.value.format.value.Name()))
              && (InputRoverCommandsAtStartup in s ==> s[InputRoverCommandsAtStartup].Str?)
              && (InputRoverReceiverOption in s ==> s[InputRoverReceiverOption].Str?)
              && r.value.commandsAtStartup
                   == Some(if InputRoverCommandsAtStartup in s then s[InputRoverCommandsAtStartup].s else "")
              && r.value.receiverOption
                   == Some(if InputRoverReceiverOption in s then s[InputRoverReceiverOption].s else "")
              && r.value.path.Some? && ReadStreamPath(r.value.streamType, s, f) == Ok(r.value.path.value)
    ensures r.Ok? ==> (r.value.format.None? <==> Disabled(s, InputRoverEnable))
  {
    var head :- ReadStreamHead(s, InputRoverEnable, InputRoverType);
    match head
    case None => Ok(InputStream(NONE, None, None, None, None))
    case Some(t) =>
      var formatName :- GetString(s, InputRoverFormat, RTCM3.Name());
      var format :- ParseStreamFormat(formatName);
      var startup :- GetString(s, InputRoverCommandsAtStartup, "");
      var option :- GetString(s, InputRoverReceiverOption, "");
      var path :- ReadStreamPath(t, s, f);
      Ok(InputStream(t, Some(format), Some(startup), Some(option), Some(path)))
  }

  /** `readOutputStreamPrefs`: `base` is the solution options the stream starts with. */
  function ReadOutputStreamPrefs<O>(s: Store, f: Foreign, base: O): (r: Result<OutputStream<O>>)
    ensures OutputSolution1Type !in s ==> r == Err(IllegalState)
    ensures OutputSolution1Type in s && Disabled(s, OutputSolution1Enable) ==> r == Ok(OutputStream(base, NONE, None, None))
    ensures (OutputSolution1Type in s && Enabled(s, OutputSolution1Enable) && s[OutputSolution1Type].Str? &&
             StreamTypeValueOf(s[OutputSolution1Type].s).None?) ==> r == Err(IllegalArgument)
    ensures r.Ok? ==> r.value.solutionOptions == base
    ensures r.Ok? && r.value.solutionFormat.Some? ==>
              && Enabled(s, OutputSolution1Enable) && s[OutputSolution1Type] == Str(r.value.streamType.Name())
              && (OutputSolution1Format !in s ==> r.value.solutionFormat == Some(NMEA))
              && (OutputSolution1Format in s ==> s[OutputSolution1Format] == Str(r.value.solutionFormat.value.Name()))
              && r.value.path.Some? && ReadStreamPath(r.value.streamType, s, f) == Ok(r.value.path.value)
    ensures r.Ok? ==> (r.value.solutionFormat.None? <==> Disabled(s, OutputSolution1Enable))
  {
    var head :- ReadStreamHead(s, OutputSolution1Enable, OutputSolution1Type);
    match head
    case None => Ok(OutputStream(base, NONE, None, None))
    case Some(t) =>
      var formatName :- GetString(s, OutputSolution1Format, NMEA.Name());
      var format :- ParseSolutionFormat(formatName);
      var path :- ReadStreamPath(t, s, f);
      Ok(OutputStream(base, t, Some(format), Some(path)))
  }

  /** `readLogStreamPrefs`. */
  function ReadLogStreamPrefs(s: Store, f: Foreign): (r: Result<LogStream>)
    ensures LogRoverType !in s ==> r == Err(IllegalState)
    ensures LogRoverType in s && Disabled(s, LogRoverEnable) ==> r == Ok(LogStream(NONE, None))
    ensures (LogRoverType in s && Enabled(s, LogRoverEnable) && s[LogRoverType].Str? &&
             StreamTypeValueOf(s[LogRoverType].s).None?) ==> r == Err(IllegalArgument)
    ensures r.Ok? && r.value.path.Some? ==>
              && Enabled(s, LogRoverEnable) && s[LogRoverType] == Str(r.value.streamType.Name())
              && ReadStreamPath(r.value.streamType, s, f) == Ok(r.value.path.value)
    ensures r.Ok? ==> (r.value.path.None? <==> Disabled(s, LogRoverEnable))
  {
    var head :- ReadStreamHead(s, LogRoverEnable, LogRoverType);
    match head
    case None => Ok(LogStream(NONE, None))
    case Some(t) =>
      var path :- ReadStreamPath(t, s, f);
      Ok(LogStream(t, Some(path)))
  }

  /**
   * The summary helpers' common body: the stored type, NONE when the type key is absent (the
   * enable key is not consulted), dispatched to `readStreamSummary`.
   */
  function ReadSummaryOf(s: Store, typeKey: Key, f: Foreign): (r: Result<string>)
    ensures typeKey !in s ==> r == Ok("")
    ensures typeKey in s && s[typeKey].Bool? ==> r == Err(ClassCast)
    ensures typeKey in s && s[typeKey].Str? && StreamTypeValueOf(s[typeKey].s).None? ==> r == Err(IllegalArgument)
    ensures typeKey in s && s[typeKey].Str? && StreamTypeValueOf(s[typeKey].s).Some? ==>
              r == ReadStreamSummary(StreamTypeValueOf(s[typeKey].s).value, s, f)
  {
    var name :- GetString(s, typeKey, NONE.Name());
    var t :- ParseStreamType(Some(name));
    ReadStreamSummary(t, s, f)
  }

  /** `readInputStreamSumary`. */
  function ReadInputStreamSummary(s: Store, f: Foreign): (r: Result<string>)
    ensures InputRoverType !in s ==> r == Ok("")
    ensures r == ReadSummaryOf(s, InputRoverType, f)
  {
    ReadSummaryOf(s, InputRoverType, f)
  }

  /** `readOutputStreamSumary`. */
  function ReadOutputStreamSummary(s: Store, f: Foreign): (r: Result<string>)
    ensures OutputSolution1Type !in s ==> r == Ok("")
    ensures r == ReadSummaryOf(s, OutputSolution1Type, f)
  {
    ReadSummaryOf(s, OutputSolution1Type, f)
  }

  /** `readLogStreamSumary`. */
  function ReadLogStreamSummary(s: Store, f: Foreign): (r: Result<string>)
    ensures LogRoverType !in s ==> r == Ok("")
    ensures r == ReadSummaryOf(s, LogRoverType, f)
  {
    ReadSummaryOf(s, LogRoverType, f)
  }

  // ---------------------------------------------------------------------------------------------
  // Seeding, then reading.

  /**
   * Reading an enabled input stream whose type key holds a type, and whose format, startup
   * commands and receiver option keys hold a format and two strings or are absent (RTCM3, "", "").
   */
  lemma ReadInputEnabled(s: Store, f: Foreign, t: StreamType, format: StreamFormat, startup: string, option: string)
    requires InputRoverEnable in s && s[InputRoverEnable] == Bool(true)
    requires InputRoverType in s && s[InputRoverType] == Str(t.Name())
    requires InputRoverFormat in s ==> s[InputRoverFormat] == Str(format.Name())
    requires InputRoverFormat !in s ==> format == RTCM3
    requires InputRoverCommandsAtStartup in s ==> s[InputRoverCommandsAtStartup] == Str(startup)
    requires InputRoverCommandsAtStartup !in s ==> startup == ""
    requires InputRoverReceiverOption in s ==> s[InputRoverReceiverOption] == Str(option)
    requires InputRoverReceiverOption !in s ==> option == ""
    ensures var path := ReadStreamPath(t, s, f);
      ReadInputStreamPrefs(s, f)
        == if path.Ok? then Ok(InputStream(t, Some(format), Some(startup), Some(option), Some(path.value)))
           else Err(path.error)
  {
    assert ReadStreamHead(s, InputRoverEnable, InputRoverType) == Ok(Some(t));
    assert ParseStreamFormat(format.Name()) == Ok(format);
  }

  /**
   * Reading an enabled output stream whose type key holds a type and whose format key holds a
   * solution format or is absent (NMEA).
   */
  lemma ReadOutputEnabled<O>(s: Store, f: Foreign, base: O, t: StreamType, format: SolutionFormat)
    requires OutputSolution1Enable in s && s[OutputSolution1Enable] == Bool(true)
    requires OutputSolution1Type in s && s[OutputSolution1Type] == Str(t.Name())
    requires OutputSolution1Format in s ==> s[OutputSolution1Format] == Str(format.Name())
    requires OutputSolution1Format !in s ==> format == NMEA
    ensures var path := ReadStreamPath(t, s, f);
      ReadOutputStreamPrefs(s, f, base)
        == if path.Ok? then Ok(OutputStream(base, t, Some(format), Some(path.value))) else Err(path.error)
  {
    assert ReadStreamHead(s, OutputSolution1Enable, OutputSolution1Type) == Ok(Some(t));
    assert ParseSolutionFormat(format.Name()) == Ok(format);
  }

  /** Reading an enabled log stream whose type key holds a type. */
  lemma ReadLogEnabled(s: Store, f: Foreign, t: StreamType)
    requires LogRoverEnable in s && s[LogRoverEnable] == Bool(true)
    requires LogRoverType in s && s[LogRoverType] == Str(t.Name())
    ensures var path := ReadStreamPath(t, s, f);
      ReadLogStreamPrefs(s, f) == if path.Ok? then Ok(LogStream(t, Some(path.value))) else Err(path.error)
  {
    assert ReadStreamHead(s, LogRoverEnable, LogRoverType) == Ok(Some(t));
  }

  /** A disabled input record seeds a stream that reads as NONE, with nothing else set. */
  lemma SeedThenReadInputDisabled(s: Store, force: bool, d: InputStreamDefaults, f: Foreign)
    requires !d.base.enable
    requires force || InputRoverEnable !in s
    ensures ReadInputStreamPrefs(SeedInput(s, force, d), f) == Ok(InputStream(NONE, None, None, None, None))
  {
    var seeded := SeedInput(s, force, d);
    assert InputRoverType in seeded && seeded[InputRoverEnable] == Bool(false);
  }

  /**
   * Seed-then-read for the input stream: a seed that writes (forced, or the first one) of an
   * enabled record reads back as the
   * seeded type, format, startup commands and receiver option, with the path of the seeded type;
   * reading fails exactly when reading that path fails.
   */
  lemma SeedThenReadInput(s: Store, force: bool, d: InputStreamDefaults, f: Foreign)
    requires d.base.enable
    requires force || InputRoverEnable !in s
    ensures var seeded := SeedInput(s, force, d);
      var r := ReadInputStreamPrefs(seeded, f);
      var path := ReadStreamPath(d.base.streamType, seeded, f);
      && (path.Ok? ==>
            r == Ok(InputStream(d.base.streamType, Some(d.format), Some(d.commandsAtStartup),
                                Some(d.receiverOption), Some(path.value))))
      && (path.Err? ==> r == Err(path.error))
  {
    var seeded := SeedInput(s, force, d);
    ReadInputEnabled(seeded, f, d.base.streamType, d.format, d.commandsAtStartup, d.receiverOption);
  }

  /** Seeding an enabled TCP client input record reads back its host and port as the path. */
  lemma SeedThenReadInputTcp(s: Store, force: bool, d: InputStreamDefaults, f: Foreign)
    requires d.base.enable && d.base.streamType == TCPCLI
    requires force || InputRoverEnable !in s
    ensures ReadInputStreamPrefs(SeedInput(s, force, d), f)
              == Ok(InputStream(TCPCLI, Some(d.format), Some(d.commandsAtStartup), Some(d.receiverOption),
                                Some(f.encodeNtripTcpPath(None, None, d.base.tcpClientDefaults.host,
                                                          Decimal(d.base.tcpClientDefaults.port), None, None))))
  {
    var seeded := SeedInput(s, force, d);
    assert seeded[Tcp.KeyHost] == Str(d.base.tcpClientDefaults.host);
    assert seeded[Tcp.KeyPort] == Str(Decimal(d.base.tcpClientDefaults.port));
    SeedThenReadInput(s, force, d, f);
  }

  /** Seeding an enabled input record of a type the dispatch does not know makes the read fail. */
  lemma SeedThenReadInputUnhandled(s: Store, force: bool, d: InputStreamDefaults, f: Foreign)
    requires d.base.enable && !Handled(d.base.streamType)
    requires force || InputRoverEnable !in s
    ensures ReadInputStreamPrefs(SeedInput(s, force, d), f) == Err(IllegalArgument)
  {
    SeedThenReadInput(s, force, d, f);
  }

  /** A disabled output record seeds a stream that reads as NONE, with nothing else set. */
  lemma SeedThenReadOutputDisabled<O>(s: Store, force: bool, d: OutputStreamDefaults, f: Foreign, base: O)
    requires !d.base.enable
    requires force || OutputSolution1Enable !in s
    ensures ReadOutputStreamPrefs(SeedOutput(s, force, d), f, base) == Ok(OutputStream(base, NONE, None, None))
  {
    var seeded := SeedOutput(s, force, d);
    assert OutputSolution1Type in seeded && seeded[OutputSolution1Enable] == Bool(false);
  }

  /**
   * Seed-then-read for the output stream: a seed that writes (forced, or the first one) of an
   * enabled record reads back as the
   * seeded type and solution format with the path of the seeded type.
   */
  lemma SeedThenReadOutput<O>(s: Store, force: bool, d: OutputStreamDefaults, f: Foreign, base: O)
    requires d.base.enable
    requires force || OutputSolution1Enable !in s
    ensures var seeded := SeedOutput(s, force, d);
      var r := ReadOutputStreamPrefs(seeded, f, base);
      var path := ReadStreamPath(d.base.streamType, seeded, f);
      && (path.Ok? ==> r == Ok(OutputStream(base, d.base.streamType, Some(d.format), Some(path.value))))
      && (path.Err? ==> r == Err(path.error))
  {
    var seeded := SeedOutput(s, force, d);
    ReadOutputEnabled(seeded, f, base, d.base.streamType, d.format);
  }

  /** Seeding an enabled TCP client output record reads back its host and port as the path. */
  lemma SeedThenReadOutputTcp<O>(s: Store, force: bool, d: OutputStreamDefaults, f: Foreign, base: O)
    requires d.base.enable && d.base.streamType == TCPCLI
    requires force || OutputSolution1Enable !in s
    ensures ReadOutputStreamPrefs(SeedOutput(s, force, d), f, base)
              == Ok(OutputStream(base, TCPCLI, Some(d.format),
                                 Some(f.encodeNtripTcpPath(None, None, d.base.tcpClientDefaults.host,
                                                           Decimal(d.base.tcpClientDefaults.port), None, None))))
  {
    var seeded := SeedOutput(s, force, d);
    assert seeded[Tcp.KeyHost] == Str(d.base.tcpClientDefaults.host);
    assert seeded[Tcp.KeyPort] == Str(Decimal(d.base.tcpClientDefaults.port));
    SeedThenReadOutput(s, force, d, f, base);
  }

  /** Seeding an enabled output record of a type the dispatch does not know makes the read fail. */
  lemma SeedThenReadOutputUnhandled<O>(s: Store, force: bool, d: OutputStreamDefaults, f: Foreign, base: O)
    requires d.base.enable && !Handled(d.base.streamType)
    requires force || OutputSolution1Enable !in s
    ensures ReadOutputStreamPrefs(SeedOutput(s, force, d), f, base) == Err(IllegalArgument)
  {
    SeedThenReadOutput(s, force, d, f, base);
  }

  /** A disabled log record seeds a stream that reads as NONE, with no path. */
  lemma SeedThenReadLogDisabled(s: Store, force: bool, d: LogStreamDefaults, f: Foreign)
    requires !d.base.enable
    requires force || LogRoverEnable !in s
    ensures ReadLogStreamPrefs(SeedLog(s, force, d), f) == Ok(LogStream(NONE, None))
  {
    var seeded := SeedLog(s, force, d);
    assert LogRoverType in seeded && seeded[LogRoverEnable] == Bool(false);
  }

  /** Seed-then-read for the log stream: a seed that writes reads back as its type with that type's path. */
  lemma SeedThenReadLog(s: Store, force: bool, d: LogStreamDefaults, f: Foreign)
    requires d.base.enable
    requires force || LogRoverEnable !in s
    ensures var seeded := SeedLog(s, force, d);
      var r := ReadLogStreamPrefs(seeded, f);
      var path := ReadStreamPath(d.base.streamType, seeded, f);
      && (path.Ok? ==> r == Ok(LogStream(d.base.streamType, Some(path.value))))
      && (path.Err? ==> r == Err(path.error))
  {
    var seeded := SeedLog(s, force, d);
    ReadLogEnabled(seeded, f, d.base.streamType);
  }

  /** Seeding an enabled TCP client log record reads back its host and port as the path. */
  lemma SeedThenReadLogTcp(s: Store, force: bool, d: LogStreamDefaults, f: Foreign)
    requires d.base.enable && d.base.streamType == TCPCLI
    requires force || LogRoverEnable !in s
    ensures ReadLogStreamPrefs(SeedLog(s, force, d), f)
              == Ok(LogStream(TCPCLI, Some(f.encodeNtripTcpPath(None, None, d.base.tcpClientDefaults.host,
                                                                Decimal(d.base.tcpClientDefaults.port), None, None))))
  {
    var seeded := SeedLog(s, force, d);
    assert seeded[Tcp.KeyHost] == Str(d.base.tcpClientDefaults.host);
    assert seeded[Tcp.KeyPort] == Str(Decimal(d.base.tcpClientDefaults.port));
    SeedThenReadLog(s, force, d, f);
  }

  /** Seeding an enabled log record of a type the dispatch does not know makes the read fail. */
  lemma SeedThenReadLogUnhandled(s: Store, force: bool, d: LogStreamDefaults, f: Foreign)
    requires d.base.enable && !Handled(d.base.streamType)
    requires force || LogRoverEnable !in s
    ensures ReadLogStreamPrefs(SeedLog(s, force, d), f) == Err(IllegalArgument)
  {
    SeedThenReadLog(s, force, d, f);
  }

  // ---------------------------------------------------------------------------------------------
  // What the readers depend on.

  /** Paths and summaries depend on the client fragments' keys only. */
  lemma {:induction false} DispatchFrame(t: StreamType, s1: Store, s2: Store, f: Foreign)
    requires SameClientEntries(s1, s2)
    ensures ReadStreamPath(t, s1, f) == ReadStreamPath(t, s2, f)
    ensures ReadStreamSummary(t, s1, f) == ReadStreamSummary(t, s2, f)
  {
    assert FileView(s1) == FileView(s2);
    assert NtripView(s1) == NtripView(s2);
    assert ClientKey(Tcp.KeyHost) && ClientKey(Tcp.KeyPort);
    Tcp.ReadPathFrame(s1, s2, f.encodeNtripTcpPath);
  }

  /**
   * The input reader never looks at the shutdown commands: two stores that differ at most there
   * read alike, whatever the shutdown commands key holds or whether it is present.
   */
  lemma InputIgnoresShutdownCommands(s1: Store, s2: Store, f: Foreign)
    requires forall k :: k != InputRoverCommandsAtShutdown ==> (k in s1 <==> k in s2)
    requires forall k :: k != InputRoverCommandsAtShutdown && k in s1 ==> s1[k] == s2[k]
    ensures ReadInputStreamPrefs(s1, f) == ReadInputStreamPrefs(s2, f)
  {
    forall k | ClientKey(k)
      ensures (k in s1 <==> k in s2) && (k in s1 ==> s1[k] == s2[k])
    {
      assert k != InputRoverCommandsAtShutdown;
    }
    forall t: StreamType ensures ReadStreamPath(t, s1, f) == ReadStreamPath(t, s2, f) {
      DispatchFrame(t, s1, s2, f);
    }
    assert ReadStreamHead(s1, InputRoverEnable, InputRoverType) == ReadStreamHead(s2, InputRoverEnable, InputRoverType);
    assert GetString(s1, InputRoverFormat, RTCM3.Name()) == GetString(s2, InputRoverFormat, RTCM3.Name());
    assert GetString(s1, InputRoverCommandsAtStartup, "") == GetString(s2, InputRoverCommandsAtStartup, "");
    assert GetString(s1, InputRoverReceiverOption, "") == GetString(s2, InputRoverReceiverOption, "");
  }

  /**
   * A summary depends on its type key and the client fragments' keys only; in particular it does
   * not consult the enable key, so a disabled stream still shows the summary of its stored type.
   */
  lemma SummaryFrame(s1: Store, s2: Store, typeKey: Key, f: Foreign)
    requires typeKey in s1 <==> typeKey in s2
    requires typeKey in s1 ==> s1[typeKey] == s2[typeKey]
    requires SameClientEntries(s1, s2)
    ensures ReadSummaryOf(s1, typeKey, f) == ReadSummaryOf(s2, typeKey, f)
  {
    forall t: StreamType ensures ReadStreamSummary(t, s1, f) == ReadStreamSummary(t, s2, f) {
      DispatchFrame(t, s1, s2, f);
    }
  }

  /**
   * Outside the file and NTRIP types, whose readers are not part of this model, the summary of a
   * type is its path behind the type's tag: "tcp:" for TCPCLI, nothing for NONE; and both fail
   * alike for the types the dispatch does not know.
   */
  lemma SummaryAgreesWithPath(t: StreamType, s: Store, f: Foreign)
    requires t != FILE && t != NTRIPCLI
    ensures var summary, path := ReadStreamSummary(t, s, f), ReadStreamPath(t, s, f);
      && (summary.Ok? <==> path.Ok?)
      && (summary.Err? ==> summary == path)
      && (summary.Ok? ==> summary.value == (if t == TCPCLI then "tcp:" else "") + path.value)
  {
    if t == TCPCLI {
      var summary, path := ReadStreamSummary(t, s, f), ReadStreamPath(t, s, f);
      if summary.Ok? {
        assert summary.value == summary.value[..4] + summary.value[4..];
      }
    }
  }
}
