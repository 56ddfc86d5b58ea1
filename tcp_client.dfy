/**
 * The TCP client stream fragment: its `Value` (a host and a port that its setters validate), the
 * write of a value into a preferences store, and the path and summary read back from the store.
 */
module StreamTcpClientFragment {
  import opened Wrappers
  import opened Preferences
  import opened JavaDecimal

  const KeyHost: Key := Literal("stream_tcp_client_host")
  const KeyPort: Key := Literal("stream_tcp_client_port")

  const DefaultHost: string := "localhost"
  const DefaultPort: int := 1020

  /** Java's `int`. */
  newtype int32 = x: int | -0x8000_0000 <= x < 0x8000_0000

  /** The call `encodeNtripTcpPath(user, password, host, port, mountpoint, str)`, null as `None`. */
  type NtripTcpEncoder = (Option<string>, Option<string>, string, string, Option<string>, Option<string>) -> string

  /** The ports `setPort` admits. */
  predicate PortInRange(p: int) {
    1 <= p <= 65535
  }

  /** A TCP endpoint; every method keeps `Valid()`, the port's range. */
  class Value {
    var host: string
    var port: int

    ghost predicate Valid()
      reads this
    {
      PortInRange(port)
    }

    constructor ()
      ensures Valid()
      ensures host == DefaultHost && port == DefaultPort
    {
      host := DefaultHost;
      port := DefaultPort;
    }

    /** `setHost`: a null host throws and changes nothing; otherwise the host is stored as given. */
    method SetHost(h: Option<string>) returns (r: Result<Value>)
      requires Valid()
      modifies this
      ensures Valid()
      ensures h.None? ==> r == Err(NullPointer) && host == old(host)
      ensures h.Some? ==> r == Ok(this) && host == h.value
      ensures port == old(port)
    {
      if h.None? {
        return Err(NullPointer);
      }
      host := h.value;
      r := Ok(this);
    }

    /** `setPort`: a port outside 1..65535 throws and changes nothing; otherwise it is stored. */
    method SetPort(p: int32) returns (r: Result<Value>)
      requires Valid()
      modifies this
      ensures Valid()
      ensures PortInRange(p as int) ==> r == Ok(this) && port == p as int
      ensures !PortInRange(p as int) ==> r == Err(IllegalArgument) && port == old(port)
      ensures host == old(host)
    {
      if p <= 0 || p > 65535 {
        return Err(IllegalArgument);
      }
      port := p as int;
      r := Ok(this);
    }
  }

  /** The store after `setDefaultValue`: the host and the decimal port, and nothing else changed. */
  function WithDefaultValue(s: Store, host: string, port: int): (r: Store)
    ensures r.Keys == s.Keys + {KeyHost, KeyPort}
    ensures r[KeyHost] == Str(host) && r[KeyPort] == Str(Decimal(port))
    ensures forall k :: k in s && k != KeyHost && k != KeyPort ==> r[k] == s[k]
  {
    s[KeyHost := Str(host)][KeyPort := Str(Decimal(port))]
  }

  /** Entries under other keys commute with `setDefaultValue`. */
  lemma DefaultValueCommutes(s: Store, own: Store, host: string, port: int)
    requires KeyHost !in own && KeyPort !in own
    ensures WithDefaultValue(s + own, host, port) == WithDefaultValue(s, host, port) + own
  {
  }

  method SetDefaultValue(prefs: SharedPreferences, value: Value)
    modifies prefs
    ensures prefs.entries == WithDefaultValue(old(prefs.entries), value.host, value.port)
  {
    prefs.PutString(KeyHost, value.host);
    prefs.PutString(KeyPort, Decimal(value.port));
  }

  /**
   * `readPath`: the encoder applied to the stored host and port ("" when absent) and null for
   * every other argument; a stored boolean under either key does not cast.
   */
  function ReadPath(s: Store, encode: NtripTcpEncoder): (r: Result<string>)
    ensures r.Ok? <==> (KeyHost !in s || s[KeyHost].Str?) && (KeyPort !in s || s[KeyPort].Str?)
    ensures r.Ok? ==> r.value == encode(None, None, if KeyHost in s then s[KeyHost].s else "",
                                        if KeyPort in s then s[KeyPort].s else "", None, None)
  {
    var host :- GetString(s, KeyHost, "");
    var port :- GetString(s, KeyPort, "");
    Ok(encode(None, None, host, port, None, None))
  }

  /** `readSummary`: the path behind the "tcp:" tag. */
  function ReadSummary(s: Store, encode: NtripTcpEncoder): (r: Result<string>)
    ensures r.Ok? <==> ReadPath(s, encode).Ok?
    ensures r.Ok? ==> |r.value| >= 4 && r.value[..4] == "tcp:" && r.value[4..] == ReadPath(s, encode).value
  {
    var path :- ReadPath(s, encode);
    Ok("tcp:" + path)
  }

  /** What `setDefaultValue` writes, `readPath` reads back: exactly the value's host and port. */
  lemma ReadPathAfterSetDefault(s: Store, host: string, port: int, encode: NtripTcpEncoder)
    ensures ReadPath(WithDefaultValue(s, host, port), encode)
              == Ok(encode(None, None, host, Decimal(port), None, None))
  {
  }

  /**
   * The port string `setDefaultValue` writes for a valid value parses back to that port, which is
   * in 1..65535: the invariant of `Value` survives the trip through the store.
   */
  lemma StoredPortInRange(s: Store, v: Value)
    requires v.Valid()
    ensures var stored := WithDefaultValue(s, v.host, v.port)[KeyPort];
      && stored.Str? && AllDigits(stored.s)
      && DecimalValue(stored.s) == v.port && PortInRange(DecimalValue(stored.s))
  {
    DecimalRoundTrip(v.port);
  }

  /** The path depends on the host and port keys only. */
  lemma ReadPathFrame(s: Store, t: Store, encode: NtripTcpEncoder)
    requires KeyHost in s <==> KeyHost in t
    requires KeyPort in s <==> KeyPort in t
    requires KeyHost in s ==> s[KeyHost] == t[KeyHost]
    requires KeyPort in s ==> s[KeyPort] == t[KeyPort]
    ensures ReadPath(s, encode) == ReadPath(t, encode)
    ensures ReadSummary(s, encode) == ReadSummary(t, encode)
  {
  }
}
