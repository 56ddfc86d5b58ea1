/**
 * The RTKLIB enumerations the settings layer stores by name: the kind of a stream, the format
 * of an input stream and the format of a solution stream. Each has Java's `name()` as `Name`
 * and Java's `valueOf`, which fails on a string that names no constant, as a partial `ValueOf`.
 */
module Rtklib {
  import opened Wrappers

  datatype StreamType = NONE | SERIAL | FILE | TCPSVR | TCPCLI | NTRIPSVR | NTRIPCLI | FTP | HTTP {
    function Name(): string {
      match this
      case NONE => "NONE"
      case SERIAL => "SERIAL"
      case FILE => "FILE"
      case TCPSVR => "TCPSVR"
      case TCPCLI => "TCPCLI"
      case NTRIPSVR => "NTRIPSVR"
      case NTRIPCLI => "NTRIPCLI"
      case FTP => "FTP"
      case HTTP => "HTTP"
    }
  }

  /** `StreamType.valueOf`: the constant whose name is `s`, if there is one. */
  function StreamTypeValueOf(s: string): (r: Option<StreamType>)
    ensures r.Some? ==> r.value.Name() == s
    ensures forall t: StreamType :: t.Name() == s ==> r == Some(t)
  {
    if s == "NONE" then Some(NONE)
    else if s == "SERIAL" then Some(SERIAL)
    else if s == "FILE" then Some(FILE)
    else if s == "TCPSVR" then Some(TCPSVR)
    else if s == "TCPCLI" then Some(TCPCLI)
    else if s == "NTRIPSVR" then Some(NTRIPSVR)
    else if s == "NTRIPCLI" then Some(NTRIPCLI)
    else if s == "FTP" then Some(FTP)
    else if s == "HTTP" then Some(HTTP)
    else None
  }

  /** `name()` and `valueOf` are inverse: every constant's name maps back to it, so names are distinct. */
  lemma StreamTypeNameInverse(t: StreamType, u: StreamType)
    ensures StreamTypeValueOf(t.Name()) == Some(t)
    ensures t.Name() == u.Name() ==> t == u
  {
  }

  datatype StreamFormat = RTCM2 | RTCM3 | OEM4 | OEM3 | UBX | SS2 | CRES | STQ | GW10 | JAVAD | NVS | BINEX {
    function Name(): string {
      match this
      case RTCM2 => "RTCM2"
      case RTCM3 => "RTCM3"
      case OEM4 => "OEM4"
      case OEM3 => "OEM3"
      case UBX => "UBX"
      case SS2 => "SS2"
      case CRES => "CRES"
      case STQ => "STQ"
      case GW10 => "GW10"
      case JAVAD => "JAVAD"
      case NVS => "NVS"
      case BINEX => "BINEX"
    }
  }

  /** `StreamFormat.valueOf`. */
  function StreamFormatValueOf(s: string): (r: Option<StreamFormat>)
    ensures r.Some? ==> r.value.Name() == s
    ensures forall f: StreamFormat :: f.Name() == s ==> r == Some(f)
  {
    if s == "RTCM2" then Some(RTCM2)
    else if s == "RTCM3" then Some(RTCM3)
    else if s == "OEM4" then Some(OEM4)
    else if s == "OEM3" then Some(OEM3)
    else if s == "UBX" then Some(UBX)
    else if s == "SS2" then Some(SS2)
    else if s == "CRES" then Some(CRES)
    else if s == "STQ" then Some(STQ)
    else if s == "GW10" then Some(GW10)
    else if s == "JAVAD" then Some(JAVAD)
    else if s == "NVS" then Some(NVS)
    else if s == "BINEX" then Some(BINEX)
    else None
  }

  /** `name()` and `valueOf` are inverse on the stream formats. */
  lemma StreamFormatNameInverse(f: StreamFormat, g: StreamFormat)
    ensures StreamFormatValueOf(f.Name()) == Some(f)
    ensures f.Name() == g.Name() ==> f == g
  {
  }

  datatype SolutionFormat = LLH | XYZ | ENU | NMEA | GSIF {
    function Name(): string {
      match this
      case LLH => "LLH"
      case XYZ => "XYZ"
      case ENU => "ENU"
      case NMEA => "NMEA"
      case GSIF => "GSIF"
    }
  }

  /** `SolutionFormat.valueOf`. */
  function SolutionFormatValueOf(s: string): (r: Option<SolutionFormat>)
    ensures r.Some? ==> r.value.Name() == s
    ensures forall f: SolutionFormat :: f.Name() == s ==> r == Some(f)
  {
    if s == "LLH" then Some(LLH)
    else if s == "XYZ" then Some(XYZ)
    else if s == "ENU" then Some(ENU)
    else if s == "NMEA" then Some(NMEA)
    else if s == "GSIF" then Some(GSIF)
    else None
  }

  /** `name()` and `valueOf` are inverse on the solution formats. */
  lemma SolutionFormatNameInverse(f: SolutionFormat, g: SolutionFormat)
    ensures SolutionFormatValueOf(f.Name()) == Some(f)
    ensures f.Name() == g.Name() ==> f == g
  {
  }
}
