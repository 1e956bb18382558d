/**
 * The configuration reader of go_keepalived: a line-driven state machine
 * over the whitespace-separated fields of each line of the file.  It counts
 * open braces, remembers which section it is in, and fills the service,
 * real-server, notifier and API records field by field.  Every place where
 * the reader prints a message and exits the process becomes a `CfgError`
 * naming the line; an out-of-range field access, a Go runtime panic, is the
 * `IndexOutOfRange` error.
 */
module CfgParser {
  import opened Wrappers
  import opened AddressShape
  import opened Numbers

  datatype RealServer = RealServer(rip: string, port: string, check: string, meta: string, weight: string)

  datatype Service = Service(
    vip: string, port: string, proto: string, scheduler: string, meta: string,
    quorum: int, timeout: int, hysteresis: int, reals: seq<RealServer>)

  datatype NotifierConfig = NotifierConfig(kind: string, asn: nat, listenLocal: bool, neighbours: seq<string>)

  datatype ApiConfig = ApiConfig(enable: bool, http: bool, password: string)

  /** Everything the reader keeps while it scans: `sections` is the count of open braces. */
  datatype ParseState = ParseState(
    sections: nat,
    inGeneral: bool, inService: bool, inNotifier: bool, inApi: bool,
    srvc: Service, realServer: RealServer, nc: NotifierConfig, api: ApiConfig,
    adapter: string, testing: bool, services: seq<Service>)

  /** What the reader hands on once the file has been read. */
  datatype Config = Config(services: seq<Service>, notifier: NotifierConfig, adapter: string, api: ApiConfig, testing: bool)

  datatype ErrorKind =
    | ServiceSyntax | ServiceNested | ServiceAddress
    | RealSyntax | RealNesting | RealAddress
    | GeneralSyntax | NotifierSyntax | AdapterSyntax | ApiSyntax
    | BraceCount
    | QuorumNotInt | TimeoutNotInt | HysteresisNotInt | AsnNotUint32
    | IndexOutOfRange

  /** The reader stops at the first bad line; `line` counts every line of the file from 1, blank ones included. */
  datatype CfgError = CfgError(line: nat, kind: ErrorKind)

  /** A record as the reader starts it; the defaults of the service package's `Init` are not part of this model. */
  const EmptyService: Service := Service("", "", "", "", "", 0, 0, 0, [])
  const EmptyReal: RealServer := RealServer("", "", "", "", "")
  const EmptyNotifier: NotifierConfig := NotifierConfig("", 0, false, [])
  const EmptyApi: ApiConfig := ApiConfig(false, false, "")

  /** The adapter used when the file names none. */
  const DefaultAdapter: string := "ipvsadm"

  const Start: ParseState := ParseState(0, false, false, false, false, EmptyService, EmptyReal, EmptyNotifier, EmptyApi, DefaultAdapter, false, [])

  /** The address shapes a service's VIP may take: dotted IPv4, bracketed IPv6, or all digits. */
  predicate IsServiceAddress(s: string) { IsV4(s) || IsV6Bracketed(s) || IsNumber(s) }

  /** The address shapes a real server's address may take. */
  predicate IsRealAddress(s: string) { IsV4(s) || IsV6Bracketed(s) }

  /** `strings.Join(parts, " ")` */
  function Join(parts: seq<string>): string
    decreases |parts|
  {
    if parts == [] then ""
    else if |parts| == 1 then parts[0]
    else parts[0] + " " + Join(parts[1..])
  }

  function Fail(line: nat, kind: ErrorKind): Result<ParseState, CfgError>
  {
    Failure(CfgError(line, kind))
  }

  /** A `}` closing a real server block or the notifier or api sub-section (two braces open). */
  function CloseInner(st: ParseState): ParseState
  {
    var st1 := if st.inService then st.(srvc := st.srvc.(reals := st.srvc.reals + [st.realServer]), realServer := EmptyReal) else st;
    st1.(inNotifier := false, inApi := false, sections := 1)
  }

  /** A `}` closing a service or the general section (one brace open); only a valid service is kept. */
  function CloseOuter(st: ParseState, valid: Service -> bool): ParseState
  {
    var st1 :=
      if st.inService then
        st.(services := if valid(st.srvc) then st.services + [st.srvc] else st.services, srvc := EmptyService, inService := false)
      else st;
    st1.(inGeneral := false, sections := 0)
  }

  /** A setting directly inside a service block; the integer settings must parse. */
  function ServiceSetting(s: Service, f: seq<string>, line: nat): (r: Result<Service, CfgError>)
    requires |f| > 1
    ensures r.Success? ==> r.value.vip == s.vip && r.value.reals == s.reals
    ensures r.Failure? ==> r.error.line == line
  {
    var key, arg := f[0], f[1];
    if key == "proto" then Success(s.(proto := arg))
    else if key == "scheduler" then Success(s.(scheduler := arg))
    else if key == "meta" then Success(s.(meta := Join(f[1..])))
    else if key == "quorum" then
      match Atoi(arg)
      case None => Failure(CfgError(line, QuorumNotInt))
      case Some(q) => Success(s.(quorum := q))
    else if key == "timeout" then
      match Atoi(arg)
      case None => Failure(CfgError(line, TimeoutNotInt))
      case Some(t) => Success(s.(timeout := t))
    else if key == "hysteresis" then
      match Atoi(arg)
      case None => Failure(CfgError(line, HysteresisNotInt))
      case Some(h) => Success(s.(hysteresis := h))
    else Success(s)
  }

  /** A setting inside a real server block: the rest of the line, as one text. */
  function RealSetting(rs: RealServer, f: seq<string>): (r: RealServer)
    requires |f| > 1
    ensures r.rip == rs.rip && r.port == rs.port
  {
    var key := f[0];
    if key == "check" then rs.(check := Join(f[1..]))
    else if key == "meta" then rs.(meta := Join(f[1..]))
    else if key == "weight" then rs.(weight := Join(f[1..]))
    else rs
  }

  /** A setting inside the notifier section; the ASN must be a 32-bit unsigned number. */
  function NotifierSetting(nc: NotifierConfig, f: seq<string>, line: nat): (r: Result<NotifierConfig, CfgError>)
    requires |f| > 1
    ensures r.Failure? ==> r.error == CfgError(line, AsnNotUint32)
  {
    var key, arg := f[0], f[1];
    if key == "ASN" then
      match ParseUint32(arg)
      case None => Failure(CfgError(line, AsnNotUint32))
      case Some(a) => Success(nc.(asn := a))
    else if key == "listen" then
      if arg == "enable" then Success(nc.(listenLocal := true)) else Success(nc)
    else if key == "neighbour" then Success(nc.(neighbours := nc.neighbours + [arg]))
    else Success(nc)
  }

  /** A setting inside the api section. */
  function ApiSetting(api: ApiConfig, f: seq<string>): ApiConfig
    requires |f| > 1
  {
    if f[0] == "http" then api.(http := true)
    else if f[0] == "password" then api.(password := f[1])
    else api
  }

  /**
   * A line of two or more fields whose first field opens nothing: a setting
   * of the innermost record being read.  The service's settings win over the
   * notifier's and the api's, as in the source's order of tests.
   */
  function Setting(st: ParseState, f: seq<string>, line: nat): (r: Result<ParseState, CfgError>)
    requires |f| > 1
    ensures r.Failure? ==> r.error.line == line
  {
    if st.inService then
      if st.sections == 1 then
        match ServiceSetting(st.srvc, f, line)
        case Failure(e) => Failure(e)
        case Success(s) => Success(st.(srvc := s))
      else if st.sections == 2 then Success(st.(realServer := RealSetting(st.realServer, f)))
      else Success(st)
    else if st.inNotifier then
      match NotifierSetting(st.nc, f, line)
      case Failure(e) => Failure(e)
      case Success(nc) => Success(st.(nc := nc))
    else if st.inApi then Success(st.(api := ApiSetting(st.api, f)))
    else Success(st)
  }

  /** One non-blank line, given as its fields, read in state `st`. */
  function StepLine(st: ParseState, f: seq<string>, line: nat, valid: Service -> bool): (r: Result<ParseState, CfgError>)
    requires f != []
    ensures r.Failure? ==> r.error.line == line
  {
    var key := f[0];
    if key == "service" then
      if |f| < 4 then Fail(line, ServiceSyntax)
      else if st.sections != 0 then Fail(line, ServiceNested)
      else if !IsServiceAddress(f[1]) then Fail(line, ServiceAddress)
      else if f[3] != "{" then Fail(line, ServiceSyntax)
      else Success(st.(inService := true, sections := st.sections + 1, srvc := st.srvc.(vip := f[1], port := f[2])))
    else if key == "real" && st.inService then
      if |f| < 4 then Fail(line, RealSyntax)
      else if st.sections != 1 then Fail(line, RealNesting)
      else if !IsRealAddress(f[1]) then Fail(line, RealAddress)
      else if f[3] != "{" then Fail(line, RealSyntax)
      else Success(st.(sections := st.sections + 1, realServer := st.realServer.(rip := f[1], port := f[2])))
    else if key == "general" then
      // the header test reads f[1] whenever there are not exactly two fields
      if st.sections != 0 then Fail(line, GeneralSyntax)
      else if |f| == 1 then Fail(line, IndexOutOfRange)
      else if |f| != 2 && f[1] != "{" then Fail(line, GeneralSyntax)
      else Success(st.(inGeneral := true, sections := st.sections + 1))
    else if key == "notifier" then
      // the header test reads f[2] whenever there are not exactly three fields
      if st.sections != 1 then Fail(line, NotifierSyntax)
      else if |f| < 3 then Fail(line, IndexOutOfRange)
      else if |f| != 3 && f[2] != "{" then Fail(line, NotifierSyntax)
      else if !st.inGeneral then Fail(line, NotifierSyntax)
      else Success(st.(nc := st.nc.(kind := f[1]), inNotifier := true, sections := st.sections + 1))
    else if key == "adapter" then
      if st.sections != 1 || |f| != 2 || !st.inGeneral then Fail(line, AdapterSyntax)
      else Success(st.(adapter := f[1]))
    else if key == "api" then
      if st.sections != 1 then Fail(line, ApiSyntax)
      else if |f| == 1 then Fail(line, IndexOutOfRange)
      else if |f| != 2 && f[1] != "{" then Fail(line, ApiSyntax)
      else if !st.inGeneral then Fail(line, ApiSyntax)
      else Success(st.(inApi := true, api := st.api.(enable := true), sections := st.sections + 1))
    else if key == "testing" then Success(st.(testing := true))
    else if key == "}" then
      if st.sections == 2 then Success(CloseInner(st))
      else if st.sections == 1 then Success(CloseOuter(st, valid))
      else Fail(line, BraceCount)
    else if |f| > 1 then Setting(st, f, line)
    else Success(st)
  }

  /** The characters `unicode.IsSpace` accepts. */
  predicate IsSpace(c: char)
  {
    c == ' ' || c == '\t' || c == '\n' || c == '\r' || c == '\U{000B}' || c == '\U{000C}'
    || c == '\U{0085}' || c == '\U{00A0}' || c == '\U{1680}'
    || ('\U{2000}' <= c <= '\U{200A}') || c == '\U{2028}' || c == '\U{2029}'
    || c == '\U{202F}' || c == '\U{205F}' || c == '\U{3000}'
  }

  predicate NoSpace(w: string)
  {
    forall i :: 0 <= i < |w| ==> !IsSpace(w[i])
  }

  /** The longest prefix of `s` without white space. */
  function Word(s: string): (w: string)
    ensures |w| <= |s| && w == s[..|w|] && NoSpace(w)
    ensures |w| < |s| ==> IsSpace(s[|w|])
    ensures s != [] && !IsSpace(s[0]) ==> |w| > 0
    decreases |s|
  {
    if s == [] || IsSpace(s[0]) then [] else [s[0]] + Word(s[1..])
  }

  /** `strings.Fields`: the maximal runs of non-white-space characters, in order. */
  function Fields(s: string): seq<string>
    decreases |s|
  {
    if s == [] then []
    else if IsSpace(s[0]) then Fields(s[1..])
    else var w := Word(s); [w] + Fields(s[|w|..])
  }

  /** One line of text: a blank line changes nothing, any other is split into fields and read. */
  function ReadLine(st: ParseState, text: string, line: nat, valid: Service -> bool): (r: Result<ParseState, CfgError>)
    ensures r.Failure? ==> r.error.line == line && Fields(text) != []
  {
    var f := Fields(text);
    if f == [] then Success(st) else StepLine(st, f, line, valid)
  }

  /** Reads the remaining lines of text from state `st`, the first of them being line number `line`. */
  function ParseFrom(st: ParseState, lines: seq<string>, line: nat, valid: Service -> bool): Result<ParseState, CfgError>
    decreases |lines|
  {
    if lines == [] then Success(st)
    else
      match ReadLine(st, lines[0], line, valid)
      case Failure(e) => Failure(e)
      case Success(st') => ParseFrom(st', lines[1..], line + 1, valid)
  }

  /** What the reader hands on: sections still open at the end of the file are not an error; an unclosed service is dropped, while the notifier and API settings read so far are kept. */
  function Finish(st: ParseState): Config
  {
    Config(st.services, st.nc, st.adapter, st.api, st.testing)
  }

  /** The whole file, read from the start. */
  function Parse(lines: seq<string>, valid: Service -> bool): Result<Config, CfgError>
  {
    match ParseFrom(Start, lines, 1, valid)
    case Failure(e) => Failure(e)
    case Success(st) => Success(Finish(st))
  }

  /**
   * The section structure the reader keeps: at most two braces open; none
   * open means no section; one means a service or the general section; two
   * means a real server inside a service, or the notifier or api section
   * inside the general one.  A service being read has a VIP of a service
   * address shape, a real server being read inside it a real address shape.
   */
  predicate Sections(st: ParseState)
  {
    && st.sections <= 2
    && (st.sections == 0 ==> !st.inGeneral && !st.inService && !st.inNotifier && !st.inApi)
    && (st.sections == 1 ==> st.inGeneral != st.inService && !st.inNotifier && !st.inApi)
    && (st.sections == 2 ==>
          (st.inService && !st.inGeneral && !st.inNotifier && !st.inApi)
          || (st.inGeneral && !st.inService && st.inNotifier != st.inApi))
  }

  predicate GoodReals(reals: seq<RealServer>)
  {
    forall i :: 0 <= i < |reals| ==> IsRealAddress(reals[i].rip)
  }

  /** A kept service is valid, has a VIP of a service address shape, and real servers of a real address shape. */
  predicate GoodService(s: Service, valid: Service -> bool)
  {
    valid(s) && IsServiceAddress(s.vip) && GoodReals(s.reals)
  }

  predicate GoodServices(services: seq<Service>, valid: Service -> bool)
  {
    forall i :: 0 <= i < |services| ==> GoodService(services[i], valid)
  }

  /** The invariant of the reader's state. */
  predicate WellFormed(st: ParseState, valid: Service -> bool)
  {
    && Sections(st)
    && GoodServices(st.services, valid)
    && GoodReals(st.srvc.reals)
    && (st.inService ==> IsServiceAddress(st.srvc.vip))
    && (st.inService && st.sections == 2 ==> IsRealAddress(st.realServer.rip))
  }
}
