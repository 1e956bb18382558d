/**
 * What the configuration reader guarantees: which header lines it accepts
 * and with which error it stops otherwise, how each closing brace files the
 * record it closes, how settings fill the open record, that the section
 * structure stays well formed, and where an error is reported.
 */
module CfgProperties {
  import opened Wrappers
  import opened AddressShape
  import opened Numbers
  import opened CfgParser

  // ---------------------------------------------------------------------
  // Splitting a line into fields and joining the rest of a line back

  /** A field as `strings.Fields` produces it. */
  predicate IsWord(w: string)
  {
    w != [] && NoSpace(w)
  }

  lemma {:induction false} WordOf(w: string, rest: string)
    requires NoSpace(w) && (rest == [] || IsSpace(rest[0]))
    ensures Word(w + rest) == w
    decreases |w|
  {
    if w != [] {
      assert (w + rest)[0] == w[0];
      assert (w + rest)[1..] == w[1..] + rest;
      WordOf(w[1..], rest);
      assert [w[0]] + w[1..] == w;
    }
  }

  /** Every field of a line is a non-empty run without white space. */
  lemma {:induction false} FieldsAreWords(s: string)
    ensures forall i :: 0 <= i < |Fields(s)| ==> IsWord(Fields(s)[i])
    decreases |s|
  {
    if s != [] {
      if IsSpace(s[0]) {
        FieldsAreWords(s[1..]);
      } else {
        FieldsAreWords(s[|Word(s)|..]);
      }
    }
  }

  /** Joining fields with single spaces and splitting again gives the same fields. */
  lemma {:induction false} FieldsJoin(parts: seq<string>)
    requires forall i :: 0 <= i < |parts| ==> IsWord(parts[i])
    ensures Fields(Join(parts)) == parts
    decreases |parts|
  {
    if |parts| == 1 {
      var w := parts[0];
      WordOf(w, []);
      assert w + [] == w;
      assert w[|w|..] == [];
    } else if |parts| > 1 {
      var w, tail := parts[0], Join(parts[1..]);
      WordOf(w, " " + tail);
      assert w + " " + tail == w + (" " + tail);
      assert (w + (" " + tail))[|w|..] == " " + tail;
      assert (" " + tail)[1..] == tail;
      FieldsJoin(parts[1..]);
      assert parts == [w] + parts[1..];
    }
  }

  /** The text a free-form setting keeps splits back into the fields it was made of. */
  lemma FreeTextRoundTrip(s: string)
    requires |Fields(s)| > 1
    ensures Fields(Join(Fields(s)[1..])) == Fields(s)[1..]
  {
    FieldsAreWords(s);
    FieldsJoin(Fields(s)[1..]);
  }

  // ---------------------------------------------------------------------
  // Headers: the lines that open a section

  /** A `service` header is accepted exactly when it has four fields, no section is open, the VIP has an address shape and the fourth field is `{`. */
  lemma ServiceLine(st: ParseState, f: seq<string>, line: nat, valid: Service -> bool)
    requires f != [] && f[0] == "service"
    ensures var r := StepLine(st, f, line, valid);
      && (r.Success? <==> |f| >= 4 && st.sections == 0 && IsServiceAddress(f[1]) && f[3] == "{")
      && (r.Success? ==> r.value == st.(inService := true, sections := 1, srvc := st.srvc.(vip := f[1], port := f[2])))
      && (r.Failure? ==> r.error.line == line)
      && (|f| < 4 ==> r.Failure? && r.error.kind == ServiceSyntax)
      && (|f| >= 4 && st.sections != 0 ==> r.Failure? && r.error.kind == ServiceNested)
      && (|f| >= 4 && st.sections == 0 && !IsServiceAddress(f[1]) ==> r.Failure? && r.error.kind == ServiceAddress)
      && (|f| >= 4 && st.sections == 0 && IsServiceAddress(f[1]) && f[3] != "{" ==> r.Failure? && r.error.kind == ServiceSyntax)
  {
  }

  /** Inside a service, a `real` header is accepted exactly when it has four fields, only the service is open, the address is IPv4 or bracketed IPv6 and the fourth field is `{`. */
  lemma RealLine(st: ParseState, f: seq<string>, line: nat, valid: Service -> bool)
    requires f != [] && f[0] == "real" && st.inService
    ensures var r := StepLine(st, f, line, valid);
      && (r.Success? <==> |f| >= 4 && st.sections == 1 && IsRealAddress(f[1]) && f[3] == "{")
      && (r.Success? ==> r.value == st.(sections := 2, realServer := st.realServer.(rip := f[1], port := f[2])))
      && (r.Failure? ==> r.error.line == line)
      && (|f| < 4 ==> r.Failure? && r.error.kind == RealSyntax)
      && (|f| >= 4 && st.sections != 1 ==> r.Failure? && r.error.kind == RealNesting)
      && (|f| >= 4 && st.sections == 1 && !IsRealAddress(f[1]) ==> r.Failure? && r.error.kind == RealAddress)
      && (|f| >= 4 && st.sections == 1 && IsRealAddress(f[1]) && f[3] != "{" ==> r.Failure? && r.error.kind == RealSyntax)
  {
  }

  /** An all-digits text is a service address but not a real server address. */
  lemma NumberIsServiceOnly(s: string)
    requires IsNumber(s)
    ensures IsServiceAddress(s) && !IsRealAddress(s)
  {
    if IsV4(s) {
      V4Shape(s);
      DottedGroupsDot(s, 3);
      assert false;
    }
  }

  /** Outside a service a `real` line opens nothing and changes nothing. */
  lemma RealIgnoredOutsideService(st: ParseState, f: seq<string>, line: nat, valid: Service -> bool)
    requires f != [] && f[0] == "real" && !st.inService
    ensures StepLine(st, f, line, valid) == Success(st)
  {
  }

  /**
   * A `general` header is accepted when no section is open and it has a
   * second field that is `{` or is the last one; a `general` alone makes
   * the source read a field that is not there.
   */
  lemma GeneralHeader(st: ParseState, f: seq<string>, line: nat, valid: Service -> bool)
    requires f != [] && f[0] == "general"
    ensures var r := StepLine(st, f, line, valid);
      && (r.Success? <==> st.sections == 0 && |f| >= 2 && (|f| == 2 || f[1] == "{"))
      && (r.Success? ==> r.value == st.(inGeneral := true, sections := 1))
      && (r == Failure(CfgError(line, IndexOutOfRange)) <==> st.sections == 0 && |f| == 1)
      && (r.Failure? && r.error.kind != IndexOutOfRange ==> r.error == CfgError(line, GeneralSyntax))
  {
  }

  /** Any second field opens the general section: `general foo` is as good as `general {`. */
  lemma GeneralAcceptsAnyWord(st: ParseState, x: string, line: nat, valid: Service -> bool)
    requires st.sections == 0
    ensures StepLine(st, ["general", x], line, valid).Success?
  {
    GeneralHeader(st, ["general", x], line, valid);
  }

  /**
   * A `notifier` header is accepted when only the general section is open
   * and it has a third field that is `{` or is the last one; with fewer than
   * three fields the source reads a field that is not there.
   */
  lemma NotifierHeader(st: ParseState, f: seq<string>, line: nat, valid: Service -> bool)
    requires f != [] && f[0] == "notifier"
    ensures var r := StepLine(st, f, line, valid);
      && (r.Success? <==> st.sections == 1 && |f| >= 3 && (|f| == 3 || f[2] == "{") && st.inGeneral)
      && (r.Success? ==> r.value == st.(nc := st.nc.(kind := f[1]), inNotifier := true, sections := 2))
      && (r == Failure(CfgError(line, IndexOutOfRange)) <==> st.sections == 1 && |f| < 3)
      && (r.Failure? && r.error.kind != IndexOutOfRange ==> r.error == CfgError(line, NotifierSyntax))
  {
  }

  /** An `adapter` line needs exactly two fields inside the general section, and names the adapter. */
  lemma AdapterLine(st: ParseState, f: seq<string>, line: nat, valid: Service -> bool)
    requires f != [] && f[0] == "adapter"
    ensures var r := StepLine(st, f, line, valid);
      && (r.Success? <==> st.sections == 1 && |f| == 2 && st.inGeneral)
      && (r.Success? ==> r.value == st.(adapter := f[1]))
      && (r.Failure? ==> r.error == CfgError(line, AdapterSyntax))
  {
  }

  /** An `api` header is accepted like a `general` one, but inside the general section; it also enables the API. */
  lemma ApiHeader(st: ParseState, f: seq<string>, line: nat, valid: Service -> bool)
    requires f != [] && f[0] == "api"
    ensures var r := StepLine(st, f, line, valid);
      && (r.Success? <==> st.sections == 1 && |f| >= 2 && (|f| == 2 || f[1] == "{") && st.inGeneral)
      && (r.Success? ==> r.value == st.(inApi := true, api := st.api.(enable := true), sections := 2))
      && (r == Failure(CfgError(line, IndexOutOfRange)) <==> st.sections == 1 && |f| == 1)
      && (r.Failure? && r.error.kind != IndexOutOfRange ==> r.error == CfgError(line, ApiSyntax))
  {
  }

  /** `testing` switches the testing flag on wherever it appears. */
  lemma TestingLine(st: ParseState, f: seq<string>, line: nat, valid: Service -> bool)
    requires f != [] && f[0] == "testing"
    ensures StepLine(st, f, line, valid) == Success(st.(testing := true))
  {
  }

  // ---------------------------------------------------------------------
  // Closing braces

  /** A `}` is an error exactly when no section is open. */
  lemma CloseLine(st: ParseState, f: seq<string>, line: nat, valid: Service -> bool)
    requires f != [] && f[0] == "}" && st.sections <= 2
    ensures var r := StepLine(st, f, line, valid);
      && (r.Failure? <==> st.sections == 0)
      && (r.Failure? ==> r.error == CfgError(line, BraceCount))
      && (r.Success? ==> r.value.sections == st.sections - 1)
  {
  }

  /** Closing a real server block adds the real server to the service and starts a fresh one. */
  lemma CloseReal(st: ParseState, f: seq<string>, line: nat, valid: Service -> bool)
    requires f != [] && f[0] == "}" && st.sections == 2 && st.inService
    ensures var r := StepLine(st, f, line, valid);
      && r.Success?
      && r.value.srvc == st.srvc.(reals := st.srvc.reals + [st.realServer])
      && r.value.realServer == EmptyReal
      && r.value.sections == 1 && r.value.inService
      && r.value.services == st.services
  {
  }

  /** Closing a service keeps it exactly when it is valid, and starts a fresh one. */
  lemma CloseService(st: ParseState, f: seq<string>, line: nat, valid: Service -> bool)
    requires f != [] && f[0] == "}" && st.sections == 1 && st.inService
    ensures var r := StepLine(st, f, line, valid);
      && r.Success?
      && r.value.services == st.services + (if valid(st.srvc) then [st.srvc] else [])
      && r.value.srvc == EmptyService
      && r.value.sections == 0 && !r.value.inService && !r.value.inGeneral
  {
  }

  /** Closing the notifier or api section returns to the general section and keeps what was read. */
  lemma CloseSubsection(st: ParseState, f: seq<string>, line: nat, valid: Service -> bool)
    requires f != [] && f[0] == "}" && st.sections == 2 && !st.inService
    ensures var r := StepLine(st, f, line, valid);
      && r == Success(st.(inNotifier := false, inApi := false, sections := 1))
  {
  }

  // ---------------------------------------------------------------------
  // Settings inside a section

  /** `quorum`, `timeout` and `hysteresis` directly inside a service must be integers. */
  lemma IntegerSetting(st: ParseState, f: seq<string>, line: nat, valid: Service -> bool)
    requires |f| > 1 && st.inService && st.sections == 1
    requires f[0] == "quorum" || f[0] == "timeout" || f[0] == "hysteresis"
    ensures var r := StepLine(st, f, line, valid);
      && (r.Success? <==> Atoi(f[1]).Some?)
      && (r.Failure? ==> r.error == CfgError(line, if f[0] == "quorum" then QuorumNotInt else if f[0] == "timeout" then TimeoutNotInt else HysteresisNotInt))
      && (r.Success? && f[0] == "quorum" ==> r.value == st.(srvc := st.srvc.(quorum := Atoi(f[1]).value)))
      && (r.Success? && f[0] == "timeout" ==> r.value == st.(srvc := st.srvc.(timeout := Atoi(f[1]).value)))
      && (r.Success? && f[0] == "hysteresis" ==> r.value == st.(srvc := st.srvc.(hysteresis := Atoi(f[1]).value)))
  {
  }

  /** A decimal quorum, with or without a minus sign, is taken as its value. */
  lemma QuorumDecimal(st: ParseState, n: int, line: nat, valid: Service -> bool)
    requires st.inService && st.sections == 1 && -(Int64Limit as int) <= n < Int64Limit
    ensures var text := if n < 0 then "-" + Decimal(-n) else Decimal(n);
      StepLine(st, ["quorum", text], line, valid) == Success(st.(srvc := st.srvc.(quorum := n)))
  {
    AtoiDecimal(n);
  }

  /** `proto`, `scheduler` and `meta` directly inside a service set the service's fields; `meta` keeps the rest of the line. */
  lemma ServiceTextSetting(st: ParseState, f: seq<string>, line: nat, valid: Service -> bool)
    requires |f| > 1 && st.inService && st.sections == 1
    ensures f[0] == "proto" ==> StepLine(st, f, line, valid) == Success(st.(srvc := st.srvc.(proto := f[1])))
    ensures f[0] == "scheduler" ==> StepLine(st, f, line, valid) == Success(st.(srvc := st.srvc.(scheduler := f[1])))
    ensures f[0] == "meta" ==> StepLine(st, f, line, valid) == Success(st.(srvc := st.srvc.(meta := Join(f[1..]))))
  {
  }

  /** `check`, `meta` and `weight` inside a real server block keep the rest of the line as the real server's field. */
  lemma RealTextSetting(st: ParseState, s: string, line: nat, valid: Service -> bool)
    requires |Fields(s)| > 1 && st.inService && st.sections == 2
    requires Fields(s)[0] == "check" || Fields(s)[0] == "meta" || Fields(s)[0] == "weight"
    ensures var f := Fields(s);
      var r := StepLine(st, f, line, valid);
      && r.Success?
      && Fields(if f[0] == "check" then r.value.realServer.check else if f[0] == "meta" then r.value.realServer.meta else r.value.realServer.weight) == f[1..]
      && r.value == st.(realServer := if f[0] == "check" then st.realServer.(check := Join(f[1..]))
                                      else if f[0] == "meta" then st.realServer.(meta := Join(f[1..]))
                                      else st.realServer.(weight := Join(f[1..])))
  {
    FreeTextRoundTrip(s);
  }

  /** A service setting inside a real server block, or a real server setting directly inside a service, is ignored, however malformed. */
  lemma MisplacedSettingIgnored(st: ParseState, f: seq<string>, line: nat, valid: Service -> bool)
    requires |f| > 1 && st.inService
    requires (st.sections == 2 && (f[0] == "proto" || f[0] == "scheduler" || f[0] == "quorum" || f[0] == "timeout" || f[0] == "hysteresis"))
          || (st.sections == 1 && (f[0] == "check" || f[0] == "weight"))
    ensures StepLine(st, f, line, valid) == Success(st)
  {
  }

  /** In the notifier section the ASN must be a 32-bit unsigned decimal. */
  lemma AsnLine(st: ParseState, f: seq<string>, line: nat, valid: Service -> bool)
    requires |f| > 1 && f[0] == "ASN" && st.inNotifier && !st.inService
    ensures var r := StepLine(st, f, line, valid);
      && (r.Success? <==> IsNumber(f[1]) && DecimalValue(f[1]) < Uint32Limit)
      && (r.Failure? ==> r.error == CfgError(line, AsnNotUint32))
      && (r.Success? ==> r.value == st.(nc := st.nc.(asn := DecimalValue(f[1]))) && r.value.nc.asn < Uint32Limit)
  {
  }

  /** Every 32-bit ASN written in decimal is accepted as itself. */
  lemma AsnDecimal(st: ParseState, n: nat, line: nat, valid: Service -> bool)
    requires n < Uint32Limit && st.inNotifier && !st.inService
    ensures StepLine(st, ["ASN", Decimal(n)], line, valid) == Success(st.(nc := st.nc.(asn := n)))
  {
    ParseUint32Decimal(n);
  }

  /** `listen enable` switches local listening on; any other `listen` setting changes nothing. */
  lemma ListenLine(st: ParseState, f: seq<string>, line: nat, valid: Service -> bool)
    requires |f| > 1 && f[0] == "listen" && st.inNotifier && !st.inService
    ensures StepLine(st, f, line, valid) == Success(if f[1] == "enable" then st.(nc := st.nc.(listenLocal := true)) else st)
  {
  }

  /** `neighbour X` appends X to the notifier's neighbours. */
  lemma NeighbourLine(st: ParseState, f: seq<string>, line: nat, valid: Service -> bool)
    requires |f| > 1 && f[0] == "neighbour" && st.inNotifier && !st.inService
    ensures StepLine(st, f, line, valid) == Success(st.(nc := st.nc.(neighbours := st.nc.neighbours + [f[1]])))
  {
  }

  lemma NeighbourFirst(st: ParseState, lines: seq<string>, n: string, line: nat, valid: Service -> bool)
    requires lines != [] && Fields(lines[0]) == ["neighbour", n] && st.inNotifier && !st.inService
    ensures ParseFrom(st, lines, line, valid) == ParseFrom(st.(nc := st.nc.(neighbours := st.nc.neighbours + [n])), lines[1..], line + 1, valid)
  {
    NeighbourLine(st, Fields(lines[0]), line, valid);
  }

  /** A `neighbour` line followed by lines that list the rest of `ns` lists all of `ns`. */
  lemma NeighbourThen(st: ParseState, st': ParseState, lines: seq<string>, ns: seq<string>, line: nat, valid: Service -> bool)
    requires lines != [] && |lines| == |ns| && Fields(lines[0]) == ["neighbour", ns[0]] && st.inNotifier && !st.inService
    requires st' == st.(nc := st.nc.(neighbours := st.nc.neighbours + [ns[0]]))
    requires ParseFrom(st', lines[1..], line + 1, valid) == Success(st'.(nc := st'.nc.(neighbours := st'.nc.neighbours + ns[1..])))
    ensures ParseFrom(st, lines, line, valid) == Success(st.(nc := st.nc.(neighbours := st.nc.neighbours + ns)))
  {
    NeighbourFirst(st, lines, ns[0], line, valid);
    assert st'.nc.neighbours + ns[1..] == st.nc.neighbours + ns;
  }

  /** A run of `neighbour` lines lists the neighbours in the order of the file. */
  lemma {:induction false} NeighboursInOrder(st: ParseState, lines: seq<string>, ns: seq<string>, line: nat, valid: Service -> bool)
    requires st.inNotifier && !st.inService && |lines| == |ns|
    requires forall i :: 0 <= i < |lines| ==> Fields(lines[i]) == ["neighbour", ns[i]]
    ensures ParseFrom(st, lines, line, valid) == Success(st.(nc := st.nc.(neighbours := st.nc.neighbours + ns)))
    decreases |lines|
  {
    if lines == [] {
      assert st.nc.neighbours + ns == st.nc.neighbours;
    } else {
      var st' := st.(nc := st.nc.(neighbours := st.nc.neighbours + [ns[0]]));
      NeighboursInOrder(st', lines[1..], ns[1..], line + 1, valid);
      NeighbourThen(st, st', lines, ns, line, valid);
    }
  }

  /** In the api section `http <anything>` enables the HTTP API and `password P` sets the master password. */
  lemma ApiSetting(st: ParseState, f: seq<string>, line: nat, valid: Service -> bool)
    requires |f| > 1 && st.inApi && !st.inService && !st.inNotifier
    ensures f[0] == "http" ==> StepLine(st, f, line, valid) == Success(st.(api := st.api.(http := true)))
    ensures f[0] == "password" ==> StepLine(st, f, line, valid) == Success(st.(api := st.api.(password := f[1])))
  {
  }

  /** A one-field line that opens or closes nothing is ignored: a bare `http` does not enable the HTTP API. */
  lemma SingleWordIgnored(st: ParseState, w: string, line: nat, valid: Service -> bool)
    requires w != "service" && w != "real" && w != "general" && w != "notifier" && w != "adapter" && w != "api" && w != "testing" && w != "}"
    ensures StepLine(st, [w], line, valid) == Success(st)
  {
  }

  // ---------------------------------------------------------------------
  // The section structure

  /** The lines that open a section. */
  predicate Opens(st: ParseState, f: seq<string>)
    requires f != []
  {
    f[0] == "service" || (f[0] == "real" && st.inService) || f[0] == "general" || f[0] == "notifier" || f[0] == "api"
  }

  /** An accepted line opens one section, closes one, or leaves the depth alone. */
  lemma DepthStep(st: ParseState, f: seq<string>, line: nat, valid: Service -> bool)
    requires f != [] && StepLine(st, f, line, valid).Success?
    ensures StepLine(st, f, line, valid).value.sections
      == if Opens(st, f) then st.sections + 1 else if f[0] == "}" then st.sections - 1 else st.sections
  {
    if !Opens(st, f) && f[0] != "}" && |f| > 1 {
      SettingKeepsSections(st, f, line);
    }
  }

  /** A setting fills a field of the open record and leaves the sections, the kept services and the addresses alone. */
  lemma SettingKeepsSections(st: ParseState, f: seq<string>, line: nat)
    requires |f| > 1 && Setting(st, f, line).Success?
    ensures var t := Setting(st, f, line).value;
      && t.sections == st.sections
      && t.inGeneral == st.inGeneral && t.inService == st.inService && t.inNotifier == st.inNotifier && t.inApi == st.inApi
      && t.services == st.services
      && t.srvc.vip == st.srvc.vip && t.srvc.reals == st.srvc.reals && t.realServer.rip == st.realServer.rip
  {
  }

  lemma GoodServicesAppend(services: seq<Service>, s: Service, valid: Service -> bool)
    requires GoodServices(services, valid) && GoodService(s, valid)
    ensures GoodServices(services + [s], valid)
  {
    assert forall i :: 0 <= i < |services| ==> (services + [s])[i] == services[i];
  }

  lemma GoodRealsAppend(reals: seq<RealServer>, r: RealServer)
    requires GoodReals(reals) && IsRealAddress(r.rip)
    ensures GoodReals(reals + [r])
  {
    assert forall i :: 0 <= i < |reals| ==> (reals + [r])[i] == reals[i];
  }

  /** The reader starts from a well-formed state. */
  lemma StartWellFormed(valid: Service -> bool)
    ensures WellFormed(Start, valid)
  {
  }

  /** Every accepted line keeps the state well formed: at most two open braces, sections properly nested, kept services valid and well addressed. */
  lemma StepKeepsWellFormed(st: ParseState, f: seq<string>, line: nat, valid: Service -> bool)
    requires f != [] && WellFormed(st, valid) && StepLine(st, f, line, valid).Success?
    ensures WellFormed(StepLine(st, f, line, valid).value, valid)
  {
    if !Opens(st, f) && f[0] != "}" && f[0] != "adapter" && f[0] != "testing" && |f| > 1 {
      SettingKeepsSections(st, f, line);
    } else if f[0] == "}" {
      if st.sections == 2 && st.inService {
        GoodRealsAppend(st.srvc.reals, st.realServer);
      } else if st.sections == 1 && st.inService && valid(st.srvc) {
        GoodServicesAppend(st.services, st.srvc, valid);
      }
    }
  }

  /** Reading any number of lines keeps the state well formed. */
  lemma {:induction false} ParseKeepsWellFormed(st: ParseState, lines: seq<string>, line: nat, valid: Service -> bool)
    requires WellFormed(st, valid) && ParseFrom(st, lines, line, valid).Success?
    ensures WellFormed(ParseFrom(st, lines, line, valid).value, valid)
    decreases |lines|
  {
    if lines != [] {
      var f := Fields(lines[0]);
      if f != [] {
        StepKeepsWellFormed(st, f, line, valid);
      }
      ParseKeepsWellFormed(ReadLine(st, lines[0], line, valid).value, lines[1..], line + 1, valid);
    }
  }

  /** Every service the reader hands on is valid, has a VIP of an address shape and real servers with IPv4 or bracketed IPv6 addresses. */
  lemma ParsedServicesGood(lines: seq<string>, valid: Service -> bool)
    requires Parse(lines, valid).Success?
    ensures GoodServices(Parse(lines, valid).value.services, valid)
  {
    StartWellFormed(valid);
    ParseKeepsWellFormed(Start, lines, 1, valid);
  }

  // ---------------------------------------------------------------------
  // Reading a file line by line

  /** Reading a piece of a file that is accepted in full, then the rest, is reading the whole. */
  lemma {:induction false} ParseConcat(st: ParseState, a: seq<string>, b: seq<string>, line: nat, valid: Service -> bool)
    requires ParseFrom(st, a, line, valid).Success?
    ensures ParseFrom(st, a + b, line, valid) == ParseFrom(ParseFrom(st, a, line, valid).value, b, line + |a|, valid)
    decreases |a|
  {
    if a == [] {
      assert a + b == b;
    } else {
      var ab := a + b;
      assert ab[0] == a[0] && ab[1..] == a[1..] + b;
      var t := ReadLine(st, a[0], line, valid).value;
      ParseConcat(t, a[1..], b, line + 1, valid);
    }
  }

  /** A piece of a file that is rejected rejects the whole file with the same error. */
  lemma {:induction false} ParseConcatFailure(st: ParseState, a: seq<string>, b: seq<string>, line: nat, valid: Service -> bool)
    requires ParseFrom(st, a, line, valid).Failure?
    ensures ParseFrom(st, a + b, line, valid) == ParseFrom(st, a, line, valid)
    decreases |a|
  {
    var ab := a + b;
    assert ab[0] == a[0] && ab[1..] == a[1..] + b;
    var r := ReadLine(st, a[0], line, valid);
    if r.Success? {
      ParseConcatFailure(r.value, a[1..], b, line + 1, valid);
    }
  }

  /** Blank lines change nothing but the line count. */
  lemma {:induction false} BlankLinesSkipped(st: ParseState, blanks: seq<string>, rest: seq<string>, line: nat, valid: Service -> bool)
    requires forall i :: 0 <= i < |blanks| ==> Fields(blanks[i]) == []
    ensures ParseFrom(st, blanks + rest, line, valid) == ParseFrom(st, rest, line + |blanks|, valid)
    decreases |blanks|
  {
    BlanksParse(st, blanks, line, valid);
    ParseConcat(st, blanks, rest, line, valid);
  }

  lemma {:induction false} BlanksParse(st: ParseState, blanks: seq<string>, line: nat, valid: Service -> bool)
    requires forall i :: 0 <= i < |blanks| ==> Fields(blanks[i]) == []
    ensures ParseFrom(st, blanks, line, valid) == Success(st)
    decreases |blanks|
  {
    if blanks != [] {
      BlanksParse(st, blanks[1..], line + 1, valid);
    }
  }

  /** Reading from line `i` on is reading line `i` and then the lines after it. */
  lemma ReadStep(st: ParseState, lines: seq<string>, i: nat, valid: Service -> bool)
    requires i < |lines|
    ensures ParseFrom(st, lines[i..], i + 1, valid)
      == match ReadLine(st, lines[i], i + 1, valid)
         case Failure(e) => Failure(e)
         case Success(t) => ParseFrom(t, lines[i + 1..], i + 2, valid)
  {
    assert lines[i..][0] == lines[i] && lines[i..][1..] == lines[i + 1..];
  }

  /** A file of one line is read by reading that line. */
  lemma SingleLine(st: ParseState, x: string, line: nat, valid: Service -> bool)
    ensures ParseFrom(st, [x], line, valid) == ReadLine(st, x, line, valid)
  {
    assert [x][1..] == [];
  }

  /**
   * `e` is the error of the line that stops the reading of `lines` from
   * `st`: a non-blank line among them whose predecessors are all accepted,
   * and which is rejected with `e` in the state they leave.
   */
  predicate StopsAt(st: ParseState, lines: seq<string>, line: nat, valid: Service -> bool, e: CfgError)
  {
    && line <= e.line < line + |lines|
    && Fields(lines[e.line - line]) != []
    && ParseFrom(st, lines[..e.line - line], line, valid).Success?
    && ReadLine(ParseFrom(st, lines[..e.line - line], line, valid).value, lines[e.line - line], e.line, valid) == Failure(e)
  }

  lemma StopsAtCons(st: ParseState, st': ParseState, lines: seq<string>, line: nat, valid: Service -> bool, e: CfgError)
    requires lines != [] && ParseFrom(st, [lines[0]], line, valid) == Success(st')
    requires StopsAt(st', lines[1..], line + 1, valid, e)
    ensures StopsAt(st, lines, line, valid, e)
  {
    var k := e.line - line;
    assert lines[..k] == [lines[0]] + lines[1..][..k - 1];
    ParseConcat(st, [lines[0]], lines[1..][..k - 1], line, valid);
  }

  /** The reader stops at the first line it rejects, and reports that line's error. */
  lemma {:induction false} ParseErrorLine(st: ParseState, lines: seq<string>, line: nat, valid: Service -> bool)
    requires ParseFrom(st, lines, line, valid).Failure?
    ensures StopsAt(st, lines, line, valid, ParseFrom(st, lines, line, valid).error)
    decreases |lines|
  {
    var e := ParseFrom(st, lines, line, valid).error;
    var r := ReadLine(st, lines[0], line, valid);
    SingleLine(st, lines[0], line, valid);
    if r.Success? {
      ParseErrorLine(r.value, lines[1..], line + 1, valid);
      StopsAtCons(st, r.value, lines, line, valid, e);
    } else {
      assert lines[..0] == [];
    }
  }

  /** The error of a whole file names one of its non-blank lines, counting from 1. */
  lemma FileErrorLine(lines: seq<string>, valid: Service -> bool)
    requires Parse(lines, valid).Failure?
    ensures 1 <= Parse(lines, valid).error.line <= |lines|
    ensures Fields(lines[Parse(lines, valid).error.line - 1]) != []
  {
    ParseErrorLine(Start, lines, 1, valid);
  }

  // ---------------------------------------------------------------------
  // Whole blocks

  /** A service block with a header and a closing brace files the service exactly when it is valid. */
  lemma ServiceBlock(st: ParseState, header: string, close: string, line: nat, valid: Service -> bool)
    requires st.sections == 0
    requires |Fields(header)| == 4 && Fields(header)[0] == "service" && Fields(header)[3] == "{" && IsServiceAddress(Fields(header)[1])
    requires Fields(close) == ["}"]
    ensures var f := Fields(header);
      var s := st.srvc.(vip := f[1], port := f[2]);
      ParseFrom(st, [header, close], line, valid)
        == Success(st.(services := st.services + (if valid(s) then [s] else []), srvc := EmptyService, inService := false, inGeneral := false))
  {
    var f := Fields(header);
    var st1 := st.(inService := true, sections := 1, srvc := st.srvc.(vip := f[1], port := f[2]));
    ServiceLine(st, f, line, valid);
    assert [header, close][1..] == [close];
    SingleLine(st1, close, line + 1, valid);
    CloseService(st1, ["}"], line + 1, valid);
  }

  /** A real server block inside a service adds that real server, with the header's address and port, to the service. */
  lemma RealBlock(st: ParseState, header: string, close: string, line: nat, valid: Service -> bool)
    requires st.sections == 1 && st.inService && Sections(st)
    requires |Fields(header)| == 4 && Fields(header)[0] == "real" && Fields(header)[3] == "{" && IsRealAddress(Fields(header)[1])
    requires Fields(close) == ["}"]
    ensures var f := Fields(header);
      ParseFrom(st, [header, close], line, valid)
        == Success(st.(srvc := st.srvc.(reals := st.srvc.reals + [st.realServer.(rip := f[1], port := f[2])]), realServer := EmptyReal))
  {
    var f := Fields(header);
    var st1 := st.(sections := 2, realServer := st.realServer.(rip := f[1], port := f[2]));
    RealLine(st, f, line, valid);
    assert [header, close][1..] == [close];
    SingleLine(st1, close, line + 1, valid);
    CloseReal(st1, ["}"], line + 1, valid);
  }
}
