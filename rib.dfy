/**
 * The BGP speaker's routing table as the notifier's commands shape it.  The
 * speaker treats an Add of a present route and a Withdraw of an absent one as
 * no-ops, so its table is a set of host routes.  The notifier never reads
 * that table back: it is kept equal to the routes of the advertised VIPs only
 * by sending the right commands on every event, and this module states when
 * it is.
 */
module Rib {
  import opened Wrappers
  import opened NotifierMessages
  import opened NotifierSpec

  /** What one command does to the speaker's table; neighbour commands leave it alone. */
  function Apply(rib: set<Route>, c: Command): set<Route>
  {
    match CommandRoute(c)
    case Some((Add, r)) => rib + {r}
    case Some((Withdraw, r)) => rib - {r}
    case None => rib
  }

  /** The speaker's table after a sequence of commands, applied in order. */
  function ApplyAll(rib: set<Route>, cs: seq<Command>): set<Route>
    decreases |cs|
  {
    if cs == [] then rib else ApplyAll(Apply(rib, cs[0]), cs[1..])
  }

  /** The host routes of a set of VIPs; a VIP of neither address shape contributes none. */
  function RoutesOf(vips: set<string>): set<Route>
  {
    set v | v in vips && RouteOf(v).Some? :: RouteOf(v).value
  }

  /** The VIPs that are effectively advertised. */
  function AdvertisedVips(s: State): set<string>
  {
    set v | v in s.table && IsAdvertised(s, v)
  }

  /** The routes the speaker should hold: those of the advertised VIPs. */
  function Advertised(s: State): set<Route>
  {
    RoutesOf(AdvertisedVips(s))
  }

  /** The target invariant: the speaker holds exactly the routes of the advertised VIPs. */
  predicate Consistent(s: State, rib: set<Route>)
  {
    rib == Advertised(s)
  }

  /** The routes named by a sequence of route commands. */
  function RoutesIn(cs: seq<Command>): set<Route>
  {
    set c | c in cs && CommandRoute(c).Some? :: CommandRoute(c).value.1
  }

  /** Every command of the sequence is a route command with the given action. */
  predicate AllRouteCommands(a: Action, cs: seq<Command>)
  {
    forall c :: c in cs ==> CommandRoute(c).Some? && CommandRoute(c).value.0 == a
  }

  /** What a route event sends is the commands of its emitted VIPs, all with the event's action. */
  lemma EmittedIsRouteCommands(s: State, e: Event)
    requires !IsPeerEvent(e)
    ensures Emitted(s, e) == RouteCommands(EventAction(e), EmittedVips(s, e))
  {
  }

  lemma {:induction false} ApplyAllConcat(rib: set<Route>, a: seq<Command>, b: seq<Command>)
    ensures ApplyAll(rib, a + b) == ApplyAll(ApplyAll(rib, a), b)
    decreases |a|
  {
    if a == [] {
      assert a + b == b;
    } else {
      assert (a + b)[0] == a[0] && (a + b)[1..] == a[1..] + b;
      ApplyAllConcat(Apply(rib, a[0]), a[1..], b);
    }
  }

  /**
   * Route commands of one action, in any order and with any repetition,
   * add or remove exactly the routes they name: the order of a Go map walk
   * does not matter to the speaker.
   */
  lemma {:induction false} ApplyAllUniform(rib: set<Route>, a: Action, cs: seq<Command>)
    requires AllRouteCommands(a, cs)
    ensures ApplyAll(rib, cs) == if a == Add then rib + RoutesIn(cs) else rib - RoutesIn(cs)
    decreases |cs|
  {
    if cs != [] {
      var rest := cs[1..];
      assert forall c :: c in rest ==> c in cs;
      ApplyAllUniform(Apply(rib, cs[0]), a, rest);
      assert RoutesIn(cs) == {CommandRoute(cs[0]).value.1} + RoutesIn(rest) by {
        assert forall c :: c in cs <==> c == cs[0] || c in rest;
      }
    }
  }

  /** A sending order of the route commands of some VIPs names exactly the routes of those VIPs. */
  lemma SentRoutes(a: Action, vips: set<string>, cs: seq<Command>)
    requires multiset(cs) == multiset(RouteCommands(a, vips))
    ensures AllRouteCommands(a, cs)
    ensures RoutesIn(cs) == RoutesOf(vips)
  {
    assert forall c :: c in cs <==> c in RouteCommands(a, vips) by {
      forall c ensures c in cs <==> c in RouteCommands(a, vips) {
        assert c in cs <==> c in multiset(cs);
      }
    }
    forall c | c in cs ensures CommandRoute(c).Some? && CommandRoute(c).value.0 == a {
      var v :| v in vips && RouteOf(v).Some? && c == RouteCommand(a, RouteOf(v).value);
      RouteCommandRoundTrip(a, RouteOf(v).value);
    }
    forall r | r in RoutesOf(vips) ensures r in RoutesIn(cs) {
      var v :| v in vips && RouteOf(v).Some? && r == RouteOf(v).value;
      RouteCommandRoundTrip(a, r);
      assert RouteCommand(a, r) in cs;
    }
    forall r | r in RoutesIn(cs) ensures r in RoutesOf(vips) {
      var c :| c in cs && CommandRoute(c).Some? && r == CommandRoute(c).value.1;
      var v :| v in vips && RouteOf(v).Some? && c == RouteCommand(a, RouteOf(v).value);
      RouteCommandRoundTrip(a, RouteOf(v).value);
    }
  }

  /** What a route event's sending order does to the speaker's table. */
  lemma ApplySent(rib: set<Route>, s: State, e: Event, cs: seq<Command>)
    requires !IsPeerEvent(e) && SendsFor(s, e, cs)
    ensures ApplyAll(rib, cs) == if EventAction(e) == Add then rib + RoutesOf(EmittedVips(s, e)) else rib - RoutesOf(EmittedVips(s, e))
  {
    EmittedIsRouteCommands(s, e);
    SentRoutes(EventAction(e), EmittedVips(s, e), cs);
    ApplyAllUniform(rib, EventAction(e), cs);
  }

  /** A peer event's one neighbour command leaves the speaker's table alone. */
  lemma ApplyPeer(rib: set<Route>, s: State, e: Event, cs: seq<Command>)
    requires IsPeerEvent(e) && SendsFor(s, e, cs)
    ensures ApplyAll(rib, cs) == rib
  {
    var c := if e.AddPeer? then NeighbourCommand(Add, e.peer) else NeighbourCommand(Withdraw, e.peer);
    assert multiset(cs) == multiset{c};
    assert |cs| == 1 && cs[0] == c by {
      assert |multiset(cs)| == 1;
      assert cs[0] in multiset(cs);
    }
    assert cs[1..] == [];
  }

  /** Since a route names one VIP only, removing VIPs removes exactly their routes. */
  lemma RoutesOfMinus(a: set<string>, b: set<string>)
    ensures RoutesOf(a - b) == RoutesOf(a) - RoutesOf(b)
  {
    forall r | r in RoutesOf(a) && r !in RoutesOf(a - b) ensures r in RoutesOf(b) {
      var v :| v in a && RouteOf(v).Some? && r == RouteOf(v).value;
      assert v in b;
    }
    forall r | r in RoutesOf(a - b) ensures r !in RoutesOf(b) {
      var v :| v in a - b && RouteOf(v).Some? && r == RouteOf(v).value;
      if r in RoutesOf(b) {
        var w :| w in b && RouteOf(w).Some? && r == RouteOf(w).value;
        RouteOfInjective(v, w);
      }
    }
  }

  lemma RoutesOfPlus(a: set<string>, b: set<string>)
    ensures RoutesOf(a + b) == RoutesOf(a) + RoutesOf(b)
  {
  }

  /** A step the target invariant survives: no refcount wrap-around, and no StartAllNotification while a live VIP is silenced. */
  predicate SafeStep(s: State, e: Event)
  {
    && (e.AdvertiseService? ==> Count(s, e.vip) + 1 < RefcountLimit)
    && (e.StartAllNotification? ==> forall v :: v in Live(s) && RouteOf(v).Some? ==> v !in s.silenced)
  }

  /**
   * Every event except StartAllNotification moves the advertised VIPs by
   * exactly the VIPs whose commands it sends: an announcing event adds them,
   * a withdrawing event removes them.
   */
  lemma AdvertisedStep(s: State, e: Event)
    requires !IsPeerEvent(e) && !e.StartAllNotification?
    requires e.AdvertiseService? ==> Count(s, e.vip) + 1 < RefcountLimit
    ensures AdvertisedVips(Next(s, e))
      == if EventAction(e) == Add then AdvertisedVips(s) + EmittedVips(s, e) else AdvertisedVips(s) - EmittedVips(s, e)
  {
    var t := Next(s, e);
    match e
    case AdvertiseService(v) =>
      assert forall u :: u in AdvertisedVips(t) <==> u in AdvertisedVips(s) + EmittedVips(s, e);
    case WithdrawService(v) =>
      assert forall u :: u in AdvertisedVips(t) <==> u in AdvertisedVips(s) - EmittedVips(s, e);
    case StopNotification(v) =>
      assert forall u :: u in AdvertisedVips(t) <==> u in AdvertisedVips(s) - EmittedVips(s, e);
    case StartNotification(v) =>
      assert forall u :: u in AdvertisedVips(t) <==> u in AdvertisedVips(s) + EmittedVips(s, e);
    case StopAllNotification =>
      assert AdvertisedVips(t) == {};
      assert AdvertisedVips(s) <= UnsilencedLive(s);
  }

  /**
   * The target invariant survives every safe step: whatever order the
   * commands are sent in, the speaker ends up holding exactly the routes of
   * the VIPs advertised after the event.
   */
  lemma StepKeepsConsistent(s: State, e: Event, rib: set<Route>, cs: seq<Command>)
    requires Consistent(s, rib) && SendsFor(s, e, cs) && SafeStep(s, e)
    ensures Consistent(Next(s, e), ApplyAll(rib, cs))
  {
    if IsPeerEvent(e) {
      ApplyPeer(rib, s, e, cs);
      assert AdvertisedVips(Next(s, e)) == AdvertisedVips(s);
    } else if e.StartAllNotification? {
      StartAllConsistency(s, rib, cs);
    } else {
      ApplySent(rib, s, e, cs);
      AdvertisedStep(s, e);
      if EventAction(e) == Add {
        RoutesOfPlus(AdvertisedVips(s), EmittedVips(s, e));
      } else {
        RoutesOfMinus(AdvertisedVips(s), EmittedVips(s, e));
      }
    }
  }

  /**
   * StartAllNotification keeps the target invariant exactly when no live VIP
   * with a route is individually silenced: it re-announces such a VIP, which
   * the silence says must stay withdrawn.
   */
  lemma StartAllConsistency(s: State, rib: set<Route>, cs: seq<Command>)
    requires Consistent(s, rib) && SendsFor(s, Event.StartAllNotification, cs)
    ensures Consistent(Next(s, Event.StartAllNotification), ApplyAll(rib, cs))
      <==> forall v :: v in Live(s) && RouteOf(v).Some? ==> v !in s.silenced
  {
    var t := Next(s, Event.StartAllNotification);
    ApplySent(rib, s, Event.StartAllNotification, cs);
    assert AdvertisedVips(s) <= Live(s);
    RoutesOfPlus(AdvertisedVips(s), Live(s));
    assert AdvertisedVips(s) + Live(s) == Live(s);
    assert AdvertisedVips(t) == Live(s) - s.silenced;
    RoutesOfMinus(Live(s), s.silenced);
    if v :| v in Live(s) && RouteOf(v).Some? && v in s.silenced {
      assert RouteOf(v).value in RoutesOf(s.silenced);
      assert RouteOf(v).value !in Advertised(t);
    }
  }

  /** Every step of a sequence of events is safe in the state it is handled in. */
  predicate AllSafe(s: State, events: seq<Event>)
    decreases |events|
  {
    events == [] || (AllSafe(s, events[..|events| - 1]) && SafeStep(Replay(s, events[..|events| - 1]), events[|events| - 1]))
  }

  /**
   * Along any run of safe steps, each command batch sent in any order, the
   * speaker keeps holding exactly the routes of the advertised VIPs.
   */
  lemma {:induction false} TraceConsistent(s: State, events: seq<Event>, rib: set<Route>, out: seq<Command>)
    requires Consistent(s, rib) && AllSafe(s, events) && Produces(s, events, out)
    ensures Consistent(Replay(s, events), ApplyAll(rib, out))
    decreases |events|
  {
    if events != [] {
      var before, e := events[..|events| - 1], events[|events| - 1];
      var k :| 0 <= k <= |out| && Produces(s, before, out[..k]) && SendsFor(Replay(s, before), e, out[k..]);
      TraceConsistent(s, before, rib, out[..k]);
      assert out == out[..k] + out[k..];
      TraceStep(Replay(s, before), e, rib, out[..k], out[k..]);
    }
  }

  /** One step of `TraceConsistent`: a safe event, its commands sent after those of the trace so far. */
  lemma TraceStep(s: State, e: Event, rib: set<Route>, prior: seq<Command>, step: seq<Command>)
    requires Consistent(s, ApplyAll(rib, prior)) && SafeStep(s, e) && SendsFor(s, e, step)
    ensures Consistent(Next(s, e), ApplyAll(rib, prior + step))
  {
    StepKeepsConsistent(s, e, ApplyAll(rib, prior), step);
    ApplyAllConcat(rib, prior, step);
  }

  /**
   * A stale route: announce a VIP, silence it, StartAllNotification (which
   * re-announces it) and withdraw its only service.  Each step sends the only
   * commands it can, and the speaker is left with the route of a VIP that no
   * service wants any more.
   */
  lemma StaleRoute(v: string)
    requires RouteOf(v).Some?
    ensures var r := RouteOf(v).value;
      var s1 := Next(Initial, Event.AdvertiseService(v));
      var s2 := Next(s1, Event.StopNotification(v));
      var s3 := Next(s2, Event.StartAllNotification);
      var s4 := Next(s3, Event.WithdrawService(v));
      && Emitted(Initial, Event.AdvertiseService(v)) == {RouteCommand(Add, r)}
      && Emitted(s1, Event.StopNotification(v)) == {RouteCommand(Withdraw, r)}
      && Emitted(s2, Event.StartAllNotification) == {RouteCommand(Add, r)}
      && Emitted(s3, Event.WithdrawService(v)) == {}
      && Count(s4, v) == 0 && Advertised(s4) == {}
      && ApplyAll({}, [RouteCommand(Add, r), RouteCommand(Withdraw, r), RouteCommand(Add, r)]) == {r}
  {
    var r := RouteOf(v).value;
    RouteCommandsSingle(Add, v);
    RouteCommandsSingle(Withdraw, v);
    var s1 := Next(Initial, Event.AdvertiseService(v));
    var s2 := Next(s1, Event.StopNotification(v));
    assert Live(s2) == {v};
    var s4 := Next(Next(s2, Event.StartAllNotification), Event.WithdrawService(v));
    assert AdvertisedVips(s4) == {};
    RouteCommandRoundTrip(Add, r);
    RouteCommandRoundTrip(Withdraw, r);
    var add, withdraw := RouteCommand(Add, r), RouteCommand(Withdraw, r);
    var cs := [add, withdraw, add];
    assert cs[1..] == [withdraw, add] && cs[1..][1..] == [add] && [add][1..] == [];
    assert Apply({}, add) == {r} && Apply({r}, withdraw) == {};
    assert ApplyAll({}, cs) == ApplyAll({r}, [withdraw, add]);
    assert ApplyAll({r}, [withdraw, add]) == ApplyAll({}, [add]);
    assert ApplyAll({}, [add]) == ApplyAll({r}, []);
  }

  /** The refcount wrap-around breaks the target invariant: the VIP's route stays while its count is back to 0. */
  lemma WrapBreaksConsistency(s: State, v: string, rib: set<Route>)
    requires Consistent(s, rib) && RouteOf(v).Some?
    requires Count(s, v) == RefcountLimit - 1 && v !in s.silenced && !s.muted
    ensures Emitted(s, Event.AdvertiseService(v)) == {RouteCommand(Add, RouteOf(v).value)}
    ensures !Consistent(Next(s, Event.AdvertiseService(v)), ApplyAll(rib, [RouteCommand(Add, RouteOf(v).value)]))
  {
    var r := RouteOf(v).value;
    RouteCommandsSingle(Add, v);
    RouteCommandRoundTrip(Add, r);
    var t := Next(s, Event.AdvertiseService(v));
    assert ApplyAll(rib, [RouteCommand(Add, r)]) == rib + {r};
    assert v in AdvertisedVips(s);
    assert r in ApplyAll(rib, [RouteCommand(Add, r)]);
    if r in Advertised(t) {
      var w :| w in AdvertisedVips(t) && RouteOf(w).Some? && r == RouteOf(w).value;
      RouteOfInjective(v, w);
    }
  }
}
