/**
 * What one event does to the notifier's state and which commands it sends
 * to the BGP speaker.  The state is the refcount table (how many services
 * currently want each VIP reachable), the set of individually silenced VIPs
 * and the global mute flag.
 */
module NotifierSpec {
  import opened Wrappers
  import opened NotifierMessages

  /** The refcounts are Go `uint32`s: an increment past the largest one wraps around to 0. */
  const RefcountLimit: nat := 0x1_0000_0000

  type Refcount = n: nat | n < RefcountLimit

  datatype State = State(table: map<string, Refcount>, silenced: set<string>, muted: bool)

  /** All three are empty when the notifier starts. */
  const Initial: State := State(map[], {}, false)

  /** The refcount of a VIP; a VIP that is not a key counts 0. */
  function Count(s: State, vip: string): Refcount
  {
    if vip in s.table then s.table[vip] else 0
  }

  /** The refcount after one more service wants the VIP: a new key starts at 1, an old one is incremented modulo 2^32. */
  function Incremented(s: State, vip: string): Refcount
  {
    if vip in s.table then (s.table[vip] + 1) % RefcountLimit else 1
  }

  /** The effective-advertised predicate: some service wants the VIP, it is not silenced and nothing is muted. */
  predicate IsAdvertised(s: State, vip: string)
  {
    Count(s, vip) > 0 && vip !in s.silenced && !s.muted
  }

  /** The route commands for a set of VIPs, one per VIP that has a route. */
  function RouteCommands(a: Action, vips: set<string>): set<Command>
  {
    set v | v in vips && RouteOf(v).Some? :: RouteCommand(a, RouteOf(v).value)
  }

  /** The keys of the table whose count is not 0 and that are not silenced: what StopAllNotification withdraws. */
  function UnsilencedLive(s: State): set<string>
  {
    set v | v in s.table && v !in s.silenced && s.table[v] != 0
  }

  /** The keys of the table whose count is positive: what StartAllNotification announces. */
  function Live(s: State): set<string>
  {
    set v | v in s.table && s.table[v] > 0
  }

  /** The state after an event. */
  function Next(s: State, e: Event): State
  {
    match e
    case AdvertiseService(v) => s.(table := s.table[v := Incremented(s, v)])
    case WithdrawService(v) =>
      if v in s.table && s.table[v] != 0 then s.(table := s.table[v := s.table[v] - 1]) else s
    case StopNotification(v) =>
      if v in s.silenced || s.muted then s else s.(silenced := s.silenced + {v})
    case StartNotification(v) =>
      if v !in s.silenced || s.muted then s else s.(silenced := s.silenced - {v})
    case StopAllNotification => s.(silenced := s.silenced - s.table.Keys, muted := true)
    case StartAllNotification => s.(muted := false)
    case AddPeer(_) => s
    case RemovePeer(_) => s
  }

  /** The action of the route commands an event sends (Add for the announcing events). */
  function EventAction(e: Event): Action
  {
    if e.AdvertiseService? || e.StartNotification? || e.StartAllNotification? then Add else Withdraw
  }

  predicate IsPeerEvent(e: Event) { e.AddPeer? || e.RemovePeer? }

  /** The VIPs whose route commands an event sends: the send conditions of each case of the switch. */
  function EmittedVips(s: State, e: Event): set<string>
  {
    match e
    case AdvertiseService(v) => if Incremented(s, v) <= 1 && v !in s.silenced && !s.muted then {v} else {}
    case WithdrawService(v) => if Count(s, v) == 1 && v !in s.silenced && !s.muted then {v} else {}
    case StopNotification(v) => if v in s.silenced || s.muted || v !in s.table then {} else {v}
    case StartNotification(v) => if v !in s.silenced || s.muted || Count(s, v) == 0 then {} else {v}
    case StopAllNotification => UnsilencedLive(s)
    case StartAllNotification => Live(s)
    case AddPeer(_) => {}
    case RemovePeer(_) => {}
  }

  /**
   * The commands an event sends.  The two global events send one command per
   * VIP, in the unspecified order of the table's iteration; the others send
   * at most one.
   */
  function Emitted(s: State, e: Event): set<Command>
  {
    match e
    case AddPeer(p) => {NeighbourCommand(Add, p)}
    case RemovePeer(p) => {NeighbourCommand(Withdraw, p)}
    case _ => RouteCommands(EventAction(e), EmittedVips(s, e))
  }

  /** `out` is a sending order of the commands the event emits in state `s`. */
  predicate SendsFor(s: State, e: Event, out: seq<Command>)
  {
    multiset(out) == multiset(Emitted(s, e))
  }

  /** The state after a sequence of events, handled one at a time in order. */
  function Replay(s: State, events: seq<Event>): State
    decreases |events|
  {
    if events == [] then s else Next(Replay(s, events[..|events| - 1]), events[|events| - 1])
  }

  /** `out` is what the events send, event after event, each event's commands in some order. */
  ghost predicate Produces(s: State, events: seq<Event>, out: seq<Command>)
    decreases |events|
  {
    if events == [] then out == []
    else
      var before := events[..|events| - 1];
      exists k :: 0 <= k <= |out| && Produces(s, before, out[..k]) && SendsFor(Replay(s, before), events[|events| - 1], out[k..])
  }

  /** `after` is `before` followed by a sending order of what the event emits in state `s`. */
  predicate SentFor(s: State, e: Event, before: seq<Command>, after: seq<Command>)
  {
    before <= after && SendsFor(s, e, after[|before|..])
  }

  /** For one VIP there is at most one route command: its own, if it has a route. */
  lemma RouteCommandsSingle(a: Action, v: string)
    ensures RouteCommands(a, {v}) == if RouteOf(v).Some? then {RouteCommand(a, RouteOf(v).value)} else {}
  {
  }

  /**
   * A VIP's route command is among the route commands of a set of VIPs exactly
   * when the VIP is in the set: no other VIP produces the same command.
   */
  lemma RouteCommandsMember(a: Action, vips: set<string>, v: string)
    requires RouteOf(v).Some?
    ensures RouteCommand(a, RouteOf(v).value) in RouteCommands(a, vips) <==> v in vips
  {
    if RouteCommand(a, RouteOf(v).value) in RouteCommands(a, vips) {
      var u :| u in vips && RouteOf(u).Some? && RouteCommand(a, RouteOf(u).value) == RouteCommand(a, RouteOf(v).value);
      RouteCommandRoundTrip(a, RouteOf(u).value);
      RouteCommandRoundTrip(a, RouteOf(v).value);
      RouteOfInjective(u, v);
    }
  }

  /** Adding a VIP outside the set adds its own command, if any, and that command is new. */
  lemma RouteCommandsAddOne(a: Action, vips: set<string>, v: string)
    requires v !in vips
    ensures RouteCommands(a, vips + {v}) == RouteCommands(a, vips) + RouteCommands(a, {v})
    ensures multiset(RouteCommands(a, vips + {v})) == multiset(RouteCommands(a, vips)) + multiset(RouteCommands(a, {v}))
  {
    RouteCommandsSingle(a, v);
    if RouteOf(v).Some? {
      RouteCommandsMember(a, vips, v);
    }
    var left, right := RouteCommands(a, vips), RouteCommands(a, {v});
    assert left !! right;
    assert RouteCommands(a, vips + {v}) == left + right;
  }

  lemma AppendAssoc(a: seq<Command>, b: seq<Command>, c: seq<Command>)
    ensures (a + b) + c == a + (b + c)
  {
  }

  /** What a walk over the table sends for one VIP: its route command if it is among the chosen ones and has a route. */
  function StepCommands(a: Action, chosen: set<string>, v: string): seq<Command>
  {
    if v in chosen && RouteOf(v).Some? then [RouteCommand(a, RouteOf(v).value)] else []
  }

  /**
   * One iteration of a walk over the table: visiting one more VIP adds its
   * command exactly when the VIP is among the chosen ones.
   */
  lemma VisitOne(a: Action, chosen: set<string>, visited: set<string>, v: string, prior: seq<Command>)
    requires v !in visited
    requires multiset(prior) == multiset(RouteCommands(a, chosen * visited))
    ensures multiset(prior + StepCommands(a, chosen, v)) == multiset(RouteCommands(a, chosen * (visited + {v})))
  {
    RouteCommandsSingle(a, v);
    if v in chosen {
      RouteCommandsAddOne(a, chosen * visited, v);
      assert chosen * (visited + {v}) == chosen * visited + {v};
    } else {
      assert chosen * (visited + {v}) == chosen * visited;
    }
  }

  /** At the end of a walk every VIP has been visited: what was sent is a sending order of all chosen VIPs' commands. */
  lemma WalkDone(a: Action, chosen: set<string>, visited: set<string>, before: seq<Command>, out: seq<Command>, after: seq<Command>)
    requires chosen <= visited
    requires after == before + out
    requires multiset(out) == multiset(RouteCommands(a, chosen * visited))
    ensures before <= after && multiset(after[|before|..]) == multiset(RouteCommands(a, chosen))
  {
    assert chosen * visited == chosen;
    assert after[|before|..] == out;
  }

  /** The events a sequence of inbound messages selects: a message whose tag has no case is skipped. */
  function Decoded(msgs: seq<NotifierMsg>): seq<Event>
    decreases |msgs|
  {
    if msgs == [] then []
    else
      var rest := Decoded(msgs[..|msgs| - 1]);
      match Decode(msgs[|msgs| - 1])
      case Some(e) => rest + [e]
      case None => rest
  }

  /**
   * Handling one more message extends what a run produces: the message's
   * event, if it has one, moves the state on and appends its commands.
   */
  lemma ProducesSnoc(s: State, msgs: seq<NotifierMsg>, m: NotifierMsg, out: seq<Command>, step: seq<Command>)
    requires Produces(s, Decoded(msgs), out)
    requires Decode(m).None? ==> step == []
    requires Decode(m).Some? ==> SendsFor(Replay(s, Decoded(msgs)), Decode(m).value, step)
    ensures Replay(s, Decoded(msgs + [m])) == if Decode(m).Some? then Next(Replay(s, Decoded(msgs)), Decode(m).value) else Replay(s, Decoded(msgs))
    ensures Produces(s, Decoded(msgs + [m]), out + step)
  {
    assert (msgs + [m])[..|msgs|] == msgs;
    var evs := Decoded(msgs);
    if Decode(m).Some? {
      var all := evs + [Decode(m).value];
      assert all[..|evs|] == evs;
      assert (out + step)[..|out|] == out && (out + step)[|out|..] == step;
    } else {
      assert out + step == out;
    }
  }

  /** The same step, stated over the whole output sequence before and after the message is handled. */
  lemma ProducesHandle(s: State, msgs: seq<NotifierMsg>, i: nat, sent0: seq<Command>, before: seq<Command>, after: seq<Command>)
    requires i < |msgs|
    requires sent0 <= before && Produces(s, Decoded(msgs[..i]), before[|sent0|..])
    requires Decode(msgs[i]).None? ==> after == before
    requires Decode(msgs[i]).Some? ==> SentFor(Replay(s, Decoded(msgs[..i])), Decode(msgs[i]).value, before, after)
    ensures Replay(s, Decoded(msgs[..i + 1]))
      == if Decode(msgs[i]).Some? then Next(Replay(s, Decoded(msgs[..i])), Decode(msgs[i]).value) else Replay(s, Decoded(msgs[..i]))
    ensures sent0 <= after && Produces(s, Decoded(msgs[..i + 1]), after[|sent0|..])
  {
    var prefix, m := msgs[..i], msgs[i];
    assert msgs[..i + 1] == prefix + [m];
    var out, step := before[|sent0|..], after[|before|..];
    assert before <= after;
    assert after[|sent0|..] == out + step;
    ProducesSnoc(s, prefix, m, out, step);
  }
}
