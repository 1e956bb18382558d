/**
 * The notifier's event loop: a single consumer that owns the refcount table,
 * the silence set and the mute flag, and that turns each inbound event into
 * commands on the channel to the BGP speaker.  The channel is the `sent`
 * sequence: a send appends to it.
 */
module BgpNotifier {
  import opened Wrappers
  import opened AddressShape
  import opened NotifierMessages
  import opened NotifierSpec

  class Notifier {
    /** Refcount per VIP: how many services currently want it advertised. */
    var serviceTable: map<string, Refcount>
    /** VIPs whose advertisement is suppressed one by one. */
    var silencedServices: set<string>
    /** Suppresses every advertisement. */
    var stopAllNotifications: bool
    /** Every command sent to the BGP speaker so far, oldest first. */
    var sent: seq<Command>

    function Snapshot(): State
      reads this
    {
      State(serviceTable, silencedServices, stopAllNotifications)
    }

    constructor ()
      ensures Snapshot() == Initial && sent == []
    {
      serviceTable := map[];
      silencedServices := {};
      stopAllNotifications := false;
      sent := [];
    }

    /** A (blocking) send to the BGP speaker. */
    method Send(c: Command)
      modifies this`sent
      ensures sent == old(sent) + [c]
    {
      sent := sent + [c];
    }

    /** Sends the command for a VIP's host route; a VIP of neither shape sends nothing. */
    method SendRoute(a: Action, vip: string)
      modifies this`sent
      ensures sent == old(sent) + (if RouteOf(vip).Some? then [RouteCommand(a, RouteOf(vip).value)] else [])
    {
      if IsV4(vip) {
        var route := vip + "/32";
        Send(Command(if a == Add then AddV4Route else WithdrawV4Route, route));
      } else if IsV6Bracketed(vip) {
        var route := Inner(vip) + "/128";
        Send(Command(if a == Add then AddV6Route else WithdrawV6Route, route));
      }
    }

    /** Sends the route command of one VIP chosen by an event: what it sends is what the event emits. */
    method SendRouteFor(a: Action, vip: string, ghost s: State, ghost e: Event)
      requires Emitted(s, e) == RouteCommands(a, {vip})
      modifies this`sent
      ensures SentFor(s, e, old(sent), sent)
    {
      SendRoute(a, vip);
      RouteCommandsSingle(a, vip);
      assert sent[|old(sent)|..] == if RouteOf(vip).Some? then [RouteCommand(a, RouteOf(vip).value)] else [];
    }

    method AdvertiseService(vip: string)
      modifies this
      ensures Snapshot() == Next(old(Snapshot()), Event.AdvertiseService(vip))
      ensures SentFor(old(Snapshot()), Event.AdvertiseService(vip), old(sent), sent)
    {
      ghost var s := Snapshot();
      if vip in serviceTable {
        serviceTable := serviceTable[vip := (serviceTable[vip] + 1) % RefcountLimit];
        // more than one service has this VIP: it has been advertised already
        if serviceTable[vip] > 1 {
          return;
        }
      } else {
        serviceTable := serviceTable[vip := 1];
      }
      if vip in silencedServices || stopAllNotifications {
        return;
      }
      SendRouteFor(Add, vip, s, Event.AdvertiseService(vip));
    }

    method WithdrawService(vip: string)
      modifies this
      ensures Snapshot() == Next(old(Snapshot()), Event.WithdrawService(vip))
      ensures SentFor(old(Snapshot()), Event.WithdrawService(vip), old(sent), sent)
    {
      ghost var s := Snapshot();
      if vip in serviceTable {
        if serviceTable[vip] == 0 {
          return;
        }
        serviceTable := serviceTable[vip := serviceTable[vip] - 1];
        // other services still use this VIP
        if serviceTable[vip] > 0 {
          return;
        }
      } else {
        return;
      }
      if vip in silencedServices || stopAllNotifications {
        return;
      }
      SendRouteFor(Withdraw, vip, s, Event.WithdrawService(vip));
    }

    method StopNotification(vip: string)
      modifies this
      ensures Snapshot() == Next(old(Snapshot()), Event.StopNotification(vip))
      ensures SentFor(old(Snapshot()), Event.StopNotification(vip), old(sent), sent)
    {
      ghost var s := Snapshot();
      if vip in silencedServices || stopAllNotifications {
        return;
      }
      silencedServices := silencedServices + {vip};
      if vip !in serviceTable {
        return;
      }
      SendRouteFor(Withdraw, vip, s, Event.StopNotification(vip));
    }

    method StartNotification(vip: string)
      modifies this
      ensures Snapshot() == Next(old(Snapshot()), Event.StartNotification(vip))
      ensures SentFor(old(Snapshot()), Event.StartNotification(vip), old(sent), sent)
    {
      ghost var s := Snapshot();
      if vip !in silencedServices || stopAllNotifications {
        return;
      }
      silencedServices := silencedServices - {vip};
      if vip !in serviceTable {
        return;
      } else if serviceTable[vip] == 0 {
        return;
      }
      SendRouteFor(Add, vip, s, Event.StartNotification(vip));
    }

    /** The step of StopAllNotification's walk for one VIP of the table. */
    method StopAllVisit(service: string, ghost s: State, ghost visited: set<string>)
      requires service in s.table && service !in visited
      requires serviceTable == s.table && silencedServices == s.silenced - visited
      modifies this`sent, this`silencedServices
      ensures silencedServices == s.silenced - (visited + {service})
      ensures sent == old(sent) + StepCommands(Withdraw, UnsilencedLive(s), service)
    {
      if service in silencedServices {
        // a silenced VIP has been withdrawn already; it loses its silence
        silencedServices := silencedServices - {service};
      } else if serviceTable[service] != 0 {
        SendRoute(Withdraw, service);
      }
    }

    /**
     * The walk of StopAllNotification: every table VIP loses its silence and
     * every live unsilenced VIP is withdrawn, in an unspecified order, as a Go
     * map range visits keys.
     */
    method WithdrawAll(ghost s: State)
      requires serviceTable == s.table && silencedServices == s.silenced
      modifies this`sent, this`silencedServices
      ensures silencedServices == s.silenced - s.table.Keys
      ensures old(sent) <= sent && multiset(sent[|old(sent)|..]) == multiset(RouteCommands(Withdraw, UnsilencedLive(s)))
    {
      var pending := serviceTable.Keys;
      ghost var visited: set<string> := {};
      ghost var out: seq<Command> := [];
      while pending != {}
        invariant pending + visited == s.table.Keys && pending !! visited
        invariant serviceTable == s.table
        invariant silencedServices == s.silenced - visited
        invariant sent == old(sent) + out
        invariant multiset(out) == multiset(RouteCommands(Withdraw, UnsilencedLive(s) * visited))
        decreases pending
      {
        var service :| service in pending;
        StopAllVisit(service, s, visited);
        ghost var step := StepCommands(Withdraw, UnsilencedLive(s), service);
        VisitOne(Withdraw, UnsilencedLive(s), visited, service, out);
        AppendAssoc(old(sent), out, step);
        out := out + step;
        pending := pending - {service};
        visited := visited + {service};
      }
      WalkDone(Withdraw, UnsilencedLive(s), visited, old(sent), out, sent);
    }

    /** Mutes everything and withdraws what was advertised. */
    method StopAllNotification()
      modifies this
      ensures Snapshot() == Next(old(Snapshot()), Event.StopAllNotification)
      ensures SentFor(old(Snapshot()), Event.StopAllNotification, old(sent), sent)
    {
      ghost var s := Snapshot();
      stopAllNotifications := true;
      WithdrawAll(s);
    }

    /** The step of StartAllNotification's walk for one VIP of the table. */
    method StartAllVisit(service: string, ghost s: State)
      requires service in s.table && serviceTable == s.table
      modifies this`sent
      ensures sent == old(sent) + StepCommands(Add, Live(s), service)
    {
      if serviceTable[service] > 0 {
        SendRoute(Add, service);
      }
    }

    /** The walk of StartAllNotification: every VIP with a positive count is announced, in an unspecified order. */
    method AnnounceAll(ghost s: State)
      requires serviceTable == s.table
      modifies this`sent
      ensures old(sent) <= sent && multiset(sent[|old(sent)|..]) == multiset(RouteCommands(Add, Live(s)))
    {
      var pending := serviceTable.Keys;
      ghost var visited: set<string> := {};
      ghost var out: seq<Command> := [];
      while pending != {}
        invariant pending + visited == s.table.Keys && pending !! visited
        invariant serviceTable == s.table
        invariant sent == old(sent) + out
        invariant multiset(out) == multiset(RouteCommands(Add, Live(s) * visited))
        decreases pending
      {
        var service :| service in pending;
        StartAllVisit(service, s);
        ghost var step := StepCommands(Add, Live(s), service);
        VisitOne(Add, Live(s), visited, service, out);
        AppendAssoc(old(sent), out, step);
        out := out + step;
        pending := pending - {service};
        visited := visited + {service};
      }
      WalkDone(Add, Live(s), visited, old(sent), out, sent);
    }

    /** Unmutes and announces every VIP with a positive count, silenced or not. */
    method StartAllNotification()
      modifies this
      ensures Snapshot() == Next(old(Snapshot()), Event.StartAllNotification)
      ensures SentFor(old(Snapshot()), Event.StartAllNotification, old(sent), sent)
    {
      ghost var s := Snapshot();
      stopAllNotifications := false;
      AnnounceAll(s);
    }

    method AddPeer(addr: string)
      modifies this
      ensures Snapshot() == old(Snapshot())
      ensures SentFor(old(Snapshot()), Event.AddPeer(addr), old(sent), sent)
    {
      if IsV4(addr) {
        Send(Command(AddNeighbour, addr));
      } else {
        // the BGP speaker resolves an IPv6 peer only in the form [<addr>]
        var data := "[" + addr + "]";
        data := data + " " + "inet6";
        assert data == "[" + addr + "] inet6";
        Send(Command(AddNeighbour, data));
      }
      assert sent[|old(sent)|..] == [NeighbourCommand(Add, addr)];
    }

    method RemovePeer(addr: string)
      modifies this
      ensures Snapshot() == old(Snapshot())
      ensures SentFor(old(Snapshot()), Event.RemovePeer(addr), old(sent), sent)
    {
      if IsV4(addr) {
        Send(Command(RemoveNeighbour, addr));
      } else {
        var data := "[" + addr + "]";
        data := data + " " + "inet6";
        assert data == "[" + addr + "] inet6";
        Send(Command(RemoveNeighbour, data));
      }
      assert sent[|old(sent)|..] == [NeighbourCommand(Withdraw, addr)];
    }

    /** One pass of the event loop: the `switch` on the event's kind. */
    method Step(e: Event)
      modifies this
      ensures Snapshot() == Next(old(Snapshot()), e)
      ensures SentFor(old(Snapshot()), e, old(sent), sent)
    {
      match e
      case AdvertiseService(v) => AdvertiseService(v);
      case WithdrawService(v) => WithdrawService(v);
      case StopNotification(v) => StopNotification(v);
      case StartNotification(v) => StartNotification(v);
      case StopAllNotification => StopAllNotification();
      case StartAllNotification => StartAllNotification();
      case AddPeer(p) => AddPeer(p);
      case RemovePeer(p) => RemovePeer(p);
    }
  
    /** Handles one inbound message; a message whose tag has no case changes nothing and sends nothing. */
    method Handle(m: NotifierMsg)
      modifies this
      ensures Decode(m).None? ==> Snapshot() == old(Snapshot()) && sent == old(sent)
      ensures Decode(m).Some? ==> Snapshot() == Next(old(Snapshot()), Decode(m).value)
      ensures Decode(m).Some? ==> SentFor(old(Snapshot()), Decode(m).value, old(sent), sent)
    {
      var e := Decode(m);
      if e.Some? {
        Step(e.value);
      }
    }

    /**
     * The event loop over a finite prefix of the inbound channel: the final
     * state is the replay of the decoded events, and what was sent is, event
     * after event, a sending order of what each event emits.
     */
    method Run(msgs: seq<NotifierMsg>)
      modifies this
      ensures Snapshot() == Replay(old(Snapshot()), Decoded(msgs))
      ensures old(sent) <= sent && Produces(old(Snapshot()), Decoded(msgs), sent[|old(sent)|..])
    {
      ghost var s0 := Snapshot();
      ghost var sent0 := sent;
      var i := 0;
      while i < |msgs|
        invariant 0 <= i <= |msgs|
        invariant Snapshot() == Replay(s0, Decoded(msgs[..i]))
        invariant sent0 <= sent && Produces(s0, Decoded(msgs[..i]), sent[|sent0|..])
      {
        ghost var before := sent;
        Handle(msgs[i]);
        ProducesHandle(s0, msgs, i, sent0, before, sent);
        i := i + 1;
      }
      assert msgs[..i] == msgs;
    }
  }
}
