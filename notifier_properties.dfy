/**
 * What the notifier's transition rules guarantee: route commands are sent
 * only on the edges of the effective-advertised predicate, refcounts let
 * services share a VIP, silence and mute override the refcount, and the two
 * global events act per table key.
 */
module NotifierProperties {
  import opened Wrappers
  import opened AddressShape
  import opened NotifierMessages
  import opened NotifierSpec

  /** The events about one VIP. */
  predicate IsVipEvent(e: Event)
  {
    e.AdvertiseService? || e.WithdrawService? || e.StopNotification? || e.StartNotification?
  }

  /** An event about one VIP leaves every other VIP's table membership, refcount and silence, and the mute flag, as they were. */
  lemma OtherVipsUnaffected(s: State, e: Event, u: string)
    requires IsVipEvent(e) && e.vip != u
    ensures Count(Next(s, e), u) == Count(s, u)
    ensures u in Next(s, e).silenced <==> u in s.silenced
    ensures Next(s, e).muted == s.muted
    ensures u in Next(s, e).table <==> u in s.table
  {
  }

  /** An event other than the two global ones sends at most one command. */
  lemma AtMostOneCommand(s: State, e: Event)
    requires !IsGlobal(e)
    ensures |Emitted(s, e)| <= 1
  {
    if IsVipEvent(e) {
      RouteCommandsSingle(if e.AdvertiseService? || e.StartNotification? then Add else Withdraw, e.vip);
    }
  }

  /** AdvertiseService starts an absent VIP at 1 and increments a present one, modulo 2^32. */
  lemma AdvertiseCounts(s: State, v: string)
    ensures v in Next(s, Event.AdvertiseService(v)).table
    ensures Count(Next(s, Event.AdvertiseService(v)), v) == (Count(s, v) + 1) % RefcountLimit
  {
  }

  /**
   * Without wrap-around, AdvertiseService sends an Add exactly when it makes
   * the VIP advertised, and it never stops a VIP from being advertised.
   */
  lemma AdvertiseEdge(s: State, v: string)
    requires Count(s, v) + 1 < RefcountLimit
    ensures var t := Next(s, Event.AdvertiseService(v));
      Emitted(s, Event.AdvertiseService(v)) == if !IsAdvertised(s, v) && IsAdvertised(t, v) then RouteCommands(Add, {v}) else {}
    ensures IsAdvertised(Next(s, Event.AdvertiseService(v)), v) <==> v !in s.silenced && !s.muted
  {
    var t := Next(s, Event.AdvertiseService(v));
    assert Incremented(s, v) == Count(s, v) + 1;
    assert Count(t, v) == Count(s, v) + 1;
    assert t.silenced == s.silenced && t.muted == s.muted;
  }

  /**
   * The refcount is a Go `uint32` with no overflow check: the advertisement
   * that takes it past 2^32 - 1 brings it back to 0, so the VIP stops counting
   * as advertised while an Add is sent for it.
   */
  lemma AdvertiseWraps(s: State, v: string)
    requires Count(s, v) == RefcountLimit - 1 && v !in s.silenced && !s.muted
    ensures Count(Next(s, Event.AdvertiseService(v)), v) == 0
    ensures IsAdvertised(s, v) && !IsAdvertised(Next(s, Event.AdvertiseService(v)), v)
    ensures Emitted(s, Event.AdvertiseService(v)) == RouteCommands(Add, {v})
  {
  }

  /** WithdrawService on an absent VIP or on a count of 0 changes nothing and sends nothing. */
  lemma WithdrawNoop(s: State, v: string)
    requires Count(s, v) == 0
    ensures Next(s, Event.WithdrawService(v)) == s
    ensures Emitted(s, Event.WithdrawService(v)) == {}
  {
  }

  /** WithdrawService takes exactly 1 off a positive count, and a VIP withdrawn to 0 stays a key of the table. */
  lemma WithdrawDecrements(s: State, v: string)
    requires Count(s, v) > 0
    ensures v in Next(s, Event.WithdrawService(v)).table
    ensures Count(Next(s, Event.WithdrawService(v)), v) == Count(s, v) - 1
  {
  }

  /** WithdrawService sends a Withdraw exactly when it stops the VIP from being advertised, and never makes it advertised. */
  lemma WithdrawEdge(s: State, v: string)
    ensures var t := Next(s, Event.WithdrawService(v));
      Emitted(s, Event.WithdrawService(v)) == if IsAdvertised(s, v) && !IsAdvertised(t, v) then RouteCommands(Withdraw, {v}) else {}
    ensures IsAdvertised(Next(s, Event.WithdrawService(v)), v) ==> IsAdvertised(s, v)
  {
  }

  /** While another service still holds the VIP, a withdrawal sends nothing and the VIP stays as advertised as it was. */
  lemma ShareSafety(s: State, v: string)
    requires Count(s, v) >= 2
    ensures Emitted(s, Event.WithdrawService(v)) == {}
    ensures IsAdvertised(Next(s, Event.WithdrawService(v)), v) == IsAdvertised(s, v)
  {
  }

  /**
   * A VIP is never advertised after StopNotification.  The Withdraw is sent
   * when the VIP was advertised, and also, redundantly, for a table key whose
   * count is 0: the source tests that the key exists, not that it is live.
   */
  lemma StopEdge(s: State, v: string)
    ensures !IsAdvertised(Next(s, Event.StopNotification(v)), v)
    ensures Emitted(s, Event.StopNotification(v))
      == if IsAdvertised(s, v) || (v in s.table && s.table[v] == 0 && v !in s.silenced && !s.muted)
         then RouteCommands(Withdraw, {v}) else {}
  {
  }

  /** A second StopNotification in a row changes nothing and sends nothing. */
  lemma StopIdempotent(s: State, v: string)
    ensures var t := Next(s, Event.StopNotification(v));
      Next(t, Event.StopNotification(v)) == t && Emitted(t, Event.StopNotification(v)) == {}
  {
  }

  /** StartNotification sends an Add exactly when it makes the VIP advertised, and never stops it from being advertised. */
  lemma StartEdge(s: State, v: string)
    ensures var t := Next(s, Event.StartNotification(v));
      Emitted(s, Event.StartNotification(v)) == if !IsAdvertised(s, v) && IsAdvertised(t, v) then RouteCommands(Add, {v}) else {}
    ensures IsAdvertised(s, v) ==> IsAdvertised(Next(s, Event.StartNotification(v)), v)
  {
  }

  /** A second StartNotification in a row changes nothing and sends nothing. */
  lemma StartIdempotent(s: State, v: string)
    ensures var t := Next(s, Event.StartNotification(v));
      Next(t, Event.StartNotification(v)) == t && Emitted(t, Event.StartNotification(v)) == {}
  {
  }

  /**
   * StopAllNotification withdraws a routable VIP exactly when it is a live,
   * unsilenced table key; afterwards nothing is advertised and no table key
   * is silenced any more.
   */
  lemma StopAllPerVip(s: State, u: string)
    requires RouteOf(u).Some?
    ensures RouteCommand(Withdraw, RouteOf(u).value) in Emitted(s, Event.StopAllNotification)
      <==> u in s.table && u !in s.silenced && s.table[u] != 0
    ensures RouteCommand(Add, RouteOf(u).value) !in Emitted(s, Event.StopAllNotification)
    ensures !IsAdvertised(Next(s, Event.StopAllNotification), u)
    ensures u in s.table ==> u !in Next(s, Event.StopAllNotification).silenced
  {
    RouteCommandsMember(Withdraw, UnsilencedLive(s), u);
    if RouteCommand(Add, RouteOf(u).value) in Emitted(s, Event.StopAllNotification) {
      var w :| w in UnsilencedLive(s) && RouteOf(w).Some? && RouteCommand(Withdraw, RouteOf(w).value) == RouteCommand(Add, RouteOf(u).value);
      RouteCommandRoundTrip(Withdraw, RouteOf(w).value);
      RouteCommandRoundTrip(Add, RouteOf(u).value);
    }
  }

  /**
   * StartAllNotification announces a routable VIP exactly when its count is
   * positive, whether or not it is silenced; afterwards a VIP is advertised
   * when it is live and unsilenced.
   */
  lemma StartAllPerVip(s: State, u: string)
    requires RouteOf(u).Some?
    ensures RouteCommand(Add, RouteOf(u).value) in Emitted(s, Event.StartAllNotification) <==> Count(s, u) > 0
    ensures RouteCommand(Withdraw, RouteOf(u).value) !in Emitted(s, Event.StartAllNotification)
    ensures IsAdvertised(Next(s, Event.StartAllNotification), u) <==> Count(s, u) > 0 && u !in s.silenced
  {
    RouteCommandsMember(Add, Live(s), u);
    if RouteCommand(Withdraw, RouteOf(u).value) in Emitted(s, Event.StartAllNotification) {
      var w :| w in Live(s) && RouteOf(w).Some? && RouteCommand(Add, RouteOf(w).value) == RouteCommand(Withdraw, RouteOf(u).value);
      RouteCommandRoundTrip(Add, RouteOf(w).value);
      RouteCommandRoundTrip(Withdraw, RouteOf(u).value);
    }
  }

  /**
   * A global stop forgets individual silences: after StopAllNotification and
   * StartAllNotification, every VIP with a positive count is advertised.
   */
  lemma StopAllForgetsSilence(s: State, u: string)
    ensures IsAdvertised(Replay(s, [Event.StopAllNotification, Event.StartAllNotification]), u) <==> Count(s, u) > 0
  {
    var evs := [Event.StopAllNotification, Event.StartAllNotification];
    assert evs[..1] == [Event.StopAllNotification] && evs[..1][..0] == [];
  }

  /** While everything is muted, the per-VIP administrative events change nothing and send nothing. */
  lemma MutedIgnoresSilenceEvents(s: State, v: string)
    requires s.muted
    ensures Next(s, Event.StopNotification(v)) == s && Emitted(s, Event.StopNotification(v)) == {}
    ensures Next(s, Event.StartNotification(v)) == s && Emitted(s, Event.StartNotification(v)) == {}
  {
  }
}
