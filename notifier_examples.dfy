/**
 * Concrete runs of the notifier on literal addresses: the address families,
 * the peer descriptors, and a shared VIP going through advertisement,
 * silence and withdrawal.
 */
module NotifierExamples {
  import opened Wrappers
  import opened AddressShape
  import opened NotifierMessages
  import opened NotifierSpec

  /** A dotted IPv4 VIP is announced as a V4 host route. */
  lemma DottedRoute(v: string)
    requires IsV4(v)
    ensures RouteOf(v) == Some(Route(V4, v + "/32"))
    ensures RouteCommands(Add, {v}) == {Command(AddV4Route, v + "/32")}
    ensures RouteCommands(Withdraw, {v}) == {Command(WithdrawV4Route, v + "/32")}
  {
    RouteCommandsSingle(Add, v);
    RouteCommandsSingle(Withdraw, v);
  }

  lemma V4Example(s: string)
    requires s == "1.1.1.1" || s == "10.0.0.1" || s == "10.0.0.2"
    ensures IsV4(s)
  {
    if s == "1.1.1.1" {
      V4Of(s, "1", "1", "1", "1");
    } else if s == "10.0.0.1" {
      V4Of(s, "10", "0", "0", "1");
    } else {
      V4Of(s, "10", "0", "0", "2");
    }
  }

  /** Up to four hex digits followed by a colon are one piece of the IPv6 shape. */
  lemma HexPieceColon(h: string)
    requires |h| <= 4 && AllHexDigits(h)
    ensures IsHexPiece(h + ":")
  {
    assert (h + ":")[..|h|] == h;
  }

  lemma HexDigits2001()
    ensures AllHexDigits("2001")
  {
  }

  lemma HexDigitsDb8()
    ensures AllHexDigits("db8")
  {
  }

  lemma HexPieces1(last: string)
    requires last == "1" || last == "2"
    ensures HexPieces(last, 5)
  {
    HexPiecesCons(last, last, [], 4);
  }

  lemma HexPiecesColon1(last: string)
    requires last == "1" || last == "2"
    ensures HexPieces(":" + last, 6)
  {
    HexPieces1(last);
    HexPieceColon("");
    HexPiecesCons(":" + last, ":", last, 5);
  }

  lemma HexPiecesDb8(last: string)
    requires last == "1" || last == "2"
    ensures HexPieces("db8:" + (":" + last), 7)
  {
    HexPiecesColon1(last);
    HexDigitsDb8();
    HexPieceColon("db8");
    HexPiecesCons("db8:" + (":" + last), "db8:", ":" + last, 6);
  }

  lemma HexPieces2001(last: string)
    requires last == "1" || last == "2"
    ensures HexPieces("2001:" + ("db8:" + (":" + last)), 8)
  {
    HexPiecesDb8(last);
    HexDigits2001();
    HexPieceColon("2001");
    HexPiecesCons("2001:" + ("db8:" + (":" + last)), "2001:", "db8:" + (":" + last), 7);
  }

  lemma HexPiecesExample(inner: string)
    requires inner == "2001:db8::1"
    ensures HexPieces(inner, 8)
  {
    HexPieces2001("1");
    InnerPieces();
  }

  lemma InnerPieces()
    ensures "2001:" + ("db8:" + (":" + "1")) == "2001:db8::1"
  {
  }

  lemma V6Example(s: string, inner: string)
    requires inner == "2001:db8::1" && s == "[" + inner + "]"
    ensures IsV6Bracketed(s) && Inner(s) == inner
  {
    HexPiecesExample(inner);
    Bracketed(s, inner);
  }

  /** The first advertisement of a dotted IPv4 VIP from the empty state announces its /32 route. */
  lemma AddressFamilyV4(v: string)
    requires v == "10.0.0.1"
    ensures Emitted(Initial, Event.AdvertiseService(v)) == {Command(AddV4Route, "10.0.0.1/32")}
  {
    V4Example(v);
    DottedRoute(v);
    assert v + "/32" == "10.0.0.1/32";
  }

  /** A bracketed IPv6 VIP is announced as a V6 host route of its inner text. */
  lemma BracketedRoute(v: string)
    requires IsV6Bracketed(v)
    ensures RouteCommands(Add, {v}) == {Command(AddV6Route, Inner(v) + "/128")}
    ensures RouteCommands(Withdraw, {v}) == {Command(WithdrawV6Route, Inner(v) + "/128")}
  {
    V4NotV6(v);
    RouteCommandsSingle(Add, v);
    RouteCommandsSingle(Withdraw, v);
  }

  lemma V6Literals()
    ensures "[" + "2001:db8::1" + "]" == "[2001:db8::1]"
    ensures "2001:db8::1" + "/128" == "2001:db8::1/128"
  {
  }

  /** The first advertisement of a bracketed IPv6 VIP from the empty state announces its /128 route, brackets removed. */
  lemma AddressFamilyV6(v: string)
    requires v == "[2001:db8::1]"
    ensures Emitted(Initial, Event.AdvertiseService(v)) == {Command(AddV6Route, "2001:db8::1/128")}
  {
    V6Literals();
    V6Example(v, "2001:db8::1");
    BracketedRoute(v);
  }

  /** A text with a colon is not dotted IPv4. */
  lemma ColonNotV4(s: string, i: nat)
    requires i < |s| && s[i] == ':'
    ensures !IsV4(s)
  {
    if IsV4(s) {
      V4Shape(s);
      assert false;
    }
  }

  /** A dotted IPv4 peer is passed through as the neighbour descriptor, such as `10.0.0.2`. */
  lemma PeerFormattingV4(p: string)
    requires IsV4(p)
    ensures Emitted(Initial, Event.AddPeer(p)) == {Command(AddNeighbour, p)}
    ensures Emitted(Initial, Event.RemovePeer(p)) == {Command(RemoveNeighbour, p)}
  {
  }

  lemma PeerExampleV4(p: string)
    requires p == "10.0.0.2"
    ensures Emitted(Initial, Event.AddPeer(p)) == {Command(AddNeighbour, "10.0.0.2")}
  {
    V4Example(p);
    PeerFormattingV4(p);
  }

  /** Any other peer is bracketed and tagged `inet6`, for adding and for removing. */
  lemma PeerFormattingV6(p: string)
    requires p == "2001:db8::2"
    ensures Emitted(Initial, Event.AddPeer(p)) == {Command(AddNeighbour, "[2001:db8::2] inet6")}
    ensures Emitted(Initial, Event.RemovePeer(p)) == {Command(RemoveNeighbour, "[2001:db8::2] inet6")}
  {
    ColonNotV4(p, 4);
    assert "[" + p + "] inet6" == "[2001:db8::2] inet6";
  }

  /**
   * Two services on one VIP, then silence: the VIP is announced once, kept
   * while one service is left, withdrawn by the silence, and not announced
   * again when the silence ends after the last service has gone.
   */
  lemma SharedVipScenario(v: string)
    requires v == "1.1.1.1"
    ensures var s1 := Next(Initial, Event.AdvertiseService(v));
      var s2 := Next(s1, Event.AdvertiseService(v));
      var s3 := Next(s2, Event.WithdrawService(v));
      var s4 := Next(s3, Event.StopNotification(v));
      var s5 := Next(s4, Event.WithdrawService(v));
      var s6 := Next(s5, Event.StartNotification(v));
      && Count(s1, v) == 1 && Emitted(Initial, Event.AdvertiseService(v)) == {Command(AddV4Route, "1.1.1.1/32")}
      && Count(s2, v) == 2 && Emitted(s1, Event.AdvertiseService(v)) == {}
      && Count(s3, v) == 1 && Emitted(s2, Event.WithdrawService(v)) == {}
      && v in s4.silenced && Emitted(s3, Event.StopNotification(v)) == {Command(WithdrawV4Route, "1.1.1.1/32")}
      && Count(s5, v) == 0 && v in s5.table && Emitted(s4, Event.WithdrawService(v)) == {}
      && v !in s6.silenced && Emitted(s5, Event.StartNotification(v)) == {}
  {
    V4Example(v);
    DottedRoute(v);
    assert v + "/32" == "1.1.1.1/32";
  }

  /** Silence holds whatever the refcount: an advertisement while silenced sends nothing. */
  lemma SilenceScenario(v: string)
    requires RouteOf(v).Some?
    ensures var s1 := Next(Initial, Event.AdvertiseService(v));
      var s2 := Next(s1, Event.StopNotification(v));
      && Emitted(Initial, Event.AdvertiseService(v)) == {RouteCommand(Add, RouteOf(v).value)}
      && Emitted(s1, Event.StopNotification(v)) == {RouteCommand(Withdraw, RouteOf(v).value)}
      && Emitted(s2, Event.AdvertiseService(v)) == {}
      && Count(Next(s2, Event.AdvertiseService(v)), v) == 2
  {
    RouteCommandsSingle(Add, v);
    RouteCommandsSingle(Withdraw, v);
  }
}
