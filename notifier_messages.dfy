/**
 * The vocabulary at the two boundaries of the BGP notifier: the messages it
 * receives on its inbound channel and the commands it sends to the BGP
 * speaker, with the formatting rules that turn a VIP into a host route and a
 * peer address into a neighbour descriptor.
 */
module NotifierMessages {
  import opened Wrappers
  import opened AddressShape

  /** A message on the inbound channel: a type tag and a textual address. */
  datatype NotifierMsg = NotifierMsg(kind: string, data: string)

  /** The eight message types the notifier's `switch` handles. */
  datatype Event =
    | AdvertiseService(vip: string)
    | WithdrawService(vip: string)
    | StopNotification(vip: string)
    | StartNotification(vip: string)
    | StopAllNotification
    | StartAllNotification
    | AddPeer(peer: string)
    | RemovePeer(peer: string)

  /** The `switch` on the type tag; a tag it has no case for selects nothing. */
  function Decode(m: NotifierMsg): Option<Event>
  {
    match m.kind
    case "AdvertiseService" => Some(AdvertiseService(m.data))
    case "WithdrawService" => Some(WithdrawService(m.data))
    case "StopNotification" => Some(StopNotification(m.data))
    case "StartNotification" => Some(StartNotification(m.data))
    case "StopAllNotification" => Some(StopAllNotification)
    case "StartAllNotification" => Some(StartAllNotification)
    case "AddPeer" => Some(AddPeer(m.data))
    case "RemovePeer" => Some(RemovePeer(m.data))
    case _ => None
  }

  /** The message a producer sends for an event (the two global events carry no address). */
  function Encode(e: Event): NotifierMsg
  {
    match e
    case AdvertiseService(v) => NotifierMsg("AdvertiseService", v)
    case WithdrawService(v) => NotifierMsg("WithdrawService", v)
    case StopNotification(v) => NotifierMsg("StopNotification", v)
    case StartNotification(v) => NotifierMsg("StartNotification", v)
    case StopAllNotification => NotifierMsg("StopAllNotification", "")
    case StartAllNotification => NotifierMsg("StartAllNotification", "")
    case AddPeer(p) => NotifierMsg("AddPeer", p)
    case RemovePeer(p) => NotifierMsg("RemovePeer", p)
  }

  predicate IsGlobal(e: Event) { e.StopAllNotification? || e.StartAllNotification? }

  /** Decoding inverts encoding, and a decoded event keeps the message's tag and, where it has one, its address. */
  lemma DecodeEncode(e: Event, m: NotifierMsg)
    ensures Decode(Encode(e)) == Some(e)
    ensures Decode(m) == Some(e) ==> Encode(e).kind == m.kind && (!IsGlobal(e) ==> Encode(e) == m)
  {
  }

  /** An address family of the BGP speaker's routing table. */
  datatype Family = V4 | V6

  /** A host route, as the textual prefix `address/length` the BGP speaker is sent. */
  datatype Route = Route(family: Family, prefix: string)

  /** What a route command does with its route. */
  datatype Action = Add | Withdraw

  /** The command names the BGP speaker accepts. */
  datatype CommandKind = AddV4Route | WithdrawV4Route | AddV6Route | WithdrawV6Route | AddNeighbour | RemoveNeighbour

  /** A message on the outbound channel: command name and payload. */
  datatype Command = Command(kind: CommandKind, data: string)

  /**
   * The host route for a VIP: a dotted IPv4 text gets the prefix length 32,
   * a bracketed IPv6 text loses its brackets and gets the prefix length 128
   * (the address/prefix-length notation of section 2.3 of RFC 4291);
   * any other text has no route.
   */
  function RouteOf(vip: string): Option<Route>
  {
    if IsV4(vip) then Some(Route(V4, vip + "/32"))
    else if IsV6Bracketed(vip) then Some(Route(V6, Inner(vip) + "/128"))
    else None
  }

  /** The command that adds or withdraws a route. */
  function RouteCommand(a: Action, r: Route): Command
  {
    Command(
      match (a, r.family)
      case (Add, V4) => AddV4Route
      case (Withdraw, V4) => WithdrawV4Route
      case (Add, V6) => AddV6Route
      case (Withdraw, V6) => WithdrawV6Route,
      r.prefix)
  }

  /** The route a route command is about, and what it does with it; neighbour commands have none. */
  function CommandRoute(c: Command): Option<(Action, Route)>
  {
    match c.kind
    case AddV4Route => Some((Add, Route(V4, c.data)))
    case WithdrawV4Route => Some((Withdraw, Route(V4, c.data)))
    case AddV6Route => Some((Add, Route(V6, c.data)))
    case WithdrawV6Route => Some((Withdraw, Route(V6, c.data)))
    case _ => None
  }

  /** The VIP a route was built from: the prefix without its length, IPv6 put back in brackets. */
  function RouteVip(r: Route): Option<string>
  {
    var p := r.prefix;
    match r.family
    case V4 => if |p| >= 3 && p[|p| - 3..] == "/32" then Some(p[..|p| - 3]) else None
    case V6 => if |p| >= 4 && p[|p| - 4..] == "/128" then Some("[" + p[..|p| - 4] + "]") else None
  }

  /**
   * The neighbour descriptor for a peer address: a dotted IPv4 text as it is,
   * anything else taken for a bare IPv6 address and sent as `[addr] inet6`.
   */
  function NeighbourData(addr: string): string
  {
    if IsV4(addr) then addr else "[" + addr + "] inet6"
  }

  /** AddPeer becomes AddNeighbour, RemovePeer becomes RemoveNeighbour. */
  function NeighbourCommand(a: Action, addr: string): Command
  {
    Command(if a == Add then AddNeighbour else RemoveNeighbour, NeighbourData(addr))
  }

  /** The peer address a neighbour descriptor was built from. */
  function NeighbourPeer(d: string): Option<string>
  {
    if IsV4(d) then Some(d)
    else if |d| >= 8 && d[0] == '[' && d[|d| - 7..] == "] inet6" then Some(d[1..|d| - 7])
    else None
  }

  /** Only the two address shapes have a route, and the family follows the shape. */
  lemma RouteOfFamily(vip: string)
    ensures RouteOf(vip).Some? <==> IsV4(vip) || IsV6Bracketed(vip)
    ensures RouteOf(vip).Some? ==> (RouteOf(vip).value.family == V4 <==> IsV4(vip))
  {
    V4NotV6(vip);
  }

  /** The route prefix is the address followed by its prefix length, and the VIP can be read back from it. */
  lemma RouteOfRoundTrip(vip: string)
    requires RouteOf(vip).Some?
    ensures RouteVip(RouteOf(vip).value) == Some(vip)
  {
    var p := RouteOf(vip).value.prefix;
    if IsV4(vip) {
      assert p[|p| - 3..] == "/32" && p[..|p| - 3] == vip;
    } else {
      var inner := Inner(vip);
      assert p[|p| - 4..] == "/128" && p[..|p| - 4] == inner;
    }
  }

  /** Two VIPs with the same route are the same VIP, so a route command speaks for one VIP only. */
  lemma RouteOfInjective(a: string, b: string)
    requires RouteOf(a).Some? && RouteOf(a) == RouteOf(b)
    ensures a == b
  {
    RouteOfRoundTrip(a);
    RouteOfRoundTrip(b);
  }

  /** A route command names its route and its action, so the speaker can tell both apart. */
  lemma RouteCommandRoundTrip(a: Action, r: Route)
    ensures CommandRoute(RouteCommand(a, r)) == Some((a, r))
  {
  }

  /** The neighbour descriptor is read back as the peer address it came from. */
  lemma NeighbourRoundTrip(addr: string)
    ensures NeighbourPeer(NeighbourData(addr)) == Some(addr)
  {
    if !IsV4(addr) {
      var d := "[" + addr + "] inet6";
      if IsV4(d) {
        V4Shape(d);
        assert false;
      }
      assert d[|d| - 7..] == "] inet6" && d[1..|d| - 7] == addr;
    }
  }
}
