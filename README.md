# go_keepalived: the BGP notifier and the configuration reader, in Dafny

go_keepalived is a load-balancer control daemon. This project models two of its parts.

**The BGP notifier** (`notifier/bgp_notifier.go`) is a single-consumer event loop. It tells a BGP speaker which service VIPs (virtual IP addresses) to announce as host routes. It owns three pieces of state:

- a refcount per VIP, because several services may share one VIP;
- a set of individually silenced VIPs;
- a global mute flag.

Each inbound message is one of eight events:

- `AdvertiseService` / `WithdrawService`;
- `StopNotification` / `StartNotification`;
- `StopAllNotification` / `StartAllNotification`;
- `AddPeer` / `RemovePeer`.

Each event becomes zero or more commands to the speaker: `AddV4Route`, `WithdrawV4Route`, `AddV6Route`, `WithdrawV6Route`, `AddNeighbour`, `RemoveNeighbour`.

- A dotted IPv4 VIP is announced as `<vip>/32`.
- A bracketed IPv6 VIP `[<inner>]` is announced as `<inner>/128`. This is the address/prefix-length notation of section 2.3 of RFC 4291.
- A peer is sent as its IPv4 text, or otherwise as `[<addr>] inet6`.

**The configuration reader** (the scanning loop of `ReadCfg` in `cfgparser/cfgparser.go`) reads the configuration file line by line. It keeps a brace-depth counter and four section flags: general, service, notifier and api. It fills the service, real-server, notifier and API records field by field, and keeps every valid service. It stops at the first bad line.

## How the model is organised

The notifier is modelled in two layers:

- **Specification.** `NotifierSpec.Next` and `NotifierSpec.Emitted` are pure functions. They give the new state and the set of commands for one event.
- **Implementation.** The class `BgpNotifier.Notifier` mutates its fields (`serviceTable`, `silencedServices`, `stopAllNotifications`) as the Go loop does. The outbound channel is the `sent` sequence. Each method's contract ties the new state to `Next` and the appended commands to `Emitted`.

The two global events walk the table in Go's unspecified map order. They are modelled by choosing any unvisited key. Their output is specified as a multiset: any sending order of the emitted commands. `Notifier.Run` handles a finite prefix of the inbound channel. It ends in the state `Replay` gives, and it sends, event after event, a sending order of each event's commands.

`Rib` models the speaker's routing table as a set of routes, and the target invariant `Consistent`: the speaker holds exactly the routes of the VIPs that are advertised (count > 0, not silenced, not muted). `TraceConsistent` proves the invariant is kept along a whole trace of safe steps.

The configuration reader is modelled in three modules:

- `CfgParser.StepLine` is the body of the loop for one line, given as its fields. `CfgParser.Fields` models `strings.Fields`. `CfgParser.ParseFrom` reads the remaining lines.
- `CfgReader.ReadCfg` is the loop itself. It is proved equal to `CfgParser.Parse`.
- `CfgProperties` states what the reader accepts, which error it reports, and that its state stays well formed.

Every `os.Exit(-1)` becomes `Failure(CfgError(line, kind))`. An out-of-range field access, which panics in Go, is the `IndexOutOfRange` error.

### Behaviour modelled as the code has it

- **StartAllNotification ignores individual silences.** It announces every VIP with a positive count, silenced or not, but it leaves those VIPs in the silence set. The speaker then holds a route for a VIP that the notifier does not count as advertised. `Rib.StartAllConsistency` states exactly when the invariant survives. `Rib.StaleRoute` gives a trace that breaks it.
- **StopNotification tests whether the VIP is a table key, not its count.** A key whose count has fallen to 0 is withdrawn again. See `NotifierProperties.StopEdge`.
- **The refcount is a Go `uint32` with no overflow check** (a to-do note at `notifier/bgp_notifier.go:20` asks for an overflow check). It is modelled as a number below 2^32 that wraps to 0. `NotifierProperties.AdvertiseWraps` and `Rib.WrapBreaksConsistency` show what the wrap does. The properties that need no wrap say so in their `requires`.
- **The `general`, `notifier` and `api` header tests combine the field-count test and the `{` test with `&&`** (cfgparser lines 108, 117, 133). Consequences:
  - `general foo` opens the general section (`CfgProperties.GeneralAcceptsAnyWord`);
  - at depth 0 a bare `general`, and at depth 1 a bare `api` or a `notifier` with fewer than three fields, reads a field that is not there (`IndexOutOfRange`). At any other depth the depth test fails first, and the section's own syntax error is reported.
- **A `real` line outside a service is not a header.** It falls through to the settings and is ignored (`CfgProperties.RealIgnoredOutsideService`).
- **Settings are read only on lines of two or more fields.** A bare `http` does not enable the HTTP API (`CfgProperties.SingleWordIgnored`).
- **Sections still open at the end of the file are not an error.** An unclosed service is dropped. The notifier and API settings read so far are kept (`CfgParser.Finish`).

## Model

| member | source | states |
|---|---|---|
| BgpNotifier.Notifier.constructor | notifier/bgp_notifier.go:22-24 | the notifier starts with an empty refcount table, no silenced VIP, mute off, and nothing sent |
| BgpNotifier.Notifier.SendRoute | notifier/bgp_notifier.go:41-55 | sends exactly the command for the VIP's host route: `<vip>/32` for dotted IPv4, `<inner>/128` for bracketed IPv6, nothing for any other text |
| BgpNotifier.Notifier.AdvertiseService | notifier/bgp_notifier.go:28-55 | the new state is `Next` of AdvertiseService, and what it appends to the channel is a sending order of the commands `Emitted` gives |
| BgpNotifier.Notifier.WithdrawService | notifier/bgp_notifier.go:56-86 | the same for WithdrawService: new state `Next`, commands `Emitted` |
| BgpNotifier.Notifier.StopNotification | notifier/bgp_notifier.go:87-109 | the same for StopNotification |
| BgpNotifier.Notifier.StartNotification | notifier/bgp_notifier.go:110-134 | the same for StartNotification |
| BgpNotifier.Notifier.StopAllVisit | notifier/bgp_notifier.go:138-158 | one step of the StopAll walk: a silenced key loses its silence; otherwise a key with a non-zero count is withdrawn |
| BgpNotifier.Notifier.WithdrawAll | notifier/bgp_notifier.go:137-159 | walking all keys in any order clears every key's silence and sends the Withdraw of every live, unsilenced key, each exactly once |
| BgpNotifier.Notifier.StopAllNotification | notifier/bgp_notifier.go:135-159 | new state `Next` of StopAllNotification (mute on, silences of table keys cleared); commands a sending order of `Emitted` |
| BgpNotifier.Notifier.StartAllVisit | notifier/bgp_notifier.go:163-179 | one step of the StartAll walk: a key with a positive count is announced |
| BgpNotifier.Notifier.AnnounceAll | notifier/bgp_notifier.go:162-180 | walking all keys in any order sends the Add of every key with a positive count, each exactly once |
| BgpNotifier.Notifier.StartAllNotification | notifier/bgp_notifier.go:160-180 | new state `Next` of StartAllNotification (mute off); commands a sending order of `Emitted` |
| BgpNotifier.Notifier.AddPeer | notifier/bgp_notifier.go:181-194 | state unchanged; sends one AddNeighbour with the IPv4 text, or `[addr] inet6` |
| BgpNotifier.Notifier.RemovePeer | notifier/bgp_notifier.go:195-208 | state unchanged; sends one RemoveNeighbour, formatted the same way |
| BgpNotifier.Notifier.Step | notifier/bgp_notifier.go:27-210 | the `switch` on the event kind: new state `Next`, commands a sending order of `Emitted` |
| BgpNotifier.Notifier.Handle | notifier/bgp_notifier.go:26-27 | a message whose tag has no case changes nothing and sends nothing; any other is handled as its event |
| BgpNotifier.Notifier.Run | notifier/bgp_notifier.go:25-212 | after a finite sequence of messages the state is the replay of their events, and everything sent is, event after event, a sending order of each event's commands |
| NotifierMessages.DecodeEncode | notifier/bgp_notifier.go:27-210 | each of the eight tags selects its own event, and decoding inverts encoding |
| NotifierMessages.RouteOfFamily | notifier/bgp_notifier.go:41-54 | a VIP has a route exactly when it is dotted IPv4 or bracketed IPv6, and the family follows the shape |
| NotifierMessages.RouteOfRoundTrip | notifier/bgp_notifier.go:42-50 | the VIP can be read back from its route prefix: drop the prefix length, and put brackets back for IPv6 |
| NotifierMessages.RouteOfInjective | notifier/bgp_notifier.go:41-54 | two VIPs with the same route are the same VIP |
| NotifierMessages.RouteCommandRoundTrip | notifier/bgp_notifier.go:43-53 | a route command names its action and its route, and both can be read back from it |
| NotifierMessages.NeighbourRoundTrip | notifier/bgp_notifier.go:182-207 | the peer address can be read back from its neighbour descriptor |
| AddressShape.Inner | notifier/bgp_notifier.go:48-50 | the first capture group of the IPv6 shape is the VIP with its two brackets removed |
| AddressShape.V4Shape | notifier/bgp_notifier.go:12 | a dotted-IPv4 text has 7 to 15 characters, all digits and dots, and starts with a digit |
| AddressShape.V6Shape | notifier/bgp_notifier.go:13 | a bracketed-IPv6 text has only hex digits and colons between its brackets, and at most 42 characters in all |
| AddressShape.V4NotV6 | notifier/bgp_notifier.go:41-49 | no text has both shapes, so the order in which the two shapes are tested does not matter |
| NotifierSpec.Incremented | notifier/bgp_notifier.go:29-37 | defines the refcount after one more advertisement: an absent VIP starts at 1, a present one is incremented as a uint32, wrapping to 0 |
| NotifierSpec.Next | notifier/bgp_notifier.go:28-210 | defines the state after each event. Advertise sets the count to `Incremented`. Withdraw decrements a present non-zero count. Stop adds the silence unless the VIP is silenced already or all is muted. Start removes the silence unless all is muted. StopAll mutes and clears the silences of table keys. StartAll unmutes. Peer events change nothing |
| NotifierSpec.EmittedVips | notifier/bgp_notifier.go:28-180 | defines which VIPs each event sends a route command for. Advertise: the count becomes at most 1, is not silenced, is not muted. Withdraw: the count is 1, not silenced, not muted. Stop: a key, not silenced, not muted. Start: silenced, not muted, positive count. StopAll: the live unsilenced keys. StartAll: every key with a positive count |
| NotifierSpec.Emitted | notifier/bgp_notifier.go:28-208 | defines the commands of each event: the route commands of its `EmittedVips` with the event's action, or one neighbour command for a peer event |
| NotifierMessages.Decode | notifier/bgp_notifier.go:27-210 | defines the event each of the eight tags selects; any other tag selects none |
| NotifierMessages.RouteOf | notifier/bgp_notifier.go:41-54 | defines a VIP's route: `<vip>/32` under V4 for the dotted shape, the bracketed VIP's inner text with `/128` under V6, none otherwise |
| NotifierMessages.NeighbourData | notifier/bgp_notifier.go:182-207 | defines the neighbour descriptor: the IPv4 text itself, or `[addr] inet6` |
| AddressShape.IsV4 | notifier/bgp_notifier.go:12 | defines the dotted-IPv4 shape: four groups of one to three digits separated by dots, matched against the whole text (the same pattern as cfgparser/cfgparser.go:23) |
| AddressShape.IsV6Bracketed | notifier/bgp_notifier.go:13 | defines the bracketed-IPv6 shape: `[`, at most eight pieces of up to four hex digits each followed by an optional colon (a piece may be empty, so `[]` matches), and `]` (the same language as cfgparser/cfgparser.go:24) |
| AddressShape.IsNumber | cfgparser/cfgparser.go:25 | defines the all-digits shape: one or more decimal digits |
| CfgParser.IsServiceAddress | cfgparser/cfgparser.go:65-66 | defines the service addresses: the IPv4, bracketed-IPv6 or all-digits shape |
| CfgParser.IsRealAddress | cfgparser/cfgparser.go:93 | defines the real server addresses: the IPv4 or bracketed-IPv6 shape |
| CfgParser.Fields | cfgparser/cfgparser.go:49 | defines `strings.Fields`: the maximal runs of non-white-space characters, in order |
| CfgParser.Join | cfgparser/cfgparser.go:184 | defines `strings.Join` with one space, as used for the free-text settings (also at 210-216) |
| CfgParser.CloseInner | cfgparser/cfgparser.go:144-155 | defines closing at depth 2: inside a service the real server is appended and reset; the notifier and api sections end; the depth becomes 1 |
| CfgParser.CloseOuter | cfgparser/cfgparser.go:156-171 | defines closing at depth 1: a service is kept when `valid` and is reset; service and general sections end; the depth becomes 0 |
| CfgParser.ApiSetting | cfgparser/cfgparser.go:236-243 | defines the api settings: `http` enables the HTTP API, `password` sets the master password, anything else is ignored |
| CfgParser.ParseFrom | cfgparser/cfgparser.go:47-247 | defines reading the remaining lines one at a time, numbered from `line`, stopping at the first error |
| CfgParser.Finish | cfgparser/cfgparser.go:248-253 | defines what the reader hands on: the kept services, the notifier settings, the adapter, the API settings and the testing flag |
| BgpNotifier.Notifier.Send | notifier/bgp_notifier.go:43-45 | one send on the channel to the speaker appends exactly that command |
| BgpNotifier.Notifier.SendRouteFor | notifier/bgp_notifier.go:41-55 | for an event that emits the route command of one VIP, sends exactly a sending order of that event's commands |
| NotifierSpec.RouteCommandsSingle | notifier/bgp_notifier.go:41-55 | one VIP yields its own route command if it has a route, and none otherwise |
| NotifierSpec.RouteCommandsMember | notifier/bgp_notifier.go:137-158 | a VIP's route command is among the commands for a set of VIPs exactly when the VIP is in the set |
| NotifierSpec.VisitOne | notifier/bgp_notifier.go:137-180 | visiting one more key of the table adds its command exactly when the key is among the chosen ones |
| NotifierSpec.ProducesHandle | notifier/bgp_notifier.go:25-27 | handling one more message extends the replayed state by its event and the output by that event's commands |
| NotifierProperties.OtherVipsUnaffected | notifier/bgp_notifier.go:28-134 | an event about one VIP leaves every other VIP's table membership, refcount and silence, and the mute flag, unchanged |
| NotifierProperties.AtMostOneCommand | notifier/bgp_notifier.go:28-134 | any event other than the two global ones sends at most one command |
| NotifierProperties.AdvertiseCounts | notifier/bgp_notifier.go:29-37 | AdvertiseService makes the VIP a key; an absent VIP gets count 1, a present one is incremented modulo 2^32 |
| NotifierProperties.AdvertiseEdge | notifier/bgp_notifier.go:29-55 | without wrap-around, an Add is sent exactly when the VIP becomes advertised, and afterwards the VIP is advertised exactly when it is not silenced and not muted |
| NotifierProperties.AdvertiseWraps | notifier/bgp_notifier.go:20-40 | at count 2^32 - 1 an advertisement wraps the count to 0 and sends an Add, and the VIP goes from advertised to not advertised |
| NotifierProperties.WithdrawNoop | notifier/bgp_notifier.go:57-68 | WithdrawService on an absent VIP or one with count 0 changes nothing and sends nothing |
| NotifierProperties.WithdrawDecrements | notifier/bgp_notifier.go:57-61 | WithdrawService takes exactly 1 off a positive count, and the VIP stays a key of the table, even at count 0 |
| NotifierProperties.WithdrawEdge | notifier/bgp_notifier.go:57-86 | a Withdraw is sent exactly when the VIP stops being advertised, and WithdrawService never makes it advertised |
| NotifierProperties.ShareSafety | notifier/bgp_notifier.go:61-65 | while another service still holds the VIP (count >= 2), a withdrawal sends nothing and the VIP stays as advertised as it was |
| NotifierProperties.StopEdge | notifier/bgp_notifier.go:88-109 | no VIP is advertised after StopNotification; it sends a Withdraw exactly when the VIP was advertised, or is a key with count 0 that is neither silenced nor muted |
| NotifierProperties.StopIdempotent | notifier/bgp_notifier.go:88-91 | a second StopNotification changes nothing and sends nothing |
| NotifierProperties.StartEdge | notifier/bgp_notifier.go:111-134 | StartNotification sends an Add exactly when the VIP becomes advertised, and never un-advertises it |
| NotifierProperties.StartIdempotent | notifier/bgp_notifier.go:111-114 | a second StartNotification changes nothing and sends nothing |
| NotifierProperties.StopAllPerVip | notifier/bgp_notifier.go:136-158 | StopAll withdraws a routable VIP exactly when it is a live, unsilenced key, and announces nothing; afterwards nothing is advertised and no key is silenced |
| NotifierProperties.StartAllPerVip | notifier/bgp_notifier.go:161-179 | StartAll announces a routable VIP exactly when its count is positive, silenced or not, and withdraws nothing |
| NotifierProperties.StopAllForgetsSilence | notifier/bgp_notifier.go:136-179 | after StopAll then StartAll, a VIP is advertised exactly when its count is positive |
| NotifierProperties.MutedIgnoresSilenceEvents | notifier/bgp_notifier.go:88-113 | while muted, StopNotification and StartNotification change nothing and send nothing |
| NotifierExamples.DottedRoute | notifier/bgp_notifier.go:41-45 | a dotted IPv4 VIP is announced and withdrawn as `<vip>/32` with the V4 commands |
| NotifierExamples.V4Example | notifier/bgp_notifier.go:12 | `1.1.1.1`, `10.0.0.1` and `10.0.0.2` have the IPv4 shape |
| NotifierExamples.V6Example | notifier/bgp_notifier.go:13 | `[2001:db8::1]` has the bracketed IPv6 shape, with inner text `2001:db8::1` |
| NotifierExamples.AddressFamilyV4 | notifier/bgp_notifier.go:36-45 | the first advertisement of `10.0.0.1` sends `AddV4Route 10.0.0.1/32` |
| NotifierExamples.BracketedRoute | notifier/bgp_notifier.go:46-54 | a bracketed IPv6 VIP is announced and withdrawn as `<inner>/128` with the V6 commands |
| NotifierExamples.AddressFamilyV6 | notifier/bgp_notifier.go:46-54 | the first advertisement of `[2001:db8::1]` sends `AddV6Route 2001:db8::1/128` |
| NotifierExamples.ColonNotV4 | notifier/bgp_notifier.go:12 | a text with a colon never has the IPv4 shape |
| NotifierExamples.PeerFormattingV4 | notifier/bgp_notifier.go:182-199 | a dotted IPv4 peer is sent unchanged, for adding and for removing |
| NotifierExamples.PeerExampleV4 | notifier/bgp_notifier.go:182-185 | AddPeer `10.0.0.2` sends `AddNeighbour 10.0.0.2` |
| NotifierExamples.PeerFormattingV6 | notifier/bgp_notifier.go:186-207 | peer `2001:db8::2` is sent as `[2001:db8::2] inet6`, for adding and for removing |
| NotifierExamples.SharedVipScenario | notifier/bgp_notifier.go:29-119 | two services on one VIP, then silence: the route is added once, kept while one service is left, withdrawn by the silence, and not re-added when the silence ends after the last service has gone |
| NotifierExamples.SilenceScenario | notifier/bgp_notifier.go:29-94 | a silenced VIP is not announced by further advertisements, though its count still grows |
| Rib.EmittedIsRouteCommands | notifier/bgp_notifier.go:28-180 | what a route event sends is the route commands of the VIPs it selects, all with the event's action |
| Rib.SentRoutes | notifier/bgp_notifier.go:137-180 | any sending order of a walk's commands names exactly the routes of the walked VIPs |
| Rib.ApplySent | notifier/bgp_notifier.go:28-180 | an event's commands add (or remove) exactly the routes of the VIPs it selects in the speaker's table |
| Rib.AdvertisedStep | notifier/bgp_notifier.go:28-159 | how each route event other than StartAll changes the set of advertised VIPs |
| Rib.StepKeepsConsistent | notifier/bgp_notifier.go:28-208 | a safe step keeps the speaker's table equal to the routes of the advertised VIPs |
| Rib.StartAllConsistency | notifier/bgp_notifier.go:160-180 | StartAll keeps the speaker's table consistent exactly when no routable live VIP is silenced |
| Rib.TraceConsistent | notifier/bgp_notifier.go:25-212 | along a trace of safe steps, the speaker's table stays equal to the routes of the advertised VIPs |
| Rib.StaleRoute | notifier/bgp_notifier.go:88-180 | Advertise, Stop, StartAll, Withdraw on one VIP sends Add, Withdraw, Add and then nothing, so the speaker keeps the route of a VIP whose count is 0 |
| Rib.WrapBreaksConsistency | notifier/bgp_notifier.go:20-40 | the refcount wrap leaves a route at the speaker for a VIP whose count is 0 |
| Numbers.ParseUint32 | cfgparser/cfgparser.go:222-228 | an accepted ASN is below 2^32 |
| Numbers.Atoi | cfgparser/cfgparser.go:186-192 | an accepted integer is in the 64-bit range |
| Numbers.ParseUint32Decimal | cfgparser/cfgparser.go:222-228 | the decimal text of a number is accepted as that number exactly when it is below 2^32 |
| Numbers.AtoiDecimal | cfgparser/cfgparser.go:186-192 | the signed decimal text of every 64-bit integer reads back as that integer |
| Numbers.AtoiRejectsEmpty | cfgparser/cfgparser.go:186-191 | the empty text and a bare sign are not integers |
| CfgParser.ServiceSetting | cfgparser/cfgparser.go:179-208 | a setting directly inside a service keeps the service's VIP and real servers, and a rejected one names its line |
| CfgParser.RealSetting | cfgparser/cfgparser.go:209-218 | a setting inside a real server block keeps the real server's address and port |
| CfgParser.NotifierSetting | cfgparser/cfgparser.go:220-235 | the only error inside the notifier section is an ASN that is not a 32-bit unsigned number |
| CfgParser.Setting | cfgparser/cfgparser.go:177-246 | a rejected setting names its own line |
| CfgParser.StepLine | cfgparser/cfgparser.go:53-246 | a rejected line is reported with its own line number |
| CfgParser.Word | cfgparser/cfgparser.go:49 | a field is the longest prefix without white space |
| CfgParser.ReadLine | cfgparser/cfgparser.go:48-52 | a blank line is never rejected, and a rejected line names itself |
| CfgReader.ReadCfg | cfgparser/cfgparser.go:44-247 | the loop's result is `Parse` of the lines; an error names a non-blank line of the file, counted from 1; every service it keeps is valid, has a VIP of an address shape, and has real servers with IPv4 or bracketed IPv6 addresses |
| CfgProperties.FieldsAreWords | cfgparser/cfgparser.go:49 | every field is non-empty and free of white space |
| CfgProperties.FieldsJoin | cfgparser/cfgparser.go:184 | joining fields with single spaces and splitting again gives the same fields |
| CfgProperties.FreeTextRoundTrip | cfgparser/cfgparser.go:184 | the text a free-form setting keeps splits back into the words it was made of |
| CfgProperties.ServiceLine | cfgparser/cfgparser.go:53-80 | a `service` header is accepted exactly when it has at least four fields, no section is open, the VIP has an address shape and field 3 is `{`. The tests run in the source's order, and each failure names its line and kind: too few fields or a missing `{` is ServiceSyntax, an open section ServiceNested, a bad address ServiceAddress. Acceptance records VIP and port and opens one section |
| CfgProperties.RealLine | cfgparser/cfgparser.go:81-106 | inside a service, a `real` header is accepted exactly when it has at least four fields, only the service is open, the address is IPv4 or bracketed IPv6 and field 3 is `{`. Each failure names its line and kind, in the source's order: too few fields or a missing `{` is RealSyntax, a wrong depth RealNesting, a bad address RealAddress. Acceptance records address and port |
| CfgProperties.NumberIsServiceOnly | cfgparser/cfgparser.go:65-66 | an all-digits VIP is accepted for a service but not for a real server |
| CfgProperties.RealIgnoredOutsideService | cfgparser/cfgparser.go:81 | a `real` line outside a service changes nothing |
| CfgProperties.GeneralHeader | cfgparser/cfgparser.go:107-115 | `general` is accepted exactly when no section is open and field 1 is `{` or the last field; a bare `general` at depth 0 reads a missing field; every other failure is a general syntax error |
| CfgProperties.GeneralAcceptsAnyWord | cfgparser/cfgparser.go:108 | `general <anything>` opens the general section |
| CfgProperties.NotifierHeader | cfgparser/cfgparser.go:116-124 | `notifier` is accepted exactly when the general section is the one open section and field 2 is `{` or the last field; it records the kind; fewer than three fields at depth 1 reads a missing field |
| CfgProperties.AdapterLine | cfgparser/cfgparser.go:125-131 | `adapter` needs exactly two fields inside the general section, and names the adapter |
| CfgProperties.ApiHeader | cfgparser/cfgparser.go:132-140 | `api` is accepted exactly when the general section is the one open section and field 1 is `{` or the last field; it enables the API; a bare `api` at depth 1 reads a missing field |
| CfgProperties.TestingLine | cfgparser/cfgparser.go:141-142 | `testing` sets the testing flag anywhere |
| CfgProperties.CloseLine | cfgparser/cfgparser.go:143-176 | a `}` is an error exactly when no section is open, and otherwise closes one section |
| CfgProperties.CloseReal | cfgparser/cfgparser.go:144-148 | closing a real server block appends the real server to the service and starts a fresh one |
| CfgProperties.CloseService | cfgparser/cfgparser.go:156-171 | closing a service keeps it exactly when it is valid, resets it and leaves every section |
| CfgProperties.CloseSubsection | cfgparser/cfgparser.go:144-155 | closing the notifier or api section returns to the general section and keeps what was read |
| CfgProperties.IntegerSetting | cfgparser/cfgparser.go:185-208 | `quorum`, `timeout`, `hysteresis` directly inside a service are accepted exactly when they are integers, each with its own error |
| CfgProperties.QuorumDecimal | cfgparser/cfgparser.go:185-192 | a decimal quorum reads back as its value |
| CfgProperties.ServiceTextSetting | cfgparser/cfgparser.go:179-184 | `proto` and `scheduler` set their fields; `meta` keeps the rest of the line |
| CfgProperties.RealTextSetting | cfgparser/cfgparser.go:209-217 | `check`, `meta`, `weight` in a real server block keep the rest of the line, which splits back into the same words |
| CfgProperties.MisplacedSettingIgnored | cfgparser/cfgparser.go:179-218 | a service setting inside a real server block, or a real server setting directly in a service, is ignored, however malformed |
| CfgProperties.AsnLine | cfgparser/cfgparser.go:221-228 | `ASN` is accepted exactly when it is a decimal below 2^32, and sets the ASN |
| CfgProperties.AsnDecimal | cfgparser/cfgparser.go:221-228 | every 32-bit ASN written in decimal is accepted as itself |
| CfgProperties.ListenLine | cfgparser/cfgparser.go:229-232 | `listen enable` turns local listening on; any other `listen` changes nothing |
| CfgProperties.NeighbourLine | cfgparser/cfgparser.go:233-234 | `neighbour X` appends X to the neighbours |
| CfgProperties.NeighboursInOrder | cfgparser/cfgparser.go:233-234 | a run of `neighbour` lines lists the neighbours in file order |
| CfgProperties.ApiSetting | cfgparser/cfgparser.go:236-243 | `http` enables the HTTP API, `password P` sets the master password |
| CfgProperties.SingleWordIgnored | cfgparser/cfgparser.go:177 | a one-field line that opens or closes nothing changes nothing |
| CfgProperties.DepthStep | cfgparser/cfgparser.go:78-171 | an accepted line opens one section, closes one, or leaves the depth as it was |
| CfgProperties.StepKeepsWellFormed | cfgparser/cfgparser.go:53-246 | an accepted line keeps the depth at most 2 with sections properly nested, and keeps every stored service valid and well addressed |
| CfgProperties.ParseKeepsWellFormed | cfgparser/cfgparser.go:47-247 | any number of lines keep the state well formed |
| CfgProperties.ParsedServicesGood | cfgparser/cfgparser.go:47-247 | every service the reader hands on is valid and well addressed |
| CfgProperties.ParseConcat | cfgparser/cfgparser.go:47-247 | reading a piece of a file that is accepted in full, then the rest, is reading the whole file |
| CfgProperties.ParseConcatFailure | cfgparser/cfgparser.go:47-247 | a piece of a file that is rejected rejects the whole file with the same error |
| CfgProperties.BlankLinesSkipped | cfgparser/cfgparser.go:48-52 | blank lines change nothing but the line count |
| CfgProperties.ParseErrorLine | cfgparser/cfgparser.go:47-247 | the reader stops at the first line it rejects: every earlier line is accepted, and that line is rejected with the reported error |
| CfgProperties.FileErrorLine | cfgparser/cfgparser.go:48 | the error of a whole file names one of its non-blank lines, counted from 1 |
| CfgProperties.ServiceBlock | cfgparser/cfgparser.go:53-171 | a service header followed by `}` files the service exactly when it is valid |
| CfgProperties.RealBlock | cfgparser/cfgparser.go:81-148 | a real server block adds that real server, with the header's address and port, to the service |

## Left out

- The BGP speaker process, both of its channels and the goroutine that starts it (notifier lines 14-17) are not modelled. The outbound channel is the `sent` sequence, and a blocking send is an append. The BGP wire protocol is not in this code.
- The event loop runs forever. `Notifier.Run` models any finite prefix of the inbound channel.
- Go map iteration order in StopAll and StartAll is unspecified. The model chooses any unvisited key, and the properties are stated on the multiset of commands.
- The regular expressions are replaced by structural predicates in `AddressShape`, not by a regex engine.
- `strconv.Atoi` is modelled for a 64-bit `int`, and `strconv.ParseUint(…, 10, 32)` as a digit-string parser. Go's error values are `None`.
- Opening and scanning the file, `fmt.Println` and `os.Exit` are not modelled: the file is a sequence of lines and an exit is an error result. The scanner's maximum token size is not modelled either.
- `service.IsServiceValid` is a parameter, `valid`.
- `srvc.AddReal` and `sl.Add` are appends to sequences.
- The defaults that `Service.Init` sets live in a package that is not part of this model. A fresh service has all fields empty or 0.
- `sl.AddNotifier`, `sl.StartAdapter` and the `api.InitAPI` goroutine (cfgparser lines 248-252) are calls into packages that are not part of this model. `CfgParser.Finish` hands on what they would receive.
- `CfgParser.Fields` splits on Unicode white space over characters, not over UTF-8 bytes.
- main/go_keepalived.go, which checks arguments, prints and waits, is not part of this model.
