/** Panel bans compiled into one timed nftables table, and what that table drops. */
module IpBans {
  import opened Common

  // ---------------------------------------------------------------------------
  // Which ports are managed
  // ---------------------------------------------------------------------------

  datatype ListenAddress = Loopback | OtherIp | NotAnIp

  datatype Claim = Claim(address: ListenAddress, protocol: string, transport: string, port: int)

  // claims is None when the driver could not be read.
  datatype Core = Core(enabled: bool, claims: Option<seq<Claim>>)

  function LowerChar(c: char): char {
    if 'A' <= c <= 'Z' then c - 'A' + 'a' else c
  }

  function Lower(s: string): string {
    seq(|s|, i requires 0 <= i < |s| => LowerChar(s[i]))
  }

  predicate Counts(c: Claim) {
    !c.address.Loopback? && c.protocol != "accel-ppp-cli"
  }

  predicate ClaimsTcp(c: Claim, port: int) {
    Counts(c) && Lower(c.transport) != "udp" && c.port == port
  }

  predicate ClaimsUdp(c: Claim, port: int) {
    Counts(c) && (Lower(c.transport) == "udp" || c.protocol == "openvpn-clone") && c.port == port
  }

  ghost predicate AnyTcp(claims: seq<Claim>, port: int) {
    exists c :: c in claims && ClaimsTcp(c, port)
  }

  ghost predicate AnyUdp(claims: seq<Claim>, port: int) {
    exists c :: c in claims && ClaimsUdp(c, port)
  }

  ghost predicate CoreTcp(core: Core, port: int) {
    core.enabled && core.claims.Some? && AnyTcp(core.claims.value, port)
  }

  ghost predicate CoreUdp(core: Core, port: int) {
    core.enabled && core.claims.Some? && AnyUdp(core.claims.value, port)
  }

  ghost predicate TcpManaged(cores: seq<Core>, port: int) {
    exists core :: core in cores && CoreTcp(core, port)
  }

  ghost predicate UdpManaged(cores: seq<Core>, port: int) {
    exists core :: core in cores && CoreUdp(core, port)
  }

  lemma OneMoreClaim(claims: seq<Claim>, c: Claim, p: int)
    ensures AnyTcp(claims + [c], p) <==> AnyTcp(claims, p) || ClaimsTcp(c, p)
    ensures AnyUdp(claims + [c], p) <==> AnyUdp(claims, p) || ClaimsUdp(c, p)
  {
    assert c in claims + [c] && forall x :: x in claims ==> x in claims + [c];
  }

  lemma OneMoreCore(cores: seq<Core>, core: Core, p: int)
    ensures TcpManaged(cores + [core], p) <==> TcpManaged(cores, p) || CoreTcp(core, p)
    ensures UdpManaged(cores + [core], p) <==> UdpManaged(cores, p) || CoreUdp(core, p)
  {
    assert core in cores + [core] && forall x :: x in cores ==> x in cores + [core];
  }

  method ClaimedPorts(claims: seq<Claim>, tcp0: set<int>, udp0: set<int>) returns (tcp: set<int>, udp: set<int>)
    ensures forall p :: p in tcp <==> p in tcp0 || AnyTcp(claims, p)
    ensures forall p :: p in udp <==> p in udp0 || AnyUdp(claims, p)
  {
    tcp, udp := tcp0, udp0;
    for i := 0 to |claims|
      invariant forall p :: p in tcp <==> p in tcp0 || AnyTcp(claims[..i], p)
      invariant forall p :: p in udp <==> p in udp0 || AnyUdp(claims[..i], p)
    {
      var claim := claims[i];
      assert claims[..i + 1] == claims[..i] + [claim];
      forall p { OneMoreClaim(claims[..i], claim, p); }
      if claim.address.Loopback? {
        continue;
      }
      if claim.protocol == "accel-ppp-cli" {
        continue;
      }
      if Lower(claim.transport) == "udp" {
        udp := udp + {claim.port};
      } else {
        tcp := tcp + {claim.port};
      }
      if claim.protocol == "openvpn-clone" {
        udp := udp + {claim.port};
      }
    }
    assert claims[..|claims|] == claims;
  }

  /** The managed ports are those claimed, off loopback and outside the accel-ppp console, by an
      enabled core whose claims could be read. */
  method ManagedPorts(cores: seq<Core>) returns (tcp: set<int>, udp: set<int>)
    ensures forall p :: p in tcp <==> TcpManaged(cores, p)
    ensures forall p :: p in udp <==> UdpManaged(cores, p)
  {
    tcp, udp := {}, {};
    for i := 0 to |cores|
      invariant forall p :: p in tcp <==> TcpManaged(cores[..i], p)
      invariant forall p :: p in udp <==> UdpManaged(cores[..i], p)
    {
      var core := cores[i];
      assert cores[..i + 1] == cores[..i] + [core];
      forall p { OneMoreCore(cores[..i], core, p); }
      if !core.enabled {
        continue;
      }
      if core.claims.Some? {
        tcp, udp := ClaimedPorts(core.claims.value, tcp, udp);
      }
    }
    assert cores[..|cores|] == cores;
  }

  // ---------------------------------------------------------------------------
  // The rule set
  // ---------------------------------------------------------------------------

  datatype Address = Address(v6: bool, number: nat)

  // Times are microseconds.
  datatype Ban = Ban(ip: Address, expires: int)

  const SECOND := 1_000_000

  function Max(x: int, y: int): int {
    if x >= y then x else y
  }

  function Seconds(expires: int, now: int): int {
    Max(1, (expires - now) / SECOND)
  }

  // Element timeouts in seconds, by address number, one set per family.
  datatype RuleSet = RuleSet(v4: map<nat, int>, v6: map<nat, int>, tcp: set<int>, udp: set<int>)

  function Put(group: map<nat, int>, number: nat, seconds: int): map<nat, int> {
    group[number := Max(if number in group then group[number] else 0, seconds)]
  }

  function Group(bans: seq<Ban>, now: int, v6: bool): map<nat, int> {
    if bans == [] then map[]
    else
      var last := bans[|bans| - 1];
      var group := Group(bans[..|bans| - 1], now, v6);
      if last.ip.v6 == v6 then Put(group, last.ip.number, Seconds(last.expires, now)) else group
  }

  function Compile(bans: seq<Ban>, tcp: set<int>, udp: set<int>, now: int): RuleSet {
    RuleSet(Group(bans, now, false), Group(bans, now, true), tcp, udp)
  }

  method Script(bans: seq<Ban>, tcp: set<int>, udp: set<int>, now: int) returns (rules: RuleSet)
    ensures rules == Compile(bans, tcp, udp, now)
  {
    var v4: map<nat, int> := map[];
    var v6: map<nat, int> := map[];
    for i := 0 to |bans|
      invariant v4 == Group(bans[..i], now, false) && v6 == Group(bans[..i], now, true)
    {
      assert bans[..i + 1][..i] == bans[..i];
      var row := bans[i];
      var seconds := Max(1, (row.expires - now) / SECOND);
      if row.ip.v6 {
        v6 := Put(v6, row.ip.number, seconds);
      } else {
        v4 := Put(v4, row.ip.number, seconds);
      }
    }
    assert bans[..|bans|] == bans;
    rules := RuleSet(v4, v6, tcp, udp);
  }

  // The timeout of an address is that of its latest ban, and each address with a ban has one.
  ghost predicate IsLatest(bans: seq<Ban>, ip: Address, latest: int) {
    && (exists row :: row in bans && row.ip == ip && row.expires == latest)
    && (forall row :: row in bans && row.ip == ip ==> row.expires <= latest)
  }

  lemma {:induction false} GroupHolds(bans: seq<Ban>, now: int, ip: Address)
    ensures ip.number in Group(bans, now, ip.v6) <==> exists row :: row in bans && row.ip == ip
    ensures ip.number in Group(bans, now, ip.v6) ==>
              exists latest :: IsLatest(bans, ip, latest) && Group(bans, now, ip.v6)[ip.number] == Seconds(latest, now)
  {
    if bans != [] {
      var front, last := bans[..|bans| - 1], bans[|bans| - 1];
      GroupHolds(front, now, ip);
      assert bans == front + [last];
      if last.ip == ip {
        if ip.number in Group(front, now, ip.v6) {
          var latest :| IsLatest(front, ip, latest) && Group(front, now, ip.v6)[ip.number] == Seconds(latest, now);
          assert IsLatest(bans, ip, Max(latest, last.expires));
        } else {
          assert IsLatest(bans, ip, last.expires);
        }
      } else if ip.number in Group(front, now, ip.v6) {
        var latest :| IsLatest(front, ip, latest) && Group(front, now, ip.v6)[ip.number] == Seconds(latest, now);
        assert IsLatest(bans, ip, latest);
      }
    }
  }

  /** Every banned address gets max(1, floor) of the seconds to its latest expiry. */
  lemma TimeoutIsLatestExpiry(bans: seq<Ban>, now: int, ip: Address, latest: int)
    requires IsLatest(bans, ip, latest)
    ensures ip.number in Group(bans, now, ip.v6) && Group(bans, now, ip.v6)[ip.number] == Seconds(latest, now)
  {
    GroupHolds(bans, now, ip);
  }

  /** The order and the repetition of rows do not matter. */
  lemma RowOrderIrrelevant(bans: seq<Ban>, bans': seq<Ban>, tcp: set<int>, udp: set<int>, now: int)
    requires forall row :: row in bans <==> row in bans'
    ensures Compile(bans, tcp, udp, now) == Compile(bans', tcp, udp, now)
  {
    forall v6: bool, number: nat
      ensures number in Group(bans, now, v6) <==> number in Group(bans', now, v6)
      ensures number in Group(bans, now, v6) ==> Group(bans, now, v6)[number] == Group(bans', now, v6)[number]
    {
      var ip := Address(v6, number);
      GroupHolds(bans, now, ip);
      GroupHolds(bans', now, ip);
    }
    assert Group(bans, now, false) == Group(bans', now, false);
    assert Group(bans, now, true) == Group(bans', now, true);
  }

  // ---------------------------------------------------------------------------
  // What a table drops
  // ---------------------------------------------------------------------------

  datatype Transport = Tcp | Udp | OtherTransport

  datatype Packet = Packet(src: Address, transport: Transport, dport: int)

  // The table in the kernel. Each element ends at its own time.
  datatype Table = Table(v4: map<nat, int>, v6: map<nat, int>, tcp: set<int>, udp: set<int>)

  predicate InSet(group: map<nat, int>, number: nat, at: int) {
    number in group && at < group[number]
  }

  // The four drop rules of the input chain, under policy accept.
  predicate Drops(table: Option<Table>, p: Packet, at: int) {
    match table
    case None => false
    case Some(t) =>
      var banned4 := !p.src.v6 && InSet(t.v4, p.src.number, at);
      var banned6 := p.src.v6 && InSet(t.v6, p.src.number, at);
      || (banned4 && p.transport.Tcp? && p.dport in t.tcp)
      || (banned4 && p.transport.Udp? && p.dport in t.udp)
      || (banned6 && p.transport.Tcp? && p.dport in t.tcp)
      || (banned6 && p.transport.Udp? && p.dport in t.udp)
  }

  // ---------------------------------------------------------------------------
  // Applying
  // ---------------------------------------------------------------------------

  datatype ApplyResult = Applied(active: nat) | Failed

  function Active(bans: seq<Ban>, now: int): seq<Ban> {
    if bans == [] then []
    else (if bans[0].expires > now then [bans[0]] else []) + Active(bans[1..], now)
  }

  function Ends(group: map<nat, int>, at: int): map<nat, int> {
    map number | number in group :: at + group[number] * SECOND
  }

  // Adding elements to a set that is there. Kernels differ in whether adding an element that has
  // not run out renews its timeout.
  function Added(there: map<nat, int>, ends: map<nat, int>, at: int, renews: bool): map<nat, int> {
    map number | number in there.Keys + ends.Keys ::
      if number !in ends || (number in there && at < there[number] && !renews) then there[number] else ends[number]
  }

  // nft -f: the script applies whole or not at all. Without a delete line it adds to the table
  // that is there.
  function LoadScript(table: Option<Table>, deleteFirst: bool, rules: RuleSet, at: int, renews: bool): Table {
    var v4, v6 := Ends(rules.v4, at), Ends(rules.v6, at);
    if table.None? || deleteFirst then Table(v4, v6, rules.tcp, rules.udp)
    else
      var there := table.value;
      Table(Added(there.v4, v4, at, renews), Added(there.v6, v6, at, renews), there.tcp + rules.tcp, there.udp + rules.udp)
  }

  // What a call has decided to do once it has looked for the table.
  datatype Plan = Answer(result: ApplyResult) | Delete | Load(deleteFirst: bool, rules: RuleSet, active: nat)

  // nft: whether the tool is installed.
  function PlanStep(table: Option<Table>, bans: seq<Ban>, tcp: set<int>, udp: set<int>, now: int, nft: bool): Plan {
    var active := Active(bans, now);
    if !nft then Answer(Failed)
    else if active == [] then if table.None? then Answer(Applied(0)) else Delete
    else Load(table.Some?, Compile(active, tcp, udp, now), |active|)
  }

  // ok: nothing else is wrong with the nft command; deleting a table that is not there fails. at:
  // when the kernel takes the command, at or after now.
  function CarryStep(table: Option<Table>, plan: Plan, ok: bool, at: int, renews: bool): (Option<Table>, ApplyResult) {
    match plan
    case Answer(result) => (table, result)
    case Delete => if ok && table.Some? then (None, Applied(0)) else (table, Failed)
    case Load(deleteFirst, rules, active) =>
      if ok && (deleteFirst ==> table.Some?) then (Some(LoadScript(table, deleteFirst, rules, at, renews)), Applied(active))
      else (table, Failed)
  }

  // A call that no other call overlaps.
  function ApplyStep(table: Option<Table>, bans: seq<Ban>, tcp: set<int>, udp: set<int>,
                     now: int, nft: bool, ok: bool, at: int, renews: bool): (Option<Table>, ApplyResult) {
    CarryStep(table, PlanStep(table, bans, tcp, udp, now, nft), ok, at, renews)
  }

  class Firewall {
    const renews: bool
    var table: Option<Table>

    constructor (renews: bool)
      ensures this.renews == renews && table == None
    {
      this.renews, table := renews, None;
    }

    // Up to and including the look for the table.
    method MakePlan(bans: seq<Ban>, tcp: set<int>, udp: set<int>, now: int, nft: bool) returns (plan: Plan)
      ensures plan == PlanStep(table, bans, tcp, udp, now, nft)
    {
      if !nft {
        return Answer(Failed);
      }
      var active := KeepActive(bans, now);
      var exists_ := table.Some?;
      if active == [] {
        if exists_ {
          return Delete;
        }
        return Answer(Applied(0));
      }
      var rules := Script(active, tcp, udp, now);
      plan := Load(exists_, rules, |active|);
    }

    method CarryOut(plan: Plan, ok: bool, at: int) returns (r: ApplyResult)
      modifies this
      ensures (table, r) == CarryStep(old(table), plan, ok, at, renews)
    {
      match plan {
        case Answer(result) => r := result;
        case Delete =>
          if !ok || table.None? {
            return Failed;
          }
          table := None;
          r := Applied(0);
        case Load(deleteFirst, rules, active) =>
          if !ok || (deleteFirst && table.None?) {
            return Failed;
          }
          table := Some(LoadScript(table, deleteFirst, rules, at, renews));
          r := Applied(active);
      }
    }

    method Apply(bans: seq<Ban>, tcp: set<int>, udp: set<int>, now: int, nft: bool, ok: bool, at: int)
      returns (r: ApplyResult)
      modifies this
      ensures (table, r) == ApplyStep(old(table), bans, tcp, udp, now, nft, ok, at, renews)
    {
      var plan := MakePlan(bans, tcp, udp, now, nft);
      r := CarryOut(plan, ok, at);
    }

    static method KeepActive(bans: seq<Ban>, now: int) returns (active: seq<Ban>)
      ensures active == Active(bans, now)
    {
      active := [];
      for i := 0 to |bans|
        invariant active + Active(bans[i..], now) == Active(bans, now)
      {
        if bans[i].expires > now {
          active := active + [bans[i]];
        }
      }
    }
  }

  lemma {:induction false} ActiveRows(bans: seq<Ban>, now: int)
    ensures forall row :: row in Active(bans, now) <==> row in bans && row.expires > now
  {
    if bans != [] {
      ActiveRows(bans[1..], now);
    }
  }

  // The ban list's own statement of who is cut off, and until when.
  ghost predicate Banned(bans: seq<Ban>, ip: Address, now: int, installed: int, at: int) {
    exists row :: row in bans && row.ip == ip && row.expires > now && at < installed + Seconds(row.expires, now) * SECOND
  }

  lemma BannedIsInSet(bans: seq<Ban>, ip: Address, now: int, installed: int, at: int)
    ensures InSet(Ends(Group(Active(bans, now), now, ip.v6), installed), ip.number, at) <==> Banned(bans, ip, now, installed, at)
  {
    var active := Active(bans, now);
    ActiveRows(bans, now);
    GroupHolds(active, now, ip);
    if ip.number in Group(active, now, ip.v6) {
      var latest :| IsLatest(active, ip, latest) && Group(active, now, ip.v6)[ip.number] == Seconds(latest, now);
      forall row | row in active && row.ip == ip ensures Seconds(row.expires, now) <= Seconds(latest, now) {}
    }
  }

  /** End to end. After a successful apply with the managed ports of the installed cores, a
      packet is dropped exactly when its source has a ban that was live at the apply and has not
      run out, and its port is claimed for its transport by a readable claim that counts. */
  lemma DropsExactlyBannedTraffic(table: Option<Table>, bans: seq<Ban>, cores: seq<Core>, tcp: set<int>, udp: set<int>,
                                  now: int, ok: bool, installed: int, renews: bool, p: Packet, at: int)
    requires forall port :: port in tcp <==> TcpManaged(cores, port)
    requires forall port :: port in udp <==> UdpManaged(cores, port)
    requires ApplyStep(table, bans, tcp, udp, now, true, ok, installed, renews).1.Applied?
    ensures Drops(ApplyStep(table, bans, tcp, udp, now, true, ok, installed, renews).0, p, at) <==>
            && Banned(bans, p.src, now, installed, at)
            && (|| (p.transport.Tcp? && TcpManaged(cores, p.dport))
                || (p.transport.Udp? && UdpManaged(cores, p.dport)))
  {
    BannedIsInSet(bans, p.src, now, installed, at);
  }

  /** With the latest expiry known, the block ends less than a second from it, shifted by the
      delay between reading the clock and loading the table; never a second or more late. */
  lemma BlockEndsNearExpiry(bans: seq<Ban>, ip: Address, latest: int, now: int, installed: int, at: int)
    requires IsLatest(bans, ip, latest) && latest > now
    ensures var end := installed + Seconds(latest, now) * SECOND;
            && (Banned(bans, ip, now, installed, at) <==> at < end)
            && -SECOND < end - (installed - now) - latest < SECOND
            && (latest - now >= SECOND ==> end - (installed - now) <= latest)
  {
    forall row | row in bans && row.ip == ip && row.expires > now
      ensures Seconds(row.expires, now) <= Seconds(latest, now) {}
  }

  // The letters u, d, p, each of either case.
  predicate SaysUdp(t: string) {
    |t| == 3 && (t[0] == 'u' || t[0] == 'U') && (t[1] == 'd' || t[1] == 'D') && (t[2] == 'p' || t[2] == 'P')
  }

  lemma LowerSaysUdp(t: string)
    ensures Lower(t) == "udp" <==> SaysUdp(t)
  {
    assert |Lower(t)| == |t|;
    assert forall i :: 0 <= i < |t| ==> Lower(t)[i] == LowerChar(t[i]);
    if |t| == 3 {
      assert Lower(t) == [LowerChar(t[0]), LowerChar(t[1]), LowerChar(t[2])];
    }
  }

  // The core is enabled, its claims could be read, and this claim is one of them, off loopback and
  // outside the accel-ppp console.
  predicate Serves(core: Core, c: Claim) {
    core.enabled && core.claims.Some? && c in core.claims.value && c.address != Loopback && c.protocol != "accel-ppp-cli"
  }

  ghost predicate OpensTcp(cores: seq<Core>, port: int) {
    exists core, c :: core in cores && Serves(core, c) && c.port == port && !SaysUdp(c.transport)
  }

  ghost predicate OpensUdp(cores: seq<Core>, port: int) {
    exists core, c :: core in cores && Serves(core, c) && c.port == port
                      && (SaysUdp(c.transport) || c.protocol == "openvpn-clone")
  }

  /** The managed ports, written out: a claim that counts manages its port for UDP when its transport
      says so in any case of letters, for TCP when it does not, and a cloned OpenVPN listener for UDP
      besides. */
  lemma ManagedWrittenOut(cores: seq<Core>, port: int)
    ensures TcpManaged(cores, port) <==> OpensTcp(cores, port)
    ensures UdpManaged(cores, port) <==> OpensUdp(cores, port)
  {
    forall c: Claim ensures Lower(c.transport) == "udp" <==> SaysUdp(c.transport) {
      LowerSaysUdp(c.transport);
    }
    if TcpManaged(cores, port) {
      var core :| core in cores && CoreTcp(core, port);
      var c :| c in core.claims.value && ClaimsTcp(c, port);
      assert Serves(core, c);
    }
    if UdpManaged(cores, port) {
      var core :| core in cores && CoreUdp(core, port);
      var c :| c in core.claims.value && ClaimsUdp(c, port);
      assert Serves(core, c);
    }
    if OpensTcp(cores, port) {
      var core, c :| core in cores && Serves(core, c) && c.port == port && !SaysUdp(c.transport);
      assert ClaimsTcp(c, port) && CoreTcp(core, port);
    }
    if OpensUdp(cores, port) {
      var core, c :| core in cores && Serves(core, c) && c.port == port && (SaysUdp(c.transport) || c.protocol == "openvpn-clone");
      assert ClaimsUdp(c, port) && CoreUdp(core, port);
    }
  }

  // How long a ban lasts once it is loaded: the whole seconds left of it, one at least.
  function Lasts(expires: int, now: int): int {
    if expires - now < 1_000_000 then 1_000_000 else expires - now - (expires - now) % 1_000_000
  }

  ghost predicate CutOff(bans: seq<Ban>, ip: Address, now: int, installed: int, at: int) {
    exists row :: row in bans && row.ip == ip && row.expires > now && at < installed + Lasts(row.expires, now)
  }

  /** What a successful apply drops, with claims, times and transports written out. */
  lemma DropsWrittenOut(table: Option<Table>, bans: seq<Ban>, cores: seq<Core>, tcp: set<int>, udp: set<int>,
                        now: int, ok: bool, installed: int, renews: bool, p: Packet, at: int)
    requires forall port :: port in tcp <==> OpensTcp(cores, port)
    requires forall port :: port in udp <==> OpensUdp(cores, port)
    requires ApplyStep(table, bans, tcp, udp, now, true, ok, installed, renews).1.Applied?
    ensures Drops(ApplyStep(table, bans, tcp, udp, now, true, ok, installed, renews).0, p, at) <==>
            && CutOff(bans, p.src, now, installed, at)
            && (if p.transport == Tcp then OpensTcp(cores, p.dport)
                else p.transport == Udp && OpensUdp(cores, p.dport))
  {
    forall port
      ensures port in tcp <==> TcpManaged(cores, port)
      ensures port in udp <==> UdpManaged(cores, port)
    {
      ManagedWrittenOut(cores, port);
    }
    ManagedWrittenOut(cores, p.dport);
    DropsExactlyBannedTraffic(table, bans, cores, tcp, udp, now, ok, installed, renews, p, at);
    forall row: Ban ensures Seconds(row.expires, now) * SECOND == if row.expires > now then Lasts(row.expires, now) else SECOND {}
  }

  /** The rows a call counts as active: of two lists in a row those of each, and of one row alone that
      row when its expiry is after the clock. */
  lemma {:induction false} ActiveConcat(a: seq<Ban>, b: seq<Ban>, now: int)
    ensures Active(a + b, now) == Active(a, now) + Active(b, now)
    decreases a
  {
    if a == [] {
      assert a + b == b;
    } else {
      var row, rest := a[0], a[1..];
      ActiveConcat(rest, b, now);
      assert a + b == [row] + (rest + b) && a == [row] + rest;
      ActiveCons(row, rest + b, now);
      ActiveCons(row, rest, now);
    }
  }

  lemma ActiveCons(row: Ban, rest: seq<Ban>, now: int)
    ensures Active([row] + rest, now) == (if row.expires > now then [row] else []) + Active(rest, now)
  {
    assert ([row] + rest)[1..] == rest;
  }

  lemma ActiveRow(row: Ban, now: int)
    ensures Active([row], now) == if row.expires > now then [row] else []
  {
  }

  /** What a call answers and leaves, in every case: a failure leaves the table alone; with a row
      still to run the number of such rows is reported over a table of theirs; with none there is no
      table afterwards. */
  lemma AnswersWrittenOut(table: Option<Table>, bans: seq<Ban>, tcp: set<int>, udp: set<int>,
                          now: int, nft: bool, ok: bool, at: int, renews: bool)
    ensures var (table', r) := ApplyStep(table, bans, tcp, udp, now, nft, ok, at, renews);
            var live := exists row :: row in bans && row.expires > now;
            && (r == Failed <==> !nft || (!ok && (live || table.Some?)))
            && (r == Failed ==> table' == table)
            && (r != Failed && live ==> r == Applied(|Active(bans, now)|) && table'.Some? && table'.value.tcp == tcp && table'.value.udp == udp)
            && (r != Failed && !live ==> r == Applied(0) && table' == None)
  {
    ActiveRows(bans, now);
    var live := exists row :: row in bans && row.expires > now;
    if live {
      var row :| row in bans && row.expires > now;
      assert row in Active(bans, now);
    }
  }

  datatype Call = Call(bans: seq<Ban>, tcp: set<int>, udp: set<int>, now: int, nft: bool, ok: bool, at: int)

  function Applying(table: Option<Table>, c: Call, renews: bool): (Option<Table>, ApplyResult) {
    ApplyStep(table, c.bans, c.tcp, c.udp, c.now, c.nft, c.ok, c.at, renews)
  }

  function After(table: Option<Table>, calls: seq<Call>, renews: bool): Option<Table> {
    if calls == [] then table
    else Applying(After(table, calls[..|calls| - 1], renews), calls[|calls| - 1], renews).0
  }

  // The table of one successful call on a clean kernel.
  function TableOf(c: Call): Option<Table> {
    var active := Active(c.bans, c.now);
    if active == [] then None
    else
      var rules := Compile(active, c.tcp, c.udp, c.now);
      Some(Table(Ends(rules.v4, c.at), Ends(rules.v6, c.at), rules.tcp, rules.udp))
  }

  function Succeeds(table: Option<Table>, c: Call, renews: bool): bool {
    Applying(table, c, renews).1.Applied?
  }

  /** When calls do not overlap, then however many went before and whatever they installed, the
      table is that of the last call that succeeded; failed calls leave it alone. */
  lemma {:induction false} TableIsLastSuccess(table: Option<Table>, calls: seq<Call>, last: nat, renews: bool)
    requires last < |calls| && Succeeds(After(table, calls[..last], renews), calls[last], renews)
    requires forall i :: last < i < |calls| ==> !Succeeds(After(table, calls[..i], renews), calls[i], renews)
    ensures After(table, calls, renews) == TableOf(calls[last])
  {
    var front := calls[..|calls| - 1];
    if last == |calls| - 1 {
      assert calls[..last] == front;
    } else {
      assert front[..last] == calls[..last] && calls[..|calls| - 1] == front;
      forall i | last < i < |front| ensures !Succeeds(After(table, front[..i], renews), front[i], renews) {
        assert front[..i] == calls[..i];
      }
      TableIsLastSuccess(table, front, last, renews);
    }
  }

  // ---------------------------------------------------------------------------
  // Overlapping calls: each looks for the table, and carries its plan out later
  // ---------------------------------------------------------------------------

  datatype Event =
    | Look(call: nat, bans: seq<Ban>, tcp: set<int>, udp: set<int>, now: int, nft: bool)
    | Carry(call: nat, ok: bool, at: int)

  datatype World = World(table: Option<Table>, plans: map<nat, Plan>)

  function Next(w: World, e: Event, renews: bool): World {
    match e
    case Look(call, bans, tcp, udp, now, nft) =>
      w.(plans := w.plans[call := PlanStep(w.table, bans, tcp, udp, now, nft)])
    case Carry(call, ok, at) =>
      if call !in w.plans then w
      else World(CarryStep(w.table, w.plans[call], ok, at, renews).0, w.plans - {call})
  }

  function Run(events: seq<Event>, renews: bool): World {
    if events == [] then World(None, map[]) else Next(Run(events[..|events| - 1], renews), events[|events| - 1], renews)
  }

  datatype Loaded = Loaded(rules: RuleSet, at: int)

  // The loads a table is made of after one more event: those since it was last replaced or deleted.
  function LoadsAfter(w: World, e: Event, loads: seq<Loaded>): seq<Loaded> {
    if e.Look? || e.call !in w.plans || !e.ok then loads
    else match w.plans[e.call]
      case Answer(_) => loads
      case Delete => []
      case Load(deleteFirst, rules, _) =>
        if w.table.None? then if deleteFirst then loads else [Loaded(rules, e.at)]
        else if deleteFirst then [Loaded(rules, e.at)]
        else loads + [Loaded(rules, e.at)]
  }

  function LoadsOf(events: seq<Event>, renews: bool): seq<Loaded> {
    if events == [] then []
    else
      var front := events[..|events| - 1];
      LoadsAfter(Run(front, renews), events[|events| - 1], LoadsOf(front, renews))
  }

  function Listed(l: Loaded, ip: Address): Option<int> {
    var group := if ip.v6 then l.rules.v6 else l.rules.v4;
    if ip.number in group then Some(l.at + group[ip.number] * SECOND) else None
  }

  // When an address that several loads list is let through again.
  function EndOf(loads: seq<Loaded>, ip: Address, renews: bool): Option<int> {
    if loads == [] then None
    else
      var before, last := EndOf(loads[..|loads| - 1], ip, renews), loads[|loads| - 1];
      if Listed(last, ip).None? || (before.Some? && last.at < before.value && !renews) then before else Listed(last, ip)
  }

  ghost predicate OpensPort(loads: seq<Loaded>, transport: Transport, port: int) {
    exists l :: l in loads && port in (if transport.Tcp? then l.rules.tcp else l.rules.udp)
  }

  function EndIn(table: Option<Table>, ip: Address): Option<int> {
    if table.None? then None
    else
      var group := if ip.v6 then table.value.v6 else table.value.v4;
      if ip.number in group then Some(group[ip.number]) else None
  }

  ghost predicate Made(table: Option<Table>, loads: seq<Loaded>, renews: bool) {
    && (table.None? <==> loads == [])
    && (forall ip :: EndIn(table, ip) == EndOf(loads, ip, renews))
    && (table.Some? ==>
          && (forall port :: port in table.value.tcp <==> OpensPort(loads, Tcp, port))
          && (forall port :: port in table.value.udp <==> OpensPort(loads, Udp, port)))
  }

  lemma OneMoreLoad(loads: seq<Loaded>, l: Loaded, ip: Address, transport: Transport, port: int, renews: bool)
    ensures EndOf(loads + [l], ip, renews) ==
            var before := EndOf(loads, ip, renews);
            if Listed(l, ip).None? || (before.Some? && l.at < before.value && !renews) then before else Listed(l, ip)
    ensures OpensPort(loads + [l], transport, port) <==>
            OpensPort(loads, transport, port) || port in (if transport.Tcp? then l.rules.tcp else l.rules.udp)
  {
    assert (loads + [l])[..|loads|] == loads;
    assert l in loads + [l] && forall x :: x in loads ==> x in loads + [l];
  }

  // The loads a table is made of once one more has gone into it: a delete line, or no table at all,
  // makes it anew.
  function LoadsWith(table: Option<Table>, loads: seq<Loaded>, deleteFirst: bool, l: Loaded): seq<Loaded> {
    if table.None? || deleteFirst then [l] else loads + [l]
  }

  lemma LoadEnds(table: Option<Table>, loads: seq<Loaded>, deleteFirst: bool, l: Loaded, renews: bool, ip: Address)
    requires EndIn(table, ip) == EndOf(loads, ip, renews)
    ensures EndIn(Some(LoadScript(table, deleteFirst, l.rules, l.at, renews)), ip)
            == EndOf(LoadsWith(table, loads, deleteFirst, l), ip, renews)
  {
    var before := if table.None? || deleteFirst then [] else loads;
    assert before + [l] == LoadsWith(table, loads, deleteFirst, l);
    OneMoreLoad(before, l, ip, Tcp, 0, renews);
  }

  lemma LoadOpens(table: Option<Table>, loads: seq<Loaded>, deleteFirst: bool, l: Loaded, renews: bool, port: int)
    requires table.Some? ==>
               (port in table.value.tcp <==> OpensPort(loads, Tcp, port))
               && (port in table.value.udp <==> OpensPort(loads, Udp, port))
    ensures var table', loads' := LoadScript(table, deleteFirst, l.rules, l.at, renews), LoadsWith(table, loads, deleteFirst, l);
            && (port in table'.tcp <==> OpensPort(loads', Tcp, port))
            && (port in table'.udp <==> OpensPort(loads', Udp, port))
  {
    var before := if table.None? || deleteFirst then [] else loads;
    assert before + [l] == LoadsWith(table, loads, deleteFirst, l);
    OneMoreLoad(before, l, Address(false, 0), Tcp, port, renews);
    OneMoreLoad(before, l, Address(false, 0), Udp, port, renews);
  }

  lemma LoadMakes(table: Option<Table>, loads: seq<Loaded>, deleteFirst: bool, l: Loaded, renews: bool)
    requires Made(table, loads, renews)
    ensures Made(Some(LoadScript(table, deleteFirst, l.rules, l.at, renews)), LoadsWith(table, loads, deleteFirst, l), renews)
  {
    var table', loads' := LoadScript(table, deleteFirst, l.rules, l.at, renews), LoadsWith(table, loads, deleteFirst, l);
    forall ip ensures EndIn(Some(table'), ip) == EndOf(loads', ip, renews) {
      LoadEnds(table, loads, deleteFirst, l, renews, ip);
    }
    forall port
      ensures port in table'.tcp <==> OpensPort(loads', Tcp, port)
      ensures port in table'.udp <==> OpensPort(loads', Udp, port)
    {
      LoadOpens(table, loads, deleteFirst, l, renews, port);
    }
  }

  lemma {:induction false} TableIsMadeOfLoads(events: seq<Event>, renews: bool)
    ensures Made(Run(events, renews).table, LoadsOf(events, renews), renews)
  {
    if events != [] {
      var front, e := events[..|events| - 1], events[|events| - 1];
      TableIsMadeOfLoads(front, renews);
      var w, loads := Run(front, renews), LoadsOf(front, renews);
      if e.Carry? && e.call in w.plans && e.ok && w.plans[e.call].Load? {
        var plan := w.plans[e.call];
        LoadMakes(w.table, loads, plan.deleteFirst, Loaded(plan.rules, e.at), renews);
      }
    }
  }

  ghost predicate LoadsDrop(loads: seq<Loaded>, renews: bool, p: Packet, at: int) {
    var end := EndOf(loads, p.src, renews);
    && end.Some? && at < end.value
    && !p.transport.OtherTransport? && OpensPort(loads, p.transport, p.dport)
  }

  lemma MadeTableDrops(table: Option<Table>, loads: seq<Loaded>, renews: bool, p: Packet, at: int)
    requires Made(table, loads, renews)
    ensures Drops(table, p, at) <==> LoadsDrop(loads, renews, p, at)
  {
    assert EndIn(table, p.src) == EndOf(loads, p.src, renews);
  }

  /** The exact table of overlapping calls. After any interleaving of looks and commands a packet is
      dropped exactly when some load since the table was last replaced lists its source, with a
      timeout that has not run out, and some such load, the same or another, opens its port. */
  lemma OverlapsAddUp(events: seq<Event>, renews: bool, p: Packet, at: int)
    ensures Drops(Run(events, renews).table, p, at) <==> LoadsDrop(LoadsOf(events, renews), renews, p, at)
  {
    TableIsMadeOfLoads(events, renews);
    MadeTableDrops(Run(events, renews).table, LoadsOf(events, renews), renews, p, at);
  }

  // The tables two calls leave when both looked before either command ran.
  function Both(table: Option<Table>, first: Call, second: Call, renews: bool): (Option<Table>, ApplyResult) {
    var plan := PlanStep(table, first.bans, first.tcp, first.udp, first.now, first.nft);
    var plan' := PlanStep(table, second.bans, second.tcp, second.udp, second.now, second.nft);
    CarryStep(CarryStep(table, plan, first.ok, first.at, renews).0, plan', second.ok, second.at, renews)
  }

  /** Two calls that both see a table: the second decides alone, unless the first deletes it. Then
      the second fails, and none of its bans is in force. */
  lemma BothSeeTable(table: Table, first: Call, second: Call, renews: bool)
    requires first.nft && first.ok && second.nft && second.ok
    ensures var (table', r) := Both(Some(table), first, second, renews);
            if Active(first.bans, first.now) == [] then table' == None && r == Failed
            else table' == TableOf(second) && r.Applied?
  {
  }

  function LoadOf(c: Call): Loaded {
    Loaded(Compile(Active(c.bans, c.now), c.tcp, c.udp, c.now), c.at)
  }

  /** Two calls that both see none add up: a packet is dropped when its source is banned by either
      and its port managed by either, even if no single call bans the one and manages the other. */
  lemma BothSeeNone(first: Call, second: Call, renews: bool, p: Packet, at: int)
    requires first.nft && first.ok && second.nft && second.ok
    requires Active(first.bans, first.now) != [] && Active(second.bans, second.now) != []
    ensures Drops(Both(None, first, second, renews).0, p, at) <==>
            LoadsDrop([LoadOf(first), LoadOf(second)], renews, p, at)
  {
    var l, l' := LoadOf(first), LoadOf(second);
    var table := Some(LoadScript(None, false, l.rules, l.at, renews));
    LoadMakes(None, [], false, l, renews);
    LoadMakes(table, [l], false, l', renews);
    assert [l] + [l'] == [l, l'];
    MadeTableDrops(Some(LoadScript(table, false, l'.rules, l'.at, renews)), [l, l'], renews, p, at);
  }
}
