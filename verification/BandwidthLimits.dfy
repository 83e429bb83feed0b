/** Desired shaping state folded from the pushed limits, before and after a restart. */
module BandwidthLimits {
  import opened Common
  import opened Ordering

  // account ids listed for one core; None when the value is not a list.
  datatype CoreAccounts = CoreAccounts(core: string, ids: Option<seq<string>>)

  // A pushed rate, 0 when missing. int() raises on the others.
  datatype Rate = Number(n: int) | NotANumber

  // username is empty when missing.
  datatype Spec =
    | NotAnObject
    | Spec(username: string, upload: Rate, download: Rate, accounts: seq<CoreAccounts>)

  // One member of the pushed JSON object, in its order.
  datatype Entry = Entry(key: string, spec: Spec)

  // What a driver reports for an account; a source that is no address is None.
  datatype Identity = Identity(sources: seq<Option<string>>, uids: seq<Option<int>>)

  datatype UserLimit = UserLimit(userId: int, username: string, upload: nat, download: nat,
                                 sources: set<string>, uids: set<int>, softether: set<string>)

  // parse is int(raw_id); identities maps a core to its accounts' identities.
  datatype Host = Host(parse: string -> Option<int>, identities: map<string, map<string, Identity>>)

  function IdentityOf(h: Host, core: string, account: string): Identity {
    if core in h.identities && account in h.identities[core] then h.identities[core][account] else Identity([], [])
  }

  // ---------------------------------------------------------------------------
  // One user
  // ---------------------------------------------------------------------------

  function Somes<T>(s: seq<Option<T>>): set<T> {
    set x | x in s && x.Some? :: x.value
  }

  // Account a of core c is listed.
  ghost predicate Lists(accounts: seq<CoreAccounts>, core: string, account: string) {
    exists i :: 0 <= i < |accounts| && accounts[i].core == core && accounts[i].ids.Some? && account in accounts[i].ids.value
  }

  ghost predicate HasSource(h: Host, accounts: seq<CoreAccounts>, source: string) {
    exists core, a :: Lists(accounts, core, a) && Some(source) in IdentityOf(h, core, a).sources
  }

  ghost predicate HasUid(h: Host, accounts: seq<CoreAccounts>, uid: int) {
    exists core, a :: Lists(accounts, core, a) && Some(uid) in IdentityOf(h, core, a).uids
  }

  predicate BadRates(e: Entry) {
    e.spec.Spec? && (e.spec.upload.NotANumber? || e.spec.download.NotANumber?)
  }

  // A user's limit states the pushed rates, and exactly the identities of its listed accounts.
  ghost predicate Builds(h: Host, e: Entry, id: int, limit: UserLimit) {
    && e.spec.Spec?
    && limit.userId == id
    && limit.username == (if e.spec.username != "" then e.spec.username else e.key)
    && !BadRates(e)
    && limit.upload == (if e.spec.upload.n < 0 then 0 else e.spec.upload.n)
    && limit.download == (if e.spec.download.n < 0 then 0 else e.spec.download.n)
    && (forall s :: s in limit.sources <==> HasSource(h, e.spec.accounts, s))
    && (forall u :: u in limit.uids <==> HasUid(h, e.spec.accounts, u))
    && (forall a :: a in limit.softether <==> Lists(e.spec.accounts, "softether", a))
  }

  method CollectIdentity(h: Host, core: string, ids: seq<string>, sources0: set<string>, uids0: set<int>)
    returns (sources: set<string>, uids: set<int>)
    ensures forall s :: s in sources <==> s in sources0 || exists a :: a in ids && Some(s) in IdentityOf(h, core, a).sources
    ensures forall u :: u in uids <==> u in uids0 || exists a :: a in ids && Some(u) in IdentityOf(h, core, a).uids
  {
    sources, uids := sources0, uids0;
    for i := 0 to |ids|
      invariant forall s :: s in sources <==>
        s in sources0 || exists a :: a in ids[..i] && Some(s) in IdentityOf(h, core, a).sources
      invariant forall u :: u in uids <==>
        u in uids0 || exists a :: a in ids[..i] && Some(u) in IdentityOf(h, core, a).uids
    {
      assert forall a :: a in ids[..i + 1] <==> a in ids[..i] || a == ids[i];
      var identity := IdentityOf(h, core, ids[i]);
      sources := sources + Somes(identity.sources);
      uids := uids + Somes(identity.uids);
    }
    assert ids[..|ids|] == ids;
  }

  // None when a rate raises.
  method BuildLimit(h: Host, e: Entry, id: int) returns (limit: Option<UserLimit>)
    requires e.spec.Spec?
    ensures limit.None? <==> BadRates(e)
    ensures limit.Some? ==> Builds(h, e, id, limit.value)
  {
    if e.spec.upload.NotANumber? || e.spec.download.NotANumber? {
      return None;
    }
    var accounts := e.spec.accounts;
    var sources: set<string>, uids: set<int>, softether: set<string> := {}, {}, {};
    for i := 0 to |accounts|
      invariant forall s :: s in sources <==> HasSource(h, accounts[..i], s)
      invariant forall u :: u in uids <==> HasUid(h, accounts[..i], u)
      invariant forall a :: a in softether <==> Lists(accounts[..i], "softether", a)
    {
      ListsOneMore(accounts, i);
      if accounts[i].ids.None? {
        continue;
      }
      var core, ids := accounts[i].core, accounts[i].ids.value;
      if core == "softether" {
        softether := softether + (set a | a in ids);
      }
      sources, uids := CollectIdentity(h, core, ids, sources, uids);
    }
    assert accounts[..|accounts|] == accounts;
    var upload, download := e.spec.upload.n, e.spec.download.n;
    limit := Some(UserLimit(id,
                            if e.spec.username != "" then e.spec.username else e.key,
                            if upload < 0 then 0 else upload,
                            if download < 0 then 0 else download,
                            sources, uids, softether));
  }

  lemma ListsOneMore(accounts: seq<CoreAccounts>, i: nat)
    requires i < |accounts|
    ensures forall core, a :: Lists(accounts[..i + 1], core, a) <==>
              Lists(accounts[..i], core, a)
              || (accounts[i].core == core && accounts[i].ids.Some? && a in accounts[i].ids.value)
  {
    forall core, a
      ensures Lists(accounts[..i + 1], core, a) <==>
              Lists(accounts[..i], core, a)
              || (accounts[i].core == core && accounts[i].ids.Some? && a in accounts[i].ids.value)
    {
      if accounts[i].core == core && accounts[i].ids.Some? && a in accounts[i].ids.value {
        assert accounts[..i + 1][i] == accounts[i];
      }
      if Lists(accounts[..i], core, a) {
        var k :| 0 <= k < i && accounts[..i][k].core == core && accounts[..i][k].ids.Some? && a in accounts[..i][k].ids.value;
        assert accounts[..i + 1][k] == accounts[..i][k];
      }
    }
  }

  /** A limit is determined by its entry: there is nothing left for the iteration order to decide. */
  lemma BuildsOneLimit(h: Host, e: Entry, e': Entry, id: int, limit: UserLimit, limit': UserLimit)
    requires Builds(h, e, id, limit) && Builds(h, e', id, limit')
    requires SameEntry(e, e')
    ensures limit == limit'
  {
    forall s ensures s in limit.sources <==> s in limit'.sources {
      assert HasSource(h, e.spec.accounts, s) <==> HasSource(h, e'.spec.accounts, s);
    }
    forall u ensures u in limit.uids <==> u in limit'.uids {
      assert HasUid(h, e.spec.accounts, u) <==> HasUid(h, e'.spec.accounts, u);
    }
    assert limit.softether == limit'.softether;
  }

  // The same member up to the order of its account lists.
  ghost predicate SameEntry(e: Entry, e': Entry) {
    && e.key == e'.key
    && (e.spec.Spec? <==> e'.spec.Spec?)
    && (e.spec.Spec? ==>
          && e.spec.username == e'.spec.username && e.spec.upload == e'.spec.upload && e.spec.download == e'.spec.download
          && forall core, a :: Lists(e.spec.accounts, core, a) <==> Lists(e'.spec.accounts, core, a))
  }

  // ---------------------------------------------------------------------------
  // All users
  // ---------------------------------------------------------------------------

  predicate Names(h: Host, e: Entry, id: int) {
    e.spec.Spec? && h.parse(e.key) == Some(id)
  }

  // The entry that decides a user: the last one whose key reads as its id.
  ghost predicate Wins(h: Host, entries: seq<Entry>, i: nat, id: int) {
    i < |entries| && Names(h, entries[i], id) && forall j :: i < j < |entries| ==> !Names(h, entries[j], id)
  }

  ghost predicate IsDesired(h: Host, entries: seq<Entry>, desired: map<int, UserLimit>) {
    && (forall id :: id in desired <==> exists i: nat :: Wins(h, entries, i, id))
    && (forall i: nat, id :: Wins(h, entries, i, id) ==> id in desired && Builds(h, entries[i], id, desired[id]))
  }

  // An entry that makes the building of the desired state raise.
  predicate Spoils(h: Host, e: Entry) {
    BadRates(e) && h.parse(e.key).Some?
  }

  ghost predicate AnySpoils(h: Host, entries: seq<Entry>) {
    exists e :: e in entries && Spoils(h, e)
  }

  // An entry that makes the count of limited users raise: the download is looked at only when the
  // upload is zero, and the key is not.
  predicate SpoilsCount(e: Entry) {
    e.spec.Spec? && (e.spec.upload.NotANumber? || (e.spec.upload.n == 0 && e.spec.download.NotANumber?))
  }

  ghost predicate AnySpoilsCount(entries: seq<Entry>) {
    exists e :: e in entries && SpoilsCount(e)
  }

  function Counted(entries: seq<Entry>): nat {
    if entries == [] then 0
    else
      var last := entries[|entries| - 1];
      Counted(entries[..|entries| - 1])
      + if last.spec.Spec? && (last.spec.upload != Number(0) || last.spec.download != Number(0)) then 1 else 0
  }

  lemma WinsOneMore(h: Host, entries: seq<Entry>, e: Entry, i: nat, id: int)
    ensures Wins(h, entries + [e], i, id) <==>
            if Names(h, e, id) then i == |entries| else i < |entries| && Wins(h, entries, i, id)
  {
    var more := entries + [e];
    assert more[|entries|] == e;
    if Names(h, e, id) {
      assert i < |entries| ==> !Wins(h, more, i, id);
    } else if i < |entries| {
      assert forall j :: i < j < |more| ==> if j < |entries| then more[j] == entries[j] else more[j] == e;
    }
  }

  lemma SkippedEntry(h: Host, entries: seq<Entry>, e: Entry, desired: map<int, UserLimit>)
    requires IsDesired(h, entries, desired) && forall id :: !Names(h, e, id)
    ensures IsDesired(h, entries + [e], desired)
  {
    forall i: nat, id ensures Wins(h, entries + [e], i, id) <==> i < |entries| && Wins(h, entries, i, id) {
      WinsOneMore(h, entries, e, i, id);
    }
  }

  lemma NamedEntry(h: Host, entries: seq<Entry>, e: Entry, desired: map<int, UserLimit>, id: int, limit: UserLimit)
    requires IsDesired(h, entries, desired) && Names(h, e, id) && Builds(h, e, id, limit)
    ensures IsDesired(h, entries + [e], desired[id := limit])
  {
    forall i: nat, other
      ensures Wins(h, entries + [e], i, other) <==>
              if other == id then i == |entries| else i < |entries| && Wins(h, entries, i, other)
    {
      WinsOneMore(h, entries, e, i, other);
    }
    assert Wins(h, entries + [e], |entries|, id);
  }

  // ---------------------------------------------------------------------------
  // json.dumps(sort_keys=True)
  // ---------------------------------------------------------------------------

  predicate TextLe(a: string, b: string) {
    a == "" || (b != "" && (a[0] < b[0] || (a[0] == b[0] && TextLe(a[1..], b[1..]))))
  }

  lemma {:induction false} TextLeTotal(a: string, b: string)
    ensures TextLe(a, b) || TextLe(b, a)
    ensures TextLe(a, b) && TextLe(b, a) ==> a == b
  {
    if a != "" && b != "" && a[0] == b[0] {
      TextLeTotal(a[1..], b[1..]);
      assert a == [a[0]] + a[1..] && b == [b[0]] + b[1..];
    }
  }

  lemma {:induction false} TextLeTransitive(a: string, b: string, c: string)
    requires TextLe(a, b) && TextLe(b, c)
    ensures TextLe(a, c)
  {
    if a != "" && b != "" && c != "" && a[0] == b[0] == c[0] {
      TextLeTransitive(a[1..], b[1..], c[1..]);
    }
  }

  function ByKey(): (Entry, Entry) -> bool {
    (x: Entry, y: Entry) => TextLe(x.key, y.key)
  }

  function ByCore(): (CoreAccounts, CoreAccounts) -> bool {
    (x: CoreAccounts, y: CoreAccounts) => TextLe(x.core, y.core)
  }

  lemma ByKeyIsTotal()
    ensures TotalPreorder(ByKey())
  {
    forall x: Entry, y: Entry ensures ByKey()(x, y) || ByKey()(y, x) {
      TextLeTotal(x.key, y.key);
    }
    forall x: Entry, y: Entry, z: Entry | ByKey()(x, y) && ByKey()(y, z) ensures ByKey()(x, z) {
      TextLeTransitive(x.key, y.key, z.key);
    }
  }

  function SortInside(e: Entry): Entry {
    if e.spec.Spec? then e.(spec := e.spec.(accounts := Sort(e.spec.accounts, ByCore()))) else e
  }

  // What the file holds, and so what a restart loads.
  function Stored(entries: seq<Entry>): seq<Entry> {
    Sort(seq(|entries|, i requires 0 <= i < |entries| => SortInside(entries[i])), ByKey())
  }

  lemma OneMoreSpoils(h: Host, entries: seq<Entry>, i: nat)
    requires i < |entries|
    ensures entries[..i + 1] == entries[..i] + [entries[i]]
    ensures AnySpoils(h, entries[..i + 1]) <==> AnySpoils(h, entries[..i]) || Spoils(h, entries[i])
    ensures Spoils(h, entries[i]) ==> AnySpoils(h, entries)
  {
    assert entries[i] in entries && entries[i] in entries[..i + 1];
    assert forall e :: e in entries[..i + 1] <==> e in entries[..i] || e == entries[i];
  }

  lemma OneMoreCounts(entries: seq<Entry>, i: nat)
    requires i < |entries|
    ensures AnySpoilsCount(entries[..i + 1]) <==> AnySpoilsCount(entries[..i]) || SpoilsCount(entries[i])
    ensures SpoilsCount(entries[i]) ==> AnySpoilsCount(entries)
    ensures Counted(entries[..i + 1]) == Counted(entries[..i])
            + var spec := entries[i].spec;
              if spec.Spec? && (spec.upload != Number(0) || spec.download != Number(0)) then 1 else 0
  {
    assert entries[i] in entries && entries[i] in entries[..i + 1];
    assert forall e :: e in entries[..i + 1] <==> e in entries[..i] || e == entries[i];
    assert entries[..i + 1][..i] == entries[..i];
  }

  // The limits in force and the file.
  datatype Limits = Limits(limits: seq<Entry>, file: Option<seq<Entry>>)

  datatype Event = Push(pushed: seq<Entry>, writeOk: bool) | Restart

  function Next(s: Limits, e: Event): Limits {
    match e
    case Push(pushed, writeOk) => Limits(pushed, if writeOk then Some(Stored(pushed)) else s.file)
    case Restart => Limits(if s.file.Some? then s.file.value else [], s.file)
  }

  function Run(s: Limits, events: seq<Event>): Limits {
    if events == [] then s else Next(Run(s, events[..|events| - 1]), events[|events| - 1])
  }

  class NodeBandwidthLimiter {
    var limits: seq<Entry>
    var file: Option<seq<Entry>>

    function State(): Limits
      reads this
    {
      Limits(limits, file)
    }

    // Nothing pushed yet, and the file an earlier run left. A start loads it next.
    constructor (file: Option<seq<Entry>>)
      ensures State() == Limits([], file)
    {
      limits, this.file := [], file;
    }

    method Store(pushed: seq<Entry>, writeOk: bool)
      modifies this`file
      ensures State() == Next(old(State()), Event.Push(pushed, writeOk)).(limits := old(limits))
    {
      if writeOk {
        file := Some(Stored(pushed));
      }
    }

    method Load()
      modifies this`limits
      ensures State() == if file.Some? then Next(old(State()), Restart) else old(State())
    {
      if file.Some? {
        limits := file.value;
      }
    }

    // The part of apply that concerns the limits themselves.
    method Push(pushed: seq<Entry>, writeOk: bool)
      modifies this
      ensures State() == Next(old(State()), Event.Push(pushed, writeOk))
    {
      limits := pushed;
      Store(pushed, writeOk);
    }

    // None when an entry raises.
    method Desired(h: Host) returns (desired: Option<map<int, UserLimit>>)
      ensures desired.None? <==> AnySpoils(h, limits)
      ensures desired.Some? ==> IsDesired(h, limits, desired.value)
    {
      var built: map<int, UserLimit> := map[];
      for i := 0 to |limits|
        invariant IsDesired(h, limits[..i], built)
        invariant !AnySpoils(h, limits[..i])
      {
        var e := limits[i];
        OneMoreSpoils(h, limits, i);
        if e.spec.NotAnObject? {
          SkippedEntry(h, limits[..i], e, built);
          continue;
        }
        var id := h.parse(e.key);
        if id.None? {
          SkippedEntry(h, limits[..i], e, built);
          continue;
        }
        var limit := BuildLimit(h, e, id.value);
        if limit.None? {
          return None;
        }
        NamedEntry(h, limits[..i], e, built, id.value, limit.value);
        built := built[id.value := limit.value];
      }
      assert limits[..|limits|] == limits;
      desired := Some(built);
    }

    method LimitedCount() returns (count: Option<nat>)
      ensures count == if AnySpoilsCount(limits) then None else Some(Counted(limits))
    {
      var n := 0;
      for i := 0 to |limits|
        invariant n == Counted(limits[..i])
        invariant !AnySpoilsCount(limits[..i])
      {
        var e := limits[i];
        OneMoreCounts(limits, i);
        if e.spec.NotAnObject? {
          continue;
        }
        if e.spec.upload.NotANumber? || (e.spec.upload.n == 0 && e.spec.download.NotANumber?) {
          return None;
        }
        if e.spec.upload.n != 0 || e.spec.download.n != 0 {
          n := n + 1;
        }
      }
      assert limits[..|limits|] == limits;
      count := Some(n);
    }

    // hostOk: nothing goes wrong on the host while the desired state is installed. The count is
    // taken on both paths, outside of what is caught.
    method Apply(h: Host, pushed: Option<seq<Entry>>, writeOk: bool, hostOk: bool) returns (r: ApplyResult)
      modifies this
      ensures State() == if pushed.Some? then Next(old(State()), Event.Push(pushed.value, writeOk)) else old(State())
      ensures r == ApplyOf(h, limits, hostOk)
    {
      if pushed.Some? {
        Push(pushed.value, writeOk);
      }
      var desired := Desired(h);
      var count := LimitedCount();
      r := if count.None? then Raised else if desired.Some? && hostOk then Installed(count.value) else Refused(count.value);
    }

    // What the boot does.
    method Start(h: Host, hostOk: bool) returns (r: ApplyResult)
      modifies this
      ensures State() == if file.Some? then Next(old(State()), Restart) else old(State())
      ensures r == ApplyOf(h, limits, hostOk)
    {
      Load();
      r := Apply(h, None, true, hostOk);
    }
  }

  datatype ApplyResult = Installed(limited: nat) | Refused(limited: nat) | Raised

  ghost function ApplyOf(h: Host, limits: seq<Entry>, hostOk: bool): ApplyResult {
    if AnySpoilsCount(limits) then Raised
    else if !AnySpoils(h, limits) && hostOk then Installed(Counted(limits))
    else Refused(Counted(limits))
  }

  // ---------------------------------------------------------------------------
  // Limits and answers, written out
  // ---------------------------------------------------------------------------

  // The entry lists this account for this core.
  ghost predicate ListsFor(e: Entry, core: string, account: string) {
    e.spec.Spec? && exists i :: 0 <= i < |e.spec.accounts| && e.spec.accounts[i].core == core
                                && e.spec.accounts[i].ids.Some? && account in e.spec.accounts[i].ids.value
  }

  predicate Reports(h: Host, core: string, account: string) {
    core in h.identities && account in h.identities[core]
  }

  /** A user's limit, written out: its id, its name or else its key, its rates or zero where they are
      negative, and each address and uid a driver reports for an account the entry lists. */
  lemma LimitWrittenOut(h: Host, e: Entry, id: int, limit: UserLimit)
    requires Builds(h, e, id, limit)
    ensures e.spec.Spec? && e.spec.upload.Number? && e.spec.download.Number?
    ensures limit.userId == id && limit.username == if e.spec.username == "" then e.key else e.spec.username
    ensures limit.upload == (if e.spec.upload.n > 0 then e.spec.upload.n else 0)
    ensures limit.download == (if e.spec.download.n > 0 then e.spec.download.n else 0)
    ensures forall s :: s in limit.sources <==>
              exists core, a :: ListsFor(e, core, a) && Reports(h, core, a) && Some(s) in h.identities[core][a].sources
    ensures forall u :: u in limit.uids <==>
              exists core, a :: ListsFor(e, core, a) && Reports(h, core, a) && Some(u) in h.identities[core][a].uids
    ensures forall a :: a in limit.softether <==> ListsFor(e, "softether", a)
  {
    forall core, a ensures ListsFor(e, core, a) <==> Lists(e.spec.accounts, core, a) {}
    forall s ensures HasSource(h, e.spec.accounts, s) <==>
        exists core, a :: ListsFor(e, core, a) && Reports(h, core, a) && Some(s) in h.identities[core][a].sources
    {
      if HasSource(h, e.spec.accounts, s) {
        var core, a :| Lists(e.spec.accounts, core, a) && Some(s) in IdentityOf(h, core, a).sources;
        assert ListsFor(e, core, a) && Reports(h, core, a);
      }
      if core, a :| ListsFor(e, core, a) && Reports(h, core, a) && Some(s) in h.identities[core][a].sources {
        assert Lists(e.spec.accounts, core, a) && Some(s) in IdentityOf(h, core, a).sources;
      }
    }
    forall u ensures HasUid(h, e.spec.accounts, u) <==>
        exists core, a :: ListsFor(e, core, a) && Reports(h, core, a) && Some(u) in h.identities[core][a].uids
    {
      if HasUid(h, e.spec.accounts, u) {
        var core, a :| Lists(e.spec.accounts, core, a) && Some(u) in IdentityOf(h, core, a).uids;
        assert ListsFor(e, core, a) && Reports(h, core, a);
      }
      if core, a :| ListsFor(e, core, a) && Reports(h, core, a) && Some(u) in h.identities[core][a].uids {
        assert Lists(e.spec.accounts, core, a) && Some(u) in IdentityOf(h, core, a).uids;
      }
    }
  }

  predicate ReadsAs(h: Host, e: Entry, id: int) {
    e.spec != NotAnObject && h.parse(e.key) == Some(id)
  }

  ghost predicate LastReadsAs(h: Host, entries: seq<Entry>, i: int, id: int)
    requires 0 <= i < |entries|
  {
    ReadsAs(h, entries[i], id) && forall j :: i < j < |entries| ==> !ReadsAs(h, entries[j], id)
  }

  /** Who is limited, and by which entry, written out: the users some entry's key reads as, each by the
      last such entry. */
  lemma DesiredWrittenOut(h: Host, entries: seq<Entry>, desired: map<int, UserLimit>, id: int)
    requires IsDesired(h, entries, desired)
    ensures id in desired <==> exists i :: 0 <= i < |entries| && ReadsAs(h, entries[i], id)
    ensures forall i :: 0 <= i < |entries| && LastReadsAs(h, entries, i, id) ==>
              id in desired && Builds(h, entries[i], id, desired[id])
  {
    forall i | 0 <= i < |entries| ensures Names(h, entries[i], id) <==> ReadsAs(h, entries[i], id) {}
    if i :| 0 <= i < |entries| && ReadsAs(h, entries[i], id) {
      NamedHasWinner(h, entries, id, i);
    }
    if id in desired {
      var i: nat :| Wins(h, entries, i, id);
      assert ReadsAs(h, entries[i], id);
    }
    forall i: nat | i < |entries| && LastReadsAs(h, entries, i, id)
      ensures Wins(h, entries, i, id)
    {
      forall j | i < j < |entries| ensures !Names(h, entries[j], id) {
        assert !ReadsAs(h, entries[j], id);
      }
    }
  }

  /** Which answer a push gets: an exception at a rate the count looks at that is not a number; else a
      refusal when an entry with an id has such a rate at all, or the host fails; else the limits are
      in, and the answer says how many entries limit something. */
  lemma AnswersWrittenOut(h: Host, limits: seq<Entry>, hostOk: bool)
    ensures var r := ApplyOf(h, limits, hostOk);
            var bad := exists e :: e in limits && BadlyRated(h, e);
            && (r == Raised <==> exists e :: e in limits && StopsCount(e))
            && (r.Refused? <==> r != Raised && (bad || !hostOk))
            && (r.Installed? <==> r != Raised && !bad && hostOk)
            && (r != Raised ==> r.limited == |LimitingAt(limits)|)
  {
    StopsWrittenOut(limits);
    CountedIsSize(limits);
    if AnySpoils(h, limits) {
      var e :| e in limits && Spoils(h, e);
      assert BadlyRated(h, e);
    }
    if e :| e in limits && BadlyRated(h, e) {
      assert Spoils(h, e);
    }
  }

  predicate BadlyRated(h: Host, e: Entry) {
    e.spec.Spec? && h.parse(e.key) != None && (e.spec.upload == NotANumber || e.spec.download == NotANumber)
  }

  predicate LimitsSomething(e: Entry) {
    e.spec.Spec? && !(e.spec.upload == Number(0) && e.spec.download == Number(0))
  }

  // The places of the entries that limit something.
  function LimitingAt(entries: seq<Entry>): set<int> {
    set i | 0 <= i < |entries| && LimitsSomething(entries[i])
  }

  lemma {:induction false} CountedIsSize(entries: seq<Entry>)
    ensures Counted(entries) == |LimitingAt(entries)|
  {
    if entries == [] {
      assert LimitingAt(entries) == {};
    } else {
      var front, n := entries[..|entries| - 1], |entries| - 1;
      CountedIsSize(front);
      assert LimitingAt(entries) == LimitingAt(front) + if LimitsSomething(entries[n]) then {n} else {};
    }
  }

  /** The order of keys in the file: the first character that differs decides, and a key goes before
      its extensions. */
  lemma {:induction false} TextOrderWrittenOut(a: string, b: string)
    ensures TextLe(a, b) <==>
            exists k :: 0 <= k <= |a| && k <= |b| && a[..k] == b[..k] && (k == |a| || (k < |b| && a[k] as int < b[k] as int))
  {
    if a == "" {
      assert a[..0] == b[..0];
    } else if b != "" && a[0] == b[0] {
      var a', b' := a[1..], b[1..];
      TextOrderWrittenOut(a', b');
      if TextLe(a', b') {
        var k :| 0 <= k <= |a'| && k <= |b'| && a'[..k] == b'[..k] && (k == |a'| || (k < |b'| && a'[k] as int < b'[k] as int));
        assert a[..k + 1] == [a[0]] + a'[..k] && b[..k + 1] == [b[0]] + b'[..k];
      }
      if k :| 0 <= k <= |a| && k <= |b| && a[..k] == b[..k] && (k == |a| || (k < |b| && a[k] as int < b[k] as int)) {
        assert k > 0;
        assert a'[..k - 1] == a[..k][1..] && b'[..k - 1] == b[..k][1..];
      }
    } else {
      assert b != "" ==> forall k :: 0 < k <= |a| && k <= |b| ==> a[..k][0] != b[..k][0];
      assert a[..0] == b[..0];
    }
  }

  // ---------------------------------------------------------------------------
  // Restart
  // ---------------------------------------------------------------------------

  // A JSON object has each key once.
  ghost predicate DistinctKeys(entries: seq<Entry>) {
    forall i, j :: 0 <= i < j < |entries| ==> entries[i].key != entries[j].key
  }

  // No two keys read as the same user id.
  ghost predicate NoCollision(h: Host, entries: seq<Entry>) {
    forall i, j, id ::
      0 <= i < |entries| && 0 <= j < |entries| && Names(h, entries[i], id) && Names(h, entries[j], id) ==> i == j
  }

  lemma SortInsideSame(e: Entry)
    ensures SameEntry(e, SortInside(e))
  {
    if e.spec.Spec? {
      var accounts, sorted := e.spec.accounts, Sort(e.spec.accounts, ByCore());
      SortSameElements(accounts, ByCore());
      forall core, a ensures Lists(accounts, core, a) <==> Lists(sorted, core, a) {
        if Lists(accounts, core, a) {
          var i :| 0 <= i < |accounts| && accounts[i].core == core && accounts[i].ids.Some? && a in accounts[i].ids.value;
          assert accounts[i] in sorted;
          var j :| 0 <= j < |sorted| && sorted[j] == accounts[i];
        }
        if Lists(sorted, core, a) {
          var i :| 0 <= i < |sorted| && sorted[i].core == core && sorted[i].ids.Some? && a in sorted[i].ids.value;
          assert sorted[i] in accounts;
          var j :| 0 <= j < |accounts| && accounts[j] == sorted[i];
        }
      }
    }
  }

  // Every pushed entry is stored, and every stored entry was pushed.
  lemma StoredEntries(entries: seq<Entry>)
    ensures forall i :: 0 <= i < |entries| ==> SortInside(entries[i]) in Stored(entries)
    ensures forall e :: e in Stored(entries) ==> exists i :: 0 <= i < |entries| && SortInside(entries[i]) == e
  {
    var inner := seq(|entries|, i requires 0 <= i < |entries| => SortInside(entries[i]));
    SortSameElements(inner, ByKey());
    forall i | 0 <= i < |entries| ensures SortInside(entries[i]) in Stored(entries) {
      assert inner[i] in inner;
    }
    forall e | e in Stored(entries) ensures exists i :: 0 <= i < |entries| && SortInside(entries[i]) == e {
      assert e in inner;
      var i :| 0 <= i < |inner| && inner[i] == e;
      assert SortInside(entries[i]) == e;
    }
  }

  lemma {:induction false} NamedHasWinner(h: Host, entries: seq<Entry>, id: int, i: nat)
    requires i < |entries| && Names(h, entries[i], id)
    ensures exists w: nat :: Wins(h, entries, w, id)
    decreases |entries| - i
  {
    if !Wins(h, entries, i, id) {
      var j :| i < j < |entries| && Names(h, entries[j], id);
      NamedHasWinner(h, entries, id, j);
    }
  }

  // The same users are limited before and after, whatever the order.
  lemma SameUsers(h: Host, entries: seq<Entry>, id: int)
    ensures (exists i: nat :: Wins(h, entries, i, id)) <==> (exists j: nat :: Wins(h, Stored(entries), j, id))
  {
    StoredEntries(entries);
    var stored := Stored(entries);
    if i: nat :| Wins(h, entries, i, id) {
      var j :| 0 <= j < |stored| && stored[j] == SortInside(entries[i]);
      NamedHasWinner(h, stored, id, j);
    }
    if j: nat :| Wins(h, stored, j, id) {
      assert stored[j] in stored;
      var i :| 0 <= i < |entries| && SortInside(entries[i]) == stored[j];
      NamedHasWinner(h, entries, id, i);
    }
  }

  lemma StoredInOrder(entries: seq<Entry>, m: nat, j: nat)
    requires m < j < |Stored(entries)|
    ensures TextLe(Stored(entries)[m].key, Stored(entries)[j].key)
  {
    ByKeyIsTotal();
    SortSorted(seq(|entries|, i requires 0 <= i < |entries| => SortInside(entries[i])), ByKey());
    assert ByKey()(Stored(entries)[m], Stored(entries)[j]);
  }

  lemma ByCoreIsTotal()
    ensures TotalPreorder(ByCore())
  {
    forall x: CoreAccounts, y: CoreAccounts ensures ByCore()(x, y) || ByCore()(y, x) {
      TextLeTotal(x.core, y.core);
    }
    forall x: CoreAccounts, y: CoreAccounts, z: CoreAccounts | ByCore()(x, y) && ByCore()(y, z) ensures ByCore()(x, z) {
      TextLeTransitive(x.core, y.core, z.core);
    }
  }

  /** The file is sorted at both levels: its entries by key, each once for every pushed one, and the
      account lists of each by core. */
  lemma FileIsSorted(entries: seq<Entry>, m: nat, j: nat)
    requires m <= j < |Stored(entries)|
    ensures |Stored(entries)| == |entries|
    ensures TextLe(Stored(entries)[m].key, Stored(entries)[j].key)
    ensures var e := Stored(entries)[j];
            e.spec.Spec? ==> forall a, b :: 0 <= a < b < |e.spec.accounts| ==>
              TextLe(e.spec.accounts[a].core, e.spec.accounts[b].core)
  {
    TextLeTotal(Stored(entries)[j].key, Stored(entries)[j].key);
    if m < j {
      StoredInOrder(entries, m, j);
    }
    StoredEntries(entries);
    SortSameElements(seq(|entries|, i requires 0 <= i < |entries| => SortInside(entries[i])), ByKey());
    var e := Stored(entries)[j];
    assert e in Stored(entries);
    var i :| 0 <= i < |entries| && SortInside(entries[i]) == e;
    if e.spec.Spec? {
      ByCoreIsTotal();
      SortSorted(entries[i].spec.accounts, ByCore());
      forall a, b | 0 <= a < b < |e.spec.accounts| ensures TextLe(e.spec.accounts[a].core, e.spec.accounts[b].core) {
        assert ByCore()(e.spec.accounts[a], e.spec.accounts[b]);
      }
    }
  }

  lemma WinnerIsAbove(h: Host, entries: seq<Entry>, j: nat, id: int, k: nat)
    requires Wins(h, Stored(entries), j, id) && k < |entries| && Names(h, entries[k], id)
    ensures TextLe(entries[k].key, Stored(entries)[j].key)
  {
    StoredEntries(entries);
    var stored := Stored(entries);
    var m :| 0 <= m < |stored| && stored[m] == SortInside(entries[k]);
    assert Names(h, stored[m], id);
    TextLeTotal(stored[m].key, stored[j].key);
    if m < j {
      StoredInOrder(entries, m, j);
    }
  }

  // After a restart the winner is the entry with the greatest key.
  lemma StoredWinnerHasGreatestKey(h: Host, entries: seq<Entry>, j: nat, id: int)
    requires Wins(h, Stored(entries), j, id)
    ensures exists i :: 0 <= i < |entries| && SortInside(entries[i]) == Stored(entries)[j] && Greatest(h, entries, i, id)
  {
    StoredEntries(entries);
    assert Stored(entries)[j] in Stored(entries);
    var i :| 0 <= i < |entries| && SortInside(entries[i]) == Stored(entries)[j];
    forall k | 0 <= k < |entries| && Names(h, entries[k], id) ensures TextLe(entries[k].key, entries[i].key) {
      WinnerIsAbove(h, entries, j, id, k);
    }
  }

  ghost predicate Greatest(h: Host, entries: seq<Entry>, i: nat, id: int) {
    i < |entries| && Names(h, entries[i], id)
    && forall k :: 0 <= k < |entries| && Names(h, entries[k], id) ==> TextLe(entries[k].key, entries[i].key)
  }

  // One limit fits both entries.
  ghost predicate Agree(h: Host, e: Entry, e': Entry, id: int) {
    exists limit :: Builds(h, e, id, limit) && Builds(h, e', id, limit)
  }

  lemma BuildsThroughSort(h: Host, e: Entry, id: int, limit: UserLimit)
    requires e.spec.Spec?
    ensures Builds(h, SortInside(e), id, limit) <==> Builds(h, e, id, limit)
  {
    SortInsideSame(e);
    forall s ensures HasSource(h, e.spec.accounts, s) <==> HasSource(h, SortInside(e).spec.accounts, s) {}
    forall u: int ensures HasUid(h, e.spec.accounts, u) <==> HasUid(h, SortInside(e).spec.accounts, u) {}
  }

  ghost predicate WinnersAgree(h: Host, entries: seq<Entry>) {
    forall i: nat, g: nat, id :: Wins(h, entries, i, id) && Greatest(h, entries, g, id) ==>
      Agree(h, entries[i], entries[g], id)
  }

  lemma AgreeingWinnersKeep(h: Host, entries: seq<Entry>, before: map<int, UserLimit>, after: map<int, UserLimit>, id: int)
    requires DistinctKeys(entries) && WinnersAgree(h, entries)
    requires IsDesired(h, entries, before) && IsDesired(h, Stored(entries), after)
    requires id in before && id in after
    ensures before[id] == after[id]
  {
    var i: nat :| Wins(h, entries, i, id);
    var j: nat :| Wins(h, Stored(entries), j, id);
    StoredWinnerHasGreatestKey(h, entries, j, id);
    var g :| 0 <= g < |entries| && SortInside(entries[g]) == Stored(entries)[j] && Greatest(h, entries, g, id);
    AfterIsBuiltByGreatest(h, entries, after, g, id);
    assert Agree(h, entries[i], entries[g], id);
    var limit :| Builds(h, entries[i], id, limit) && Builds(h, entries[g], id, limit);
    BuildsOneLimit(h, entries[i], entries[i], id, limit, before[id]);
    BuildsOneLimit(h, entries[g], entries[g], id, limit, after[id]);
  }

  /** A restart keeps the desired state exactly when, for every user, the last pushed key and the
      greatest key that read as its id build the same limit. */
  lemma RestartKeepsDesiredIff(h: Host, entries: seq<Entry>, before: map<int, UserLimit>, after: map<int, UserLimit>)
    requires DistinctKeys(entries)
    requires IsDesired(h, entries, before) && IsDesired(h, Stored(entries), after)
    ensures before == after <==> WinnersAgree(h, entries)
  {
    if before == after {
      forall i: nat, g: nat, id | Wins(h, entries, i, id) && Greatest(h, entries, g, id)
        ensures Agree(h, entries[i], entries[g], id)
      {
        AfterIsBuiltByGreatest(h, entries, after, g, id);
        assert Builds(h, entries[i], id, before[id]);
      }
    } else if WinnersAgree(h, entries) {
      forall id ensures id in before <==> id in after {
        SameUsers(h, entries, id);
      }
      forall id | id in before ensures before[id] == after[id] {
        AgreeingWinnersKeep(h, entries, before, after, id);
      }
    }
  }

  lemma AfterIsBuiltByGreatest(h: Host, entries: seq<Entry>, after: map<int, UserLimit>, g: nat, id: int)
    requires DistinctKeys(entries) && IsDesired(h, Stored(entries), after) && Greatest(h, entries, g, id)
    ensures id in after && Builds(h, entries[g], id, after[id])
  {
    StoredEntries(entries);
    var stored := Stored(entries);
    var m :| 0 <= m < |stored| && stored[m] == SortInside(entries[g]);
    NamedHasWinner(h, stored, id, m);
    var j: nat :| Wins(h, stored, j, id);
    StoredWinnerHasGreatestKey(h, entries, j, id);
    var i :| 0 <= i < |entries| && SortInside(entries[i]) == stored[j] && Greatest(h, entries, i, id);
    TextLeTotal(entries[i].key, entries[g].key);
    assert i == g;
    BuildsThroughSort(h, entries[g], id, after[id]);
  }

  /** When no two keys read as the same user id, a restart changes nothing. */
  lemma RestartKeepsDesired(h: Host, entries: seq<Entry>, before: map<int, UserLimit>, after: map<int, UserLimit>)
    requires DistinctKeys(entries) && NoCollision(h, entries)
    requires IsDesired(h, entries, before) && IsDesired(h, Stored(entries), after)
    ensures before == after
  {
    forall i: nat, g: nat, id | Wins(h, entries, i, id) && Greatest(h, entries, g, id)
      ensures Agree(h, entries[i], entries[g], id)
    {
      assert i == g;
      assert Builds(h, entries[i], id, before[id]);
    }
    RestartKeepsDesiredIff(h, entries, before, after);
  }

  // The latest push that was written, and the latest push since the last restart.
  ghost function LastWritten(events: seq<Event>): Option<seq<Entry>> {
    if events == [] then None
    else
      var last := events[|events| - 1];
      if last.Push? && last.writeOk then Some(last.pushed) else LastWritten(events[..|events| - 1])
  }

  ghost function LastPushed(events: seq<Event>): Option<seq<Entry>> {
    if events == [] || events[|events| - 1].Restart? then None else Some(events[|events| - 1].pushed)
  }

  // The file holds the latest written push, sorted; the limits in force are the latest push, or
  // after a restart what the file holds.
  lemma {:induction false} RunHoldsLatest(events: seq<Event>)
    ensures var s, written := Run(Limits([], None), events), LastWritten(events);
            && s.file == (if written.Some? then Some(Stored(written.value)) else None)
            && s.limits == if LastPushed(events).Some? then LastPushed(events).value
                           else if s.file.Some? then s.file.value else []
  {
    if events != [] {
      RunHoldsLatest(events[..|events| - 1]);
    }
  }

  /** After any run of pushes, failed writes and restarts, a restart rolls the limits back to the
      latest push that was written; the desired state stays as that push meant it exactly when, for
      every user, its last key and its greatest key build the same limit. */
  lemma RestartRollsBackToLastWritten(h: Host, events: seq<Event>, written: seq<Entry>,
                                      meant: map<int, UserLimit>, after: map<int, UserLimit>)
    requires LastWritten(events) == Some(written) && DistinctKeys(written)
    requires IsDesired(h, written, meant)
    requires IsDesired(h, Run(Limits([], None), events + [Restart]).limits, after)
    ensures meant == after <==> WinnersAgree(h, written)
  {
    RunHoldsLatest(events);
    assert (events + [Restart])[..|events|] == events;
    RestartKeepsDesiredIff(h, written, meant, after);
  }

  lemma StoredSpoilsAlike(h: Host, entries: seq<Entry>)
    ensures AnySpoils(h, Stored(entries)) <==> AnySpoils(h, entries)
    ensures AnySpoilsCount(Stored(entries)) <==> AnySpoilsCount(entries)
  {
    StoredEntries(entries);
    forall e | e in entries ensures SortInside(e) in Stored(entries) {
      var i :| 0 <= i < |entries| && entries[i] == e;
    }
    forall e ensures Spoils(h, SortInside(e)) <==> Spoils(h, e)
             ensures SpoilsCount(SortInside(e)) <==> SpoilsCount(e) {}
    if AnySpoils(h, entries) {
      var e :| e in entries && Spoils(h, e);
      assert SortInside(e) in Stored(entries);
    }
    if AnySpoilsCount(entries) {
      var e :| e in entries && SpoilsCount(e);
      assert SortInside(e) in Stored(entries);
    }
  }

  // An upload that is not a number, or a zero upload and a download that is not one.
  predicate StopsCount(e: Entry) {
    match e.spec
    case NotAnObject => false
    case Spec(_, upload, download, _) => upload == NotANumber || (upload == Number(0) && download == NotANumber)
  }

  lemma StopsWrittenOut(entries: seq<Entry>)
    ensures AnySpoilsCount(entries) <==> exists e :: e in entries && StopsCount(e)
  {
    if AnySpoilsCount(entries) {
      var e :| e in entries && SpoilsCount(e);
      assert StopsCount(e);
    }
    if e :| e in entries && StopsCount(e) {
      assert SpoilsCount(e);
    }
  }

  /** A push that makes the answer raise is stored all the same, and then every later start raises
      too: after any run a start raises exactly when some entry of the latest written push has an
      upload that is not a number, or a zero upload and a download that is not one. */
  lemma StartRaisesExactly(h: Host, events: seq<Event>, hostOk: bool)
    ensures var written := LastWritten(events);
            ApplyOf(h, Run(Limits([], None), events + [Restart]).limits, hostOk) == Raised <==>
            written.Some? && exists e :: e in written.value && StopsCount(e)
  {
    RunHoldsLatest(events);
    assert (events + [Restart])[..|events|] == events;
    if LastWritten(events).Some? {
      StoredSpoilsAlike(h, LastWritten(events).value);
      StopsWrittenOut(LastWritten(events).value);
    }
  }

  /** One user without an upload rate and with a download rate that is not a number is enough: the
      push is stored, and every start from then on raises. */
  lemma BadRateStopsEveryStart(h: Host, hostOk: bool)
    ensures var bad := [Entry("1", Spec("", Number(0), NotANumber, []))];
            && ApplyOf(h, bad, hostOk) == Raised
            && ApplyOf(h, Run(Limits([], None), [Event.Push(bad, true), Restart]).limits, hostOk) == Raised
  {
    var bad := [Entry("1", Spec("", Number(0), NotANumber, []))];
    assert bad[0] in bad && SpoilsCount(bad[0]);
    var events := [Event.Push(bad, true)];
    assert events + [Restart] == [Event.Push(bad, true), Restart];
    StartRaisesExactly(h, events, hostOk);
  }

  /** With a collision a restart can change the rates: "1" was pushed last and won, "1 " sorts
      after it and wins from then on. */
  lemma CollisionChangesLimit(h: Host, before: map<int, UserLimit>, after: map<int, UserLimit>)
    requires h.parse("1") == Some(1) && h.parse("1 ") == Some(1)
    requires var entries := [Entry("1 ", Spec("a", Number(5), Number(5), [])), Entry("1", Spec("a", Number(9), Number(9), []))];
             IsDesired(h, entries, before) && IsDesired(h, Stored(entries), after)
    ensures 1 in before && 1 in after && before[1].upload == 9 && after[1].upload == 5
  {
    var entries := [Entry("1 ", Spec("a", Number(5), Number(5), [])), Entry("1", Spec("a", Number(9), Number(9), []))];
    assert Wins(h, entries, 1, 1);
    assert TextLe("1", "1 ");
    assert Greatest(h, entries, 0, 1);
    AfterIsBuiltByGreatest(h, entries, after, 0, 1);
  }
}
