/** Usage deltas and the persisted cursor that keeps an agent restart from billing twice. */
module UsageAccounting {
  import opened Common

  datatype Direction = Up | Down

  datatype Totals = Totals(up: nat, down: nat)
  {
    function Get(d: Direction): nat {
      if d.Up? then up else down
    }
  }

  const ZERO := Totals(0, 0)

  // Growth of a cumulative counter; a lower value starts a new generation.
  function Delta(current: nat, previous: nat): nat {
    if current >= previous then current - previous else current
  }

  type Baseline = map<string, Totals>

  function Of(b: Baseline, account: string): Totals {
    if account in b then b[account] else ZERO
  }

  // ---------------------------------------------------------------------------
  // The persistence key "core:account"
  // ---------------------------------------------------------------------------

  predicate CoreId(core: string) {
    core != "" && ':' !in core
  }

  function PersistKey(core: string, account: string): string {
    core + ":" + account
  }

  // str.partition(":")
  function CoreOf(key: string): string {
    if key == "" || key[0] == ':' then "" else [key[0]] + CoreOf(key[1..])
  }

  function AccountOf(key: string): string {
    if key == "" then "" else if key[0] == ':' then key[1..] else AccountOf(key[1..])
  }

  /** A key decodes to the core and account it was made from, whatever the account id holds. */
  lemma {:induction false} KeyDecodes(core: string, account: string)
    requires ':' !in core
    ensures CoreOf(PersistKey(core, account)) == core && AccountOf(PersistKey(core, account)) == account
  {
    var key := PersistKey(core, account);
    if core == "" {
      assert key == ":" + account;
    } else {
      assert key[0] == core[0] && key[1..] == PersistKey(core[1..], account);
      KeyDecodes(core[1..], account);
    }
  }

  // What partition makes of any key at all: without a colon the key is all core.
  lemma {:induction false} KeyParts(key: string)
    ensures ':' !in CoreOf(key)
    ensures if ':' in key then key == PersistKey(CoreOf(key), AccountOf(key)) else CoreOf(key) == key && AccountOf(key) == ""
  {
    if key != "" && key[0] != ':' {
      KeyParts(key[1..]);
      assert key == [key[0]] + key[1..];
    }
  }

  const NODE_CORE_ALLOWLIST := {"xray", "sing-box", "openvpn", "wireguard", "ssh", "softether", "pptp"}

  lemma AllowedCoresHaveKeys()
    ensures forall core :: core in NODE_CORE_ALLOWLIST ==> CoreId(core)
  {
  }

  // ---------------------------------------------------------------------------
  // Reading: the tracker turns counters into deltas, zero records are dropped
  // ---------------------------------------------------------------------------

  datatype Reading = Reading(account: string, totals: Totals)

  datatype Record = Record(core: string, account: string, delta: Totals)

  function DeltaOf(b: Baseline, r: Reading): Totals {
    Totals(Delta(r.totals.up, Of(b, r.account).up), Delta(r.totals.down, Of(b, r.account).down))
  }

  function ObserveAll(b: Baseline, readings: seq<Reading>): Baseline
    decreases readings
  {
    if readings == [] then b else ObserveAll(b[readings[0].account := readings[0].totals], readings[1..])
  }

  function Found(b: Baseline, core: string, readings: seq<Reading>): seq<Record>
    decreases readings
  {
    if readings == [] then []
    else [Record(core, readings[0].account, DeltaOf(b, readings[0]))]
         + Found(b[readings[0].account := readings[0].totals], core, readings[1..])
  }

  function Nonzero(records: seq<Record>): seq<Record> {
    if records == [] then []
    else (if records[0].delta == ZERO then [] else [records[0]]) + Nonzero(records[1..])
  }

  lemma NonzeroSplits(records: seq<Record>)
    requires records != []
    ensures records[0].delta == ZERO ==> Nonzero(records) == Nonzero(records[1..])
    ensures records[0].delta != ZERO ==> Nonzero(records) == [records[0]] + Nonzero(records[1..])
  {
  }

  function Sum(records: seq<Record>, core: string, account: string, d: Direction): nat {
    if records == [] then 0
    else (if records[0].core == core && records[0].account == account then records[0].delta.Get(d) else 0)
         + Sum(records[1..], core, account, d)
  }

  lemma {:induction false} SumConcat(a: seq<Record>, b: seq<Record>, core: string, account: string, d: Direction)
    ensures Sum(a + b, core, account, d) == Sum(a, core, account, d) + Sum(b, core, account, d)
  {
    if a == [] {
      assert a + b == b;
    } else {
      assert (a + b)[1..] == a[1..] + b;
      SumConcat(a[1..], b, core, account, d);
    }
  }

  /** Leaving out the records of idle accounts changes no sum. */
  lemma {:induction false} ZeroRecordsDoNotCount(records: seq<Record>, core: string, account: string, d: Direction)
    ensures Sum(Nonzero(records), core, account, d) == Sum(records, core, account, d)
  {
    if records != [] {
      ZeroRecordsDoNotCount(records[1..], core, account, d);
      var kept := if records[0].delta == ZERO then [] else [records[0]];
      SumConcat(kept, Nonzero(records[1..]), core, account, d);
    }
  }

  /** A record says whose bytes they are and how many, written out: the i-th is for the i-th reading's
      account on the core that was read, and holds on each direction the growth since the total the
      tracker had then, or the whole total when that has become smaller. */
  lemma {:induction false} FoundWrittenOut(b: Baseline, core: string, readings: seq<Reading>, i: nat)
    requires i < |readings|
    ensures var found, r := Found(b, core, readings), readings[i];
            var had := Of(ObserveAll(b, readings[..i]), r.account);
            && |found| == |readings| && found[i].core == core && found[i].account == r.account
            && found[i].delta.up == (if r.totals.up < had.up then r.totals.up else r.totals.up - had.up)
            && found[i].delta.down == (if r.totals.down < had.down then r.totals.down else r.totals.down - had.down)
    decreases readings
  {
    var b', rest := b[readings[0].account := readings[0].totals], readings[1..];
    FoundLength(b, core, readings);
    if i > 0 {
      FoundWrittenOut(b', core, rest, i - 1);
      assert readings[..i][1..] == rest[..i - 1] && readings[..i][0] == readings[0];
    }
  }

  lemma {:induction false} FoundLength(b: Baseline, core: string, readings: seq<Reading>)
    ensures |Found(b, core, readings)| == |readings|
    decreases readings
  {
    if readings != [] {
      FoundLength(b[readings[0].account := readings[0].totals], core, readings[1..]);
    }
  }

  /** A tracker holds, for an account that was read, what the last reading of it showed, and for any
      other what it held. */
  lemma {:induction false} ObserveAllWrittenOut(b: Baseline, readings: seq<Reading>, last: Reading, other: string)
    ensures Of(ObserveAll(b, readings + [last]), last.account) == last.totals
    ensures (forall r :: r in readings ==> r.account != other) ==> Of(ObserveAll(b, readings), other) == Of(b, other)
    decreases readings
  {
    if readings == [] {
      assert readings + [last] == [last] && [last][1..] == [];
      assert ObserveAll(b[last.account := last.totals], []) == b[last.account := last.totals];
    } else {
      assert (readings + [last])[1..] == readings[1..] + [last] && (readings + [last])[0] == readings[0];
      assert readings == [readings[0]] + readings[1..];
      ObserveAllWrittenOut(b[readings[0].account := readings[0].totals], readings[1..], last, other);
    }
  }

  /** Of what was found exactly the records with bytes in some direction are kept. */
  lemma {:induction false} KeptExactly(records: seq<Record>, r: Record)
    ensures r in Nonzero(records) <==> r in records && (r.delta.up > 0 || r.delta.down > 0)
  {
    if records != [] {
      KeptExactly(records[1..], r);
      NonzeroSplits(records);
      assert records == [records[0]] + records[1..];
    }
  }

  class DeltaTracker {
    var baseline: Baseline

    constructor ()
      ensures baseline == map[]
    {
      baseline := map[];
    }

    method Observe(account: string, uplink: int, downlink: int) returns (delta: Totals)
      modifies this
      ensures var totals := Totals(if uplink < 0 then 0 else uplink, if downlink < 0 then 0 else downlink);
              && delta == DeltaOf(old(baseline), Reading(account, totals))
              && baseline == old(baseline)[account := totals]
    {
      var base := Of(baseline, account);
      var up := if uplink < 0 then 0 else uplink;
      var down := if downlink < 0 then 0 else downlink;
      delta := Totals(Delta(up, base.up), Delta(down, base.down));
      baseline := baseline[account := Totals(up, down)];
    }

    // A driver's get_usage over the counters its provider shows.
    method GetUsage(core: string, readings: seq<Reading>) returns (found: seq<Record>)
      modifies this
      ensures found == Found(old(baseline), core, readings)
      ensures baseline == ObserveAll(old(baseline), readings)
    {
      found := [];
      for i := 0 to |readings|
        invariant found + Found(baseline, core, readings[i..]) == Found(old(baseline), core, readings)
        invariant ObserveAll(baseline, readings[i..]) == ObserveAll(old(baseline), readings)
      {
        var r := readings[i];
        assert readings[i..][1..] == readings[i + 1..];
        var delta := Observe(r.account, r.totals.up, r.totals.down);
        found := found + [Record(core, r.account, delta)];
      }
      assert readings[|readings|..] == [];
    }

    method Restore(baselines: Baseline)
      modifies this
      ensures baseline == old(baseline) + baselines
    {
      baseline := baseline + baselines;
    }
  }

  // ---------------------------------------------------------------------------
  // The baseline file
  // ---------------------------------------------------------------------------

  datatype File = Missing | Corrupt | Saved(entries: map<string, Totals>)

  function Entries(f: File): map<string, Totals> {
    if f.Saved? then f.entries else map[]
  }

  // baselines[f"{core}:{account}"] = totals, for every account of a snapshot
  function Encode(core: string, snapshot: Baseline): map<string, Totals> {
    map k | k in (set a | a in snapshot :: PersistKey(core, a)) && AccountOf(k) in snapshot :: snapshot[AccountOf(k)]
  }

  lemma EncodeLooksUp(core: string, snapshot: Baseline, other: string, a: string)
    requires CoreId(core) && CoreId(other)
    ensures PersistKey(other, a) in Encode(core, snapshot) <==> other == core && a in snapshot
    ensures other == core && a in snapshot ==> Encode(core, snapshot)[PersistKey(other, a)] == snapshot[a]
  {
    KeyDecodes(other, a);
    if PersistKey(other, a) in Encode(core, snapshot) {
      var a' :| a' in snapshot && PersistKey(other, a) == PersistKey(core, a');
      KeyDecodes(core, a');
    }
  }

  // The file is rewritten in place: a write can fail before the file is opened, or after it
  // has been cut short.
  datatype SaveOutcome = Written | NotOpened | CutShort

  function SaveFile(f: File, baselines: map<string, Totals>): File {
    Saved(Entries(f) + baselines)
  }

  // What a restart hands the driver of one core.
  function Restored(f: File, core: string): Baseline {
    var entries := Entries(f);
    map a | a in (set k | k in entries && CoreOf(k) == core :: AccountOf(k)) && PersistKey(core, a) in entries
      :: entries[PersistKey(core, a)]
  }

  lemma RestoredLooksUp(f: File, core: string, a: string)
    requires CoreId(core)
    ensures a in Restored(f, core) <==> PersistKey(core, a) in Entries(f)
    ensures a in Restored(f, core) ==> Restored(f, core)[a] == Entries(f)[PersistKey(core, a)]
  {
    KeyDecodes(core, a);
  }

  function AfterSave(f: File, baselines: map<string, Totals>, outcome: SaveOutcome): File {
    match outcome
    case Written => SaveFile(f, baselines)
    case NotOpened => f
    case CutShort => Corrupt
  }

  type Core = c: string | CoreId(c) witness "xray"

  datatype Snapshot = Snapshot(core: Core, baseline: Baseline)

  // The keys of one poll, collected core by core.
  function EncodeAll(parts: seq<Snapshot>): map<string, Totals> {
    if parts == [] then map[]
    else
      var last := parts[|parts| - 1];
      EncodeAll(parts[..|parts| - 1]) + Encode(last.core, last.baseline)
  }

  // The file is written only when there is something to write.
  function SaveParts(f: File, parts: seq<Snapshot>): File {
    if EncodeAll(parts) == map[] then f else SaveFile(f, EncodeAll(parts))
  }

  function SaveRun(f: File, saves: seq<seq<Snapshot>>): File {
    if saves == [] then f else SaveParts(SaveRun(f, saves[..|saves| - 1]), saves[|saves| - 1])
  }

  // What the latest snapshot that mentions the account says.
  ghost function LastOf(parts: seq<Snapshot>, core: Core, account: string): Option<Totals> {
    if parts == [] then None
    else
      var last := parts[|parts| - 1];
      if last.core == core && account in last.baseline then Some(last.baseline[account])
      else LastOf(parts[..|parts| - 1], core, account)
  }

  ghost function LastSaved(saves: seq<seq<Snapshot>>, core: Core, account: string): Option<Totals> {
    if saves == [] then None
    else
      var now := LastOf(saves[|saves| - 1], core, account);
      if now.Some? then now else LastSaved(saves[..|saves| - 1], core, account)
  }

  lemma {:induction false} EncodeAllLooksUp(parts: seq<Snapshot>, core: Core, account: string)
    ensures var m, k := EncodeAll(parts), PersistKey(core, account);
            (if k in m then Some(m[k]) else None) == LastOf(parts, core, account)
  {
    if parts != [] {
      var last := parts[|parts| - 1];
      EncodeAllLooksUp(parts[..|parts| - 1], core, account);
      EncodeLooksUp(last.core, last.baseline, core, account);
    }
  }

  lemma {:induction false} SaveRunLooksUp(saves: seq<seq<Snapshot>>, core: Core, account: string)
    ensures var m, k := Entries(SaveRun(Missing, saves)), PersistKey(core, account);
            (if k in m then Some(m[k]) else None) == LastSaved(saves, core, account)
  {
    if saves != [] {
      SaveRunLooksUp(saves[..|saves| - 1], core, account);
      EncodeAllLooksUp(saves[|saves| - 1], core, account);
    }
  }

  /** After any sequence of saves a restart gives each core exactly the totals last saved for
      each of its accounts, colons in account ids notwithstanding. */
  lemma RestoreGivesLastSaved(saves: seq<seq<Snapshot>>, core: Core)
    ensures var b := Restored(SaveRun(Missing, saves), core);
            forall a :: (if a in b then Some(b[a]) else None) == LastSaved(saves, core, a)
  {
    forall a
      ensures var b := Restored(SaveRun(Missing, saves), core);
              (if a in b then Some(b[a]) else None) == LastSaved(saves, core, a)
    {
      SaveRunLooksUp(saves, core, a);
      RestoredLooksUp(SaveRun(Missing, saves), core, a);
    }
  }

  // ---------------------------------------------------------------------------
  // The agent: one telemetry poll, and the restore at boot
  // ---------------------------------------------------------------------------

  // A read that timed out or raised may already have moved the tracker.
  datatype CoreRead =
    | Broken(core: Core, observed: seq<Reading>)
    | Complete(core: Core, readings: seq<Reading>, snapshotOk: bool)

  datatype Poll = Poll(records: seq<Record>, baselines: map<string, Totals>)

  type Trackers = map<Core, Baseline>

  function TrackerOf(t: Trackers, core: Core): Baseline {
    if core in t then t[core] else map[]
  }

  function ReadStep(t: Trackers, poll: Poll, read: CoreRead): (Trackers, Poll) {
    var before := TrackerOf(t, read.core);
    match read
    case Broken(core, observed) => (t[core := ObserveAll(before, observed)], poll)
    case Complete(core, readings, snapshotOk) =>
      var after := ObserveAll(before, readings);
      (t[core := after],
       Poll(poll.records + Nonzero(Found(before, core, readings)),
            poll.baselines + if snapshotOk then Encode(core, after) else map[]))
  }

  function ReadAll(t: Trackers, poll: Poll, polled: seq<CoreRead>): (Trackers, Poll)
    decreases polled
  {
    if polled == [] then (t, poll)
    else
      var (t', poll') := ReadStep(t, poll, polled[0]);
      ReadAll(t', poll', polled[1..])
  }

  class UsageAgent {
    // The installed drivers' trackers, by core.
    const drivers: map<Core, DeltaTracker>
    var file: File

    ghost predicate Valid() {
      forall c, d :: c in drivers && d in drivers && drivers[c] == drivers[d] ==> c == d
    }

    ghost function Trackers(): Trackers
      reads drivers.Values
    {
      map core | core in drivers :: drivers[core].baseline
    }

    constructor (drivers: map<Core, DeltaTracker>, file: File)
      requires forall c, d :: c in drivers && d in drivers && drivers[c] == drivers[d] ==> c == d
      ensures Valid() && this.drivers == drivers && this.file == file
    {
      this.drivers, this.file := drivers, file;
    }

    method SaveUsageBaselines(baselines: map<string, Totals>, outcome: SaveOutcome)
      modifies this`file
      ensures file == AfterSave(old(file), baselines, outcome)
    {
      var merged := map[];
      if file.Saved? {
        merged := file.entries;
      }
      merged := merged + baselines;
      if outcome.NotOpened? {
        return;
      }
      file := Corrupt;
      if outcome.Written? {
        file := Saved(merged);
      }
    }

    method ReadCore(read: CoreRead, poll: Poll) returns (poll': Poll)
      requires Valid() && read.core in drivers
      modifies drivers[read.core]
      ensures (Trackers(), poll') == ReadStep(old(Trackers()), poll, read)
    {
      poll' := poll;
      var driver := drivers[read.core];
      match read {
        case Broken(core, observed) =>
          // What had been found when the read broke off is dropped.
          var _ := driver.GetUsage(core, observed);
        case Complete(core, readings, snapshotOk) =>
          var found := driver.GetUsage(core, readings);
          var kept := DropIdle(found);
          poll' := poll'.(records := poll'.records + kept);
          var snapshot := map[];
          if snapshotOk {
            snapshot := Encode(core, driver.baseline);
          }
          poll' := poll'.(baselines := poll'.baselines + snapshot);
      }
      assert Trackers() == old(Trackers())[read.core := driver.baseline];
    }

    method RuntimeUsage(polled: seq<CoreRead>, outcome: SaveOutcome) returns (records: seq<Record>)
      requires Valid() && forall read :: read in polled ==> read.core in drivers
      modifies this`file, drivers.Values
      ensures var (t, poll) := ReadAll(old(Trackers()), Poll([], map[]), polled);
              && Trackers() == t && records == poll.records
              && file == if poll.baselines != map[] then AfterSave(old(file), poll.baselines, outcome) else old(file)
    {
      var poll := Poll([], map[]);
      for i := 0 to |polled|
        invariant file == old(file)
        invariant ReadAll(Trackers(), poll, polled[i..]) == ReadAll(old(Trackers()), Poll([], map[]), polled)
      {
        assert polled[i..][1..] == polled[i + 1..];
        poll := ReadCore(polled[i], poll);
      }
      // The cursor moves only after every delta has been collected.
      if poll.baselines != map[] {
        SaveUsageBaselines(poll.baselines, outcome);
      }
      records := poll.records;
    }

    static method DropIdle(found: seq<Record>) returns (kept: seq<Record>)
      ensures kept == Nonzero(found)
    {
      kept := [];
      for i := 0 to |found|
        invariant kept + Nonzero(found[i..]) == Nonzero(found)
      {
        NonzeroSplits(found[i..]);
        assert found[i..][1..] == found[i + 1..];
        if found[i].delta.up != 0 || found[i].delta.down != 0 {
          kept := kept + [found[i]];
        }
      }
    }

    // Groups the file's entries by core and hands each installed core its part.
    method RestoreUsageBaselines()
      requires Valid()
      modifies drivers.Values
      ensures forall core :: core in drivers ==>
                Hands(drivers[core].baseline, old(drivers[core].baseline), file, core)
    {
      if !file.Saved? {
        forall core | core in drivers ensures Hands(drivers[core].baseline, old(drivers[core].baseline), file, core) {
          NothingToHand(drivers[core].baseline, file, core);
        }
        return;
      }
      var byCore := GroupByCore(file.entries);
      var cores: set<Core> := set core | core in drivers && core in byCore;
      ghost var all := cores;
      while cores != {}
        invariant cores <= all
        invariant forall core :: core in drivers ==>
                    drivers[core].baseline == old(drivers[core].baseline) + (if core in all - cores then byCore[core] else map[])
      {
        var core: Core :| core in cores;
        cores := cores - {core};
        drivers[core].Restore(byCore[core]);
      }
      forall core | core in drivers ensures Hands(drivers[core].baseline, old(drivers[core].baseline), file, core) {
        assert drivers[core].baseline == old(drivers[core].baseline) + GroupOf(byCore, core);
        GroupsAreHanded(byCore, file.entries, core, old(drivers[core].baseline));
      }
    }

    static method GroupByCore(entries: map<string, Totals>) returns (byCore: map<string, Baseline>)
      ensures Groups(byCore, entries)
    {
      byCore := map[];
      var keys := entries.Keys;
      ghost var handled: map<string, Totals> := map[];
      while keys != {}
        invariant keys <= entries.Keys && handled.Keys == entries.Keys - keys
        invariant forall k :: k in handled ==> handled[k] == entries[k]
        invariant Groups(byCore, handled)
      {
        var key :| key in keys;
        keys := keys - {key};
        var core, account := CoreOf(key), AccountOf(key);
        GroupOneMore(byCore, handled, key, entries[key]);
        if core != "" {
          byCore := byCore[core := GroupOf(byCore, core)[account := entries[key]]];
        }
        handled := handled[key := entries[key]];
      }
      assert handled == entries;
    }
  }

  function GroupOf(byCore: map<string, Baseline>, core: string): Baseline {
    if core in byCore then byCore[core] else map[]
  }

  ghost predicate Agree(b: Baseline, a: string, m: map<string, Totals>, key: string) {
    (a in b <==> key in m) && (a in b ==> b[a] == m[key])
  }

  // The key "core" without a colon decodes like "core:", so the two hide each other; save never
  // writes it.
  predicate Plain(m: map<string, Totals>, core: string, a: string) {
    a != "" || core !in m
  }

  ghost predicate Groups(byCore: map<string, Baseline>, entries: map<string, Totals>) {
    forall core: Core, a: string :: Plain(entries, core, a) ==>
      Agree(GroupOf(byCore, core), a, entries, PersistKey(core, a))
  }

  // A restored tracker holds the file's totals for the accounts the file lists, and its own for
  // the others.
  ghost predicate Hands(after: Baseline, before: Baseline, f: File, core: Core) {
    forall a :: Plain(Entries(f), core, a) ==>
      if PersistKey(core, a) in Entries(f) then a in after && after[a] == Entries(f)[PersistKey(core, a)]
      else (a in after <==> a in before) && (a in after ==> after[a] == before[a])
  }

  lemma NothingToHand(b: Baseline, f: File, core: Core)
    requires !f.Saved?
    ensures Hands(b, b, f, core)
  {
  }

  lemma GroupOneMore(byCore: map<string, Baseline>, m: map<string, Totals>, key: string, totals: Totals)
    requires Groups(byCore, m) && key !in m
    ensures var core := CoreOf(key);
            Groups(if core == "" then byCore else byCore[core := GroupOf(byCore, core)[AccountOf(key) := totals]],
                   m[key := totals])
  {
    var core, account, m' := CoreOf(key), AccountOf(key), m[key := totals];
    var more := if core == "" then byCore else byCore[core := GroupOf(byCore, core)[account := totals]];
    KeyParts(key);
    forall other: Core, a: string | Plain(m', other, a) ensures Agree(GroupOf(more, other), a, m', PersistKey(other, a)) {
      KeyDecodes(other, a);
      assert Agree(GroupOf(byCore, other), a, m, PersistKey(other, a));
      if other == core && a == account {
        assert ':' in key ==> key == PersistKey(other, a);
      }
    }
  }

  lemma GroupsAreHanded(byCore: map<string, Baseline>, entries: map<string, Totals>, core: Core, before: Baseline)
    requires Groups(byCore, entries)
    ensures Hands(before + GroupOf(byCore, core), before, Saved(entries), core)
  {
    forall a | Plain(entries, core, a) ensures Agree(GroupOf(byCore, core), a, entries, PersistKey(core, a)) {}
  }

  // With the files save writes, what is handed over is exactly what the file holds for the core.
  lemma HandedIsRestored(after: Baseline, before: Baseline, f: File, core: Core)
    requires Hands(after, before, f, core) && core !in Entries(f)
    ensures after == before + Restored(f, core)
  {
    forall a ensures a in after <==> a in before + Restored(f, core)
             ensures a in after ==> after[a] == (before + Restored(f, core))[a]
    {
      assert Plain(Entries(f), core, a);
      RestoredLooksUp(f, core, a);
    }
  }

  // ---------------------------------------------------------------------------
  // The round trip: save, restart, read
  // ---------------------------------------------------------------------------

  lemma {:induction false} FoundDependsOnListed(b: Baseline, b': Baseline, core: string, readings: seq<Reading>)
    requires forall r :: r in readings ==> Of(b, r.account) == Of(b', r.account)
    ensures Found(b, core, readings) == Found(b', core, readings)
    decreases readings
  {
    if readings != [] {
      var r := readings[0];
      FoundDependsOnListed(b[r.account := r.totals], b'[r.account := r.totals], core, readings[1..]);
    }
  }

  /** A tracker that is saved, and restored into the empty tracker of the next start, goes on
      where it was: whatever the counters then show, the next read bills what it would have billed
      without the restart, for every account the tracker knew. */
  lemma RestartResumesCursor(f: File, b: Baseline, after: Baseline, core: Core, readings: seq<Reading>)
    requires Hands(after, map[], SaveFile(f, Encode(core, b)), core)
    requires forall r :: r in readings ==> r.account in b && Plain(Entries(f), core, r.account)
    ensures Found(after, core, readings) == Found(b, core, readings)
  {
    forall r | r in readings ensures Of(after, r.account) == Of(b, r.account) {
      EncodeLooksUp(core, b, core, r.account);
      assert core !in Encode(core, b);
      assert Plain(Entries(SaveFile(f, Encode(core, b))), core, r.account);
    }
    FoundDependsOnListed(after, b, core, readings);
  }

  /** After any sequence of saves the file holds, under the core's name, a colon and the account's id,
      what was last saved for the account. */
  lemma FileHoldsLastSaved(saves: seq<seq<Snapshot>>, core: Core, account: string)
    ensures var m, k := Entries(SaveRun(Missing, saves)), core + ":" + account;
            (if k in m then Some(m[k]) else None) == LastSaved(saves, core, account)
  {
    SaveRunLooksUp(saves, core, account);
  }

  lemma DirectionsApart(up: nat, down: nat)
    ensures Totals(up, down).Get(Up) == up && Totals(up, down).Get(Down) == down
  {
  }

  /** What a read leaves, written out: the tracker of that core alone has moved, to the readings; a
      complete read adds the records with bytes, in their order, and, when its snapshot succeeds, an
      entry under core, colon, account for each account the tracker holds; a broken read adds nothing. */
  lemma ReadWrittenOut(t: Trackers, poll: Poll, read: CoreRead, account: string)
    ensures var (t', poll') := ReadStep(t, poll, read);
            var readings := if read.Complete? then read.readings else read.observed;
            var had := if read.core in t then t[read.core] else map[];
            var key := read.core + ":" + account;
            && t' == t[read.core := ObserveAll(had, readings)]
            && (read.Broken? ==> poll' == poll)
            && (read.Complete? ==> poll'.records == poll.records + Nonzero(Found(had, read.core, readings)))
            && (read.Complete? && !read.snapshotOk ==> poll'.baselines == poll.baselines)
            && (read.Complete? && read.snapshotOk ==>
                  if account in t'[read.core] then key in poll'.baselines && poll'.baselines[key] == t'[read.core][account]
                  else (key in poll'.baselines <==> key in poll.baselines)
                       && (key in poll.baselines ==> poll'.baselines[key] == poll.baselines[key]))
  {
    if read.Complete? {
      EncodeLooksUp(read.core, ReadStep(t, poll, read).0[read.core], read.core, account);
    }
  }

  /** A poll that found no baselines leaves the file as it is, readable or not. */
  lemma NothingToSave(f: File, core: Core)
    ensures SaveParts(f, []) == f && SaveParts(f, [Snapshot(core, map[])]) == f
  {
    assert EncodeAll([]) == map[] && [Snapshot(core, map[])][..0] == [];
  }
}
