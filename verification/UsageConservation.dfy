/** Conservation with provider resets: polls one at a time, restarts from a file that is current. */
module UsageConservation {
  import opened Common
  import opened UsageAccounting
  import opened UsageProtocol
  import opened UsageBalance
  import opened UsageBytes

  // ---------------------------------------------------------------------------
  // The runs meant
  // ---------------------------------------------------------------------------

  ghost predicate NoneOpen(w: World) {
    forall i :: 0 <= i < |w.polls| ==> w.polls[i].None?
  }

  // Whether the last poll that billed the meter wrote its snapshot. Not when a save failed or a
  // snapshot left the account out, until a later poll writes it.
  function CurrentAfter(w: World, e: Event, m: Meter, current: bool): bool {
    if e.Finish? && IsOpen(w, e.poll) then
      var work := w.polls[e.poll].value.work;
      if PersistKey(m.core, m.account) in work.baselines && e.save.Written? then true
      else current && Billed(work.records, m) == 0 && (work.baselines == map[] || !e.save.CutShort?)
    else current
  }

  function FileCurrent(w: World, events: seq<Event>, m: Meter): bool {
    if events == [] then true
    else
      var front := events[..|events| - 1];
      CurrentAfter(Run(w, front), events[|events| - 1], m, FileCurrent(w, front, m))
  }

  // Emptying the tracker bills nothing twice: it is at zero already, or the counter has started
  // anew below it and no reading from before waits to be observed.
  predicate SafeToEmpty(w: World, m: Meter) {
    TrackedAt(w, m) == 0 || (CounterAt(w, m) < TrackedAt(w, m) && Stale(w, m).None?)
  }

  // A poll begins when no other is open, reads a core once, through the driver it still has, and
  // takes its snapshot after that; a tracker is emptied only when that is safe; the agent crashes
  // only with the core installed, over a current file that is whole. Resets, broken reads, stale
  // readings, lost replies, failed snapshots and failed saves are free.
  ghost predicate Sound(w: World, e: Event, m: Meter, current: bool) {
    match e
    case Begin => NoneOpen(w)
    case Sample(poll, core, _) => IsOpen(w, poll) ==> core !in w.polls[poll].value.asked
    case Observe(poll, core, _) => core == m.core && HasSample(w, poll, core) ==> Attached(w, poll, core)
    case Snapshot(poll, core, _) =>
      IsOpen(w, poll) ==>
        && core in w.polls[poll].value.asked && core !in w.polls[poll].value.sampled
        && (core == m.core ==> Attached(w, poll, core))
    case Forget(driver, account) => driver == Current(w, m.core) && account == m.account ==> SafeToEmpty(w, m)
    case Uninstall(core) => core == m.core && core !in w.removed ==> SafeToEmpty(w, m)
    case Crash(torn) => !torn && current && m.core !in w.forgetful && m.core !in w.removed
    case _ => true
  }

  ghost predicate SoundRun(w: World, events: seq<Event>, m: Meter) {
    events == [] ||
    var front := events[..|events| - 1];
    SoundRun(w, front, m) && Sound(Run(w, front), events[|events| - 1], m, FileCurrent(w, front, m))
  }

  // The counters tell everything: no provider reset, no read that broke off.
  predicate Readable(e: Event) {
    !e.ProviderReset? && (e.Observe? ==> e.complete)
  }

  ghost predicate AllReadable(events: seq<Event>) {
    forall e :: e in events ==> Readable(e)
  }

  // The records of a reply that does not arrive.
  function UndeliveredBy(w: World, e: Event, m: Meter): nat {
    if e.Finish? && IsOpen(w, e.poll) && !e.delivered then Billed(w.polls[e.poll].value.work.records, m) else 0
  }

  function Undelivered(w: World, events: seq<Event>, m: Meter): nat {
    if events == [] then 0
    else
      var front := events[..|events| - 1];
      Undelivered(w, front, m) + UndeliveredBy(Run(w, front), events[|events| - 1], m)
  }

  // ---------------------------------------------------------------------------
  // What is kept
  // ---------------------------------------------------------------------------

  function ReadingOf(readings: seq<Reading>, account: string): Option<Totals> {
    if readings == [] then None
    else if readings[0].account == account then Some(readings[0].totals)
    else ReadingOf(readings[1..], account)
  }

  // One read shows an account the same however often it is listed.
  ghost predicate Uniform(readings: seq<Reading>, account: string) {
    forall r :: r in readings && r.account == account ==> ReadingOf(readings, account) == Some(r.totals)
  }

  // Only the latest poll can be open.
  ghost predicate Alone(w: World) {
    forall i :: 0 <= i < |w.polls| - 1 ==> w.polls[i].None?
  }

  function TheOpen(w: World): Option<OpenPoll> {
    if w.polls == [] then None else w.polls[|w.polls| - 1]
  }

  function Waiting(w: World, m: Meter): nat {
    if TheOpen(w).Some? then Billed(TheOpen(w).value.work.records, m) else 0
  }

  function Unread(w: World, m: Meter): nat {
    Delta(CounterAt(w, m), TrackedAt(w, m))
  }

  // What a restart would take for new traffic.
  function Unsaved(w: World, m: Meter): nat {
    Delta(CounterAt(w, m), SavedAt(w, m))
  }

  // A reading taken but not yet observed.
  function Stale(w: World, m: Meter): Option<nat> {
    var o := TheOpen(w);
    if o.Some? && m.core in o.value.sampled then
      var r := ReadingOf(o.value.sampled[m.core], m.account);
      if r.Some? then Some(r.value.Get(m.d)) else None
    else None
  }

  // What is still to be billed when a reading waits to be observed: that reading, and what the
  // counter shows beyond it.
  function ToBill(w: World, m: Meter): nat {
    match Stale(w, m)
    case None => Unread(w, m)
    case Some(v) => Delta(v, TrackedAt(w, m)) + Delta(CounterAt(w, m), v)
  }

  ghost predicate Within(x: int, total: int, exact: bool) {
    x <= total && (exact ==> x == total)
  }

  // The open poll carries the tracker's totals for what it bills, or the tracker has been emptied
  // since.
  ghost predicate PollCarries(w: World, o: OpenPoll, m: Meter, exact: bool) {
    var key := PersistKey(m.core, m.account);
    && (key in o.work.baselines ==>
          && (o.work.baselines[key].Get(m.d) == TrackedAt(w, m) || (!exact && TrackedAt(w, m) == 0))
          && m.core in o.asked && m.core !in o.sampled)
    && (m.core in o.sampled ==> m.core in o.asked && Uniform(o.sampled[m.core], m.account))
  }

  ghost predicate CounterAhead(w: World, m: Meter) {
    && SavedAt(w, m) <= CounterAt(w, m) && TrackedAt(w, m) <= CounterAt(w, m)
    && (Stale(w, m).Some? ==> TrackedAt(w, m) <= Stale(w, m).value <= CounterAt(w, m))
  }

  ghost predicate Conserves(w: World, m: Meter, total: int, exact: bool, current: bool) {
    && Alone(w)
    && Within(Billed(w.delivered, m) + Waiting(w, m) + ToBill(w, m), total, exact)
    && (current && m.core !in w.forgetful ==> Within(Billed(w.delivered, m) + Unsaved(w, m), total, exact))
    && (TheOpen(w).Some? ==> PollCarries(w, TheOpen(w).value, m, exact))
    && (exact ==> CounterAhead(w, m))
  }

  // Going through a stale reading never bills less than going straight to the counter.
  lemma Detour(c: nat, v: nat, t: nat)
    ensures Delta(c, t) <= Delta(v, t) + Delta(c, v)
    ensures t <= v <= c ==> Delta(c, t) == Delta(v, t) + Delta(c, v)
  {
  }

  // ---------------------------------------------------------------------------
  // One step
  // ---------------------------------------------------------------------------

  lemma {:induction false} ReadingsAreUniform(w: World, core: Core, accounts: seq<string>, account: string)
    ensures var readings := Readings(w, core, accounts);
            && Uniform(readings, account)
            && ReadingOf(readings, account) == if account in accounts then Some(Counter(w, core, account)) else None
  {
    if accounts != [] {
      var readings := Readings(w, core, accounts);
      assert readings[1..] == Readings(w, core, accounts[1..]);
      ReadingsAreUniform(w, core, accounts[1..], account);
      forall r | r in readings && r.account == account ensures ReadingOf(readings, account) == Some(r.totals) {
        assert r == readings[0] || r in readings[1..];
      }
    }
  }

  /** A read bills an account's growth once however often it lists the account, and leaves the
      tracker at what it read. */
  lemma {:induction false} FoundBillsOnce(b: Baseline, core: Core, readings: seq<Reading>, m: Meter)
    requires core == m.core && Uniform(readings, m.account)
    ensures var r, before := ReadingOf(readings, m.account), Of(b, m.account).Get(m.d);
            && Billed(Found(b, core, readings), m) == (if r.Some? then Delta(r.value.Get(m.d), before) else 0)
            && Of(ObserveAll(b, readings), m.account) == if r.Some? then r.value else Of(b, m.account)
    decreases readings
  {
    if readings != [] {
      var r, rest := readings[0], readings[1..];
      forall x | x in rest && x.account == m.account ensures ReadingOf(rest, m.account) == Some(x.totals) {
        FirstOfUniform(rest, readings, m.account, x);
      }
      FoundBillsOnce(b[r.account := r.totals], core, rest, m);
      var found := Found(b, core, readings);
      assert found[1..] == Found(b[r.account := r.totals], core, rest);
      if r.account == m.account && ReadingOf(rest, m.account).Some? {
        ReadingIsThere(rest, m.account);
        assert ReadingOf(rest, m.account) == Some(r.totals);
      }
    }
  }

  lemma {:induction false} ReadingIsThere(readings: seq<Reading>, account: string)
    requires ReadingOf(readings, account).Some?
    ensures Reading(account, ReadingOf(readings, account).value) in readings
  {
    if readings[0].account != account {
      ReadingIsThere(readings[1..], account);
    }
  }

  lemma {:induction false} HasReading(readings: seq<Reading>, r: Reading)
    requires r in readings
    ensures ReadingOf(readings, r.account).Some?
  {
    if readings[0].account != r.account {
      HasReading(readings[1..], r);
    }
  }

  lemma FirstOfUniform(rest: seq<Reading>, readings: seq<Reading>, account: string, x: Reading)
    requires readings != [] && rest == readings[1..] && Uniform(readings, account) && x in rest && x.account == account
    ensures ReadingOf(rest, account) == Some(x.totals)
  {
    HasReading(rest, x);
    ReadingIsThere(rest, account);
    var first := Reading(account, ReadingOf(rest, account).value);
    assert first in readings && x in readings;
  }

  // Another state with the same tracker, file, polls and records.
  ghost predicate SameButCounter(w: World, w': World) {
    && w'.forgetful == w.forgetful && w'.trackers == w.trackers && w'.file == w.file && w'.polls == w.polls
    && w'.delivered == w.delivered
  }

  lemma DeltaGrows(c: nat, grown: nat, v: nat)
    ensures Delta(c + grown, v) <= Delta(c, v) + grown
    ensures v <= c ==> Delta(c + grown, v) == Delta(c, v) + grown
    ensures Delta(0, v) == 0
  {
  }

  lemma CounterToBill(w: World, w': World, m: Meter, grown: nat)
    requires SameButCounter(w, w')
    requires CounterAt(w', m) == CounterAt(w, m) + grown || (CounterAt(w', m) == 0 && grown == 0)
    ensures Stale(w', m) == Stale(w, m) && Waiting(w', m) == Waiting(w, m)
    ensures TrackedAt(w', m) == TrackedAt(w, m) && SavedAt(w', m) == SavedAt(w, m)
    ensures ToBill(w', m) <= ToBill(w, m) + grown && Unsaved(w', m) <= Unsaved(w, m) + grown
    ensures CounterAt(w', m) == CounterAt(w, m) + grown && CounterAhead(w, m) ==>
              ToBill(w', m) == ToBill(w, m) + grown && Unsaved(w', m) == Unsaved(w, m) + grown
  {
    var c := CounterAt(w, m);
    DeltaGrows(c, grown, SavedAt(w, m));
    DeltaGrows(c, grown, if Stale(w, m).Some? then Stale(w, m).value else TrackedAt(w, m));
  }

  lemma CounterKeeps(w: World, w': World, m: Meter, total: int, grown: nat, exact: bool, current: bool)
    requires Conserves(w, m, total, exact, current) && SameButCounter(w, w')
    requires CounterAt(w', m) == CounterAt(w, m) + grown || (CounterAt(w', m) == 0 && grown == 0 && !exact)
    ensures Conserves(w', m, total + grown, exact, current)
  {
    CounterToBill(w, w', m, grown);
  }

  lemma TrafficKeeps(w: World, e: Event, m: Meter, total: int, exact: bool, current: bool)
    requires (e.Traffic? || e.ProviderReset?) && Conserves(w, m, total, exact, current) && (exact ==> Readable(e))
    ensures Conserves(Next(w, e), m, total + GrownBy(w, e, m, AllBytes), exact, current)
  {
    if e.Traffic? {
      TrafficMovesCounter(w, e.core, e.account, e.grow, m);
    } else {
      CounterIs(w, e.core, e.account, ZERO, m);
    }
    CounterKeeps(w, Next(w, e), m, total, GrownBy(w, e, m, AllBytes), exact, current);
  }

  lemma BeginKeeps(w: World, m: Meter, total: int, exact: bool, current: bool)
    requires NoneOpen(w) && Conserves(w, m, total, exact, current)
    ensures Conserves(AfterBegin(w), m, total, exact, current)
  {
  }

  lemma ObserveOther(w: World, poll: nat, core: Core, complete: bool, m: Meter)
    requires HasSample(w, poll, core) && core != m.core
    ensures var w' := AfterObserve(w, poll, core, complete);
            && TrackedAt(w', m) == TrackedAt(w, m)
            && Billed(w'.polls[poll].value.work.records, m) == Billed(w.polls[poll].value.work.records, m)
  {
    var o, b := w.polls[poll].value, SeenBy(w, poll, core);
    var found := Found(b, core, o.sampled[core]);
    ObserveTracks(w, poll, core, complete, m);
    SumConcat(o.work.records, Nonzero(found), m.core, m.account, m.d);
    ZeroRecordsDoNotCount(found, m.core, m.account, m.d);
    OtherCoreNotBilled(b, core, o.sampled[core], m);
  }

  lemma {:induction false} OtherCoreNotBilled(b: Baseline, core: Core, readings: seq<Reading>, m: Meter)
    requires core != m.core
    ensures Billed(Found(b, core, readings), m) == 0
    decreases readings
  {
    if readings != [] {
      var r := readings[0];
      OtherCoreNotBilled(b[r.account := r.totals], core, readings[1..], m);
      assert Found(b, core, readings)[1..] == Found(b[r.account := r.totals], core, readings[1..]);
    }
  }

  lemma ObserveOwn(w: World, poll: nat, core: Core, complete: bool, m: Meter)
    requires HasSample(w, poll, core) && Attached(w, poll, core) && core == m.core
    requires Uniform(w.polls[poll].value.sampled[core], m.account)
    ensures var w' := AfterObserve(w, poll, core, complete);
            var r := ReadingOf(w.polls[poll].value.sampled[core], m.account);
            && TrackedAt(w', m) == (if r.Some? then r.value.Get(m.d) else TrackedAt(w, m))
            && Billed(w'.polls[poll].value.work.records, m) == Billed(w.polls[poll].value.work.records, m)
               + if complete && r.Some? then Delta(r.value.Get(m.d), TrackedAt(w, m)) else 0
  {
    var o, b := w.polls[poll].value, SeenBy(w, poll, core);
    var found := Found(b, core, o.sampled[core]);
    ObserveTracks(w, poll, core, complete, m);
    FoundBillsOnce(b, core, o.sampled[core], m);
    SumConcat(o.work.records, Nonzero(found), m.core, m.account, m.d);
    ZeroRecordsDoNotCount(found, m.core, m.account, m.d);
  }

  // Another state of the same counters and file, whose open poll is o.
  ghost predicate SameButPoll(w: World, w': World, o: OpenPoll, m: Meter) {
    && w'.forgetful == w.forgetful && w'.file == w.file && w'.delivered == w.delivered
    && CounterAt(w', m) == CounterAt(w, m)
    && w.polls != [] && w'.polls == w.polls[|w.polls| - 1 := Some(o)]
  }

  // The waiting reading has been observed: billed, or given up when the read broke off.
  lemma ReadingTaken(w: World, w': World, o: OpenPoll, m: Meter, total: int, exact: bool, current: bool, billed: bool)
    requires Conserves(w, m, total, exact, current) && SameButPoll(w, w', o, m) && TheOpen(w).Some?
    requires m.core in TheOpen(w).value.sampled && (exact ==> billed)
    requires o.work.baselines == TheOpen(w).value.work.baselines && o.asked == TheOpen(w).value.asked
    requires o.sampled == TheOpen(w).value.sampled - {m.core}
    requires var v := Stale(w, m);
             && TrackedAt(w', m) == (if v.Some? then v.value else TrackedAt(w, m))
             && Billed(o.work.records, m) == Waiting(w, m) + if billed && v.Some? then Delta(v.value, TrackedAt(w, m)) else 0
    ensures Conserves(w', m, total, exact, current)
  {
  }

  // The open poll goes on, with its bill and its carried totals as before.
  lemma PollGoesOn(w: World, w': World, o: OpenPoll, m: Meter, total: int, exact: bool, current: bool)
    requires Conserves(w, m, total, exact, current) && SameButPoll(w, w', o, m) && TheOpen(w).Some?
    requires TrackedAt(w', m) == TrackedAt(w, m) && Billed(o.work.records, m) == Waiting(w, m)
    requires TheOpen(w).value.asked <= o.asked
    requires m.core in o.sampled <==> m.core in TheOpen(w).value.sampled
    requires m.core in o.sampled ==> o.sampled[m.core] == TheOpen(w).value.sampled[m.core]
    requires var key := PersistKey(m.core, m.account);
             key in o.work.baselines ==>
               || (&& o.work.baselines[key].Get(m.d) == TrackedAt(w, m)
                   && m.core in o.asked && m.core !in TheOpen(w).value.sampled)
               || (key in TheOpen(w).value.work.baselines && o.work.baselines[key] == TheOpen(w).value.work.baselines[key])
    ensures Conserves(w', m, total, exact, current)
  {
    assert Stale(w', m) == Stale(w, m);
  }

  // The open poll has read the counter, and the reading waits.
  lemma ReadingWaits(w: World, w': World, o: OpenPoll, m: Meter, total: int, exact: bool, current: bool)
    requires Conserves(w, m, total, exact, current) && SameButPoll(w, w', o, m) && TheOpen(w).Some?
    requires m.core !in TheOpen(w).value.asked && m.core in o.asked && m.core in o.sampled
    requires w'.trackers == w.trackers && o.work == TheOpen(w).value.work
    requires Uniform(o.sampled[m.core], m.account)
    requires var r := ReadingOf(o.sampled[m.core], m.account); r.Some? ==> r.value == Counter(w, m.core, m.account)
    ensures Conserves(w', m, total, exact, current)
  {
    assert m.core !in TheOpen(w).value.sampled;
    assert TrackedAt(w', m) == TrackedAt(w, m) && Waiting(w', m) == Waiting(w, m) && Stale(w, m).None?;
  }

  lemma SampleKeeps(w: World, poll: nat, core: Core, accounts: seq<string>, m: Meter, total: int, exact: bool, current: bool)
    requires IsOpen(w, poll) ==> core !in w.polls[poll].value.asked
    requires Conserves(w, m, total, exact, current)
    ensures Conserves(AfterSample(w, poll, core, accounts), m, total, exact, current)
  {
    if IsOpen(w, poll) && core !in w.polls[poll].value.absent {
      assert poll == |w.polls| - 1;
      var w' := AfterSample(w, poll, core, accounts);
      var o := w'.polls[poll].value;
      if core == m.core {
        ReadingsAreUniform(w, core, accounts, m.account);
        ReadingWaits(w, w', o, m, total, exact, current);
      } else {
        PollGoesOn(w, w', o, m, total, exact, current);
      }
    }
  }

  lemma ObserveKeeps(w: World, poll: nat, core: Core, complete: bool, m: Meter, total: int, exact: bool, current: bool)
    requires core == m.core && HasSample(w, poll, core) ==> Attached(w, poll, core)
    requires Conserves(w, m, total, exact, current) && (exact ==> complete)
    ensures Conserves(AfterObserve(w, poll, core, complete), m, total, exact, current)
  {
    if HasSample(w, poll, core) {
      assert poll == |w.polls| - 1;
      var w' := AfterObserve(w, poll, core, complete);
      var o := w'.polls[poll].value;
      if core == m.core {
        ObserveOwn(w, poll, core, complete, m);
        ReadingTaken(w, w', o, m, total, exact, current, complete);
      } else {
        ObserveOther(w, poll, core, complete, m);
        PollGoesOn(w, w', o, m, total, exact, current);
      }
    }
  }

  // The open poll has taken a snapshot of a core.
  ghost predicate SnapshotInto(w: World, w': World, core: Core, m: Meter) {
    var was, o, key := TheOpen(w), TheOpen(w'), PersistKey(m.core, m.account);
    && was.Some? && o.Some? && SameButPoll(w, w', o.value, m) && w'.trackers == w.trackers
    && o.value == was.value.(work := was.value.work.(baselines := o.value.work.baselines))
    && (key in o.value.work.baselines ==>
          || (core == m.core && o.value.work.baselines[key].Get(m.d) == TrackedAt(w, m))
          || (key in was.value.work.baselines && o.value.work.baselines[key] == was.value.work.baselines[key]))
  }

  lemma SnapshotAdds(w: World, poll: nat, core: Core, listed: set<string>, m: Meter)
    requires IsOpen(w, poll) && poll == |w.polls| - 1 && (core == m.core ==> Attached(w, poll, core))
    ensures SnapshotInto(w, AfterSnapshot(w, poll, core, listed), core, m)
  {
    SnapshotCarries(w, poll, core, listed, m);
  }

  lemma SnapshotTaken(w: World, w': World, core: Core, m: Meter, total: int, exact: bool, current: bool)
    requires Conserves(w, m, total, exact, current) && SnapshotInto(w, w', core, m)
    requires core in TheOpen(w).value.asked && core !in TheOpen(w).value.sampled
    ensures Conserves(w', m, total, exact, current)
  {
    PollGoesOn(w, w', TheOpen(w').value, m, total, exact, current);
  }

  lemma SnapshotKeeps(w: World, poll: nat, core: Core, listed: set<string>, m: Meter, total: int, exact: bool, current: bool)
    requires IsOpen(w, poll) ==>
               && core in w.polls[poll].value.asked && core !in w.polls[poll].value.sampled
               && (core == m.core ==> Attached(w, poll, core))
    requires Conserves(w, m, total, exact, current)
    ensures Conserves(AfterSnapshot(w, poll, core, listed), m, total, exact, current)
  {
    if IsOpen(w, poll) {
      assert poll == |w.polls| - 1;
      SnapshotAdds(w, poll, core, listed, m);
      SnapshotTaken(w, AfterSnapshot(w, poll, core, listed), core, m, total, exact, current);
    }
  }

  // The open poll is over: its bill delivered or lost, the file as its save left it.
  lemma PollOver(w: World, w': World, m: Meter, total: int, lost: nat, exact: bool, current: bool, current': bool)
    requires Conserves(w, m, total, exact, current) && TheOpen(w).Some? && NoneOpen(w')
    requires w'.forgetful == w.forgetful && CounterAt(w', m) == CounterAt(w, m) && TrackedAt(w', m) == TrackedAt(w, m)
    requires Billed(w'.delivered, m) + lost == Billed(w.delivered, m) + Waiting(w, m)
    requires current' ==>
               || SavedAt(w', m) == TrackedAt(w, m) || (!exact && TrackedAt(w, m) == 0)
               || (current && Waiting(w, m) == 0 && SavedAt(w', m) == SavedAt(w, m))
    requires exact ==> SavedAt(w', m) in {0, SavedAt(w, m), TrackedAt(w, m)}
    ensures Conserves(w', m, total - lost, exact, current')
  {
    if Stale(w, m).Some? {
      Detour(CounterAt(w, m), Stale(w, m).value, TrackedAt(w, m));
    }
    assert TheOpen(w').None?;
  }

  lemma FileMoves(f: File, baselines: map<string, Totals>, save: SaveOutcome, core: Core, account: string)
    ensures var key := PersistKey(core, account);
            FileTotals(FileAfter(f, baselines, save), core, account) ==
            if save.Written? && key in baselines then baselines[key]
            else if save.CutShort? && baselines != map[] then ZERO else FileTotals(f, core, account)
  {
  }

  lemma FinishKeeps(w: World, poll: nat, save: SaveOutcome, delivered: bool, m: Meter, total: int, exact: bool, current: bool)
    requires Conserves(w, m, total, exact, current)
    ensures var e := Finish(poll, save, delivered);
            Conserves(AfterFinish(w, poll, save, delivered), m, total - UndeliveredBy(w, e, m), exact,
                      CurrentAfter(w, e, m, current))
  {
    if IsOpen(w, poll) {
      assert poll == |w.polls| - 1;
      var w', o, e := AfterFinish(w, poll, save, delivered), w.polls[poll].value, Finish(poll, save, delivered);
      SumConcat(w.delivered, o.work.records, m.core, m.account, m.d);
      FileMoves(w.file, o.work.baselines, save, m.core, m.account);
      PollOver(w, w', m, total, UndeliveredBy(w, e, m), exact, current, CurrentAfter(w, e, m, current));
    }
  }

  // Another state whose tracker has been emptied, if it was safe, or left alone.
  lemma EmptyingKeeps(w: World, w': World, m: Meter, total: int, exact: bool, current: bool)
    requires Conserves(w, m, total, exact, current)
    requires w'.forgetful == w.forgetful && w'.file == w.file && w'.polls == w.polls && w'.delivered == w.delivered
    requires w'.counters == w.counters
    requires TrackedAt(w', m) == TrackedAt(w, m) || (TrackedAt(w', m) == 0 && SafeToEmpty(w, m))
    ensures Conserves(w', m, total, exact, current)
  {
    assert Stale(w', m) == Stale(w, m) && Waiting(w', m) == Waiting(w, m);
  }

  lemma ForgetKeeps(w: World, d: Driver, account: string, m: Meter, total: int, exact: bool, current: bool)
    requires Sound(w, Forget(d, account), m, current) && Conserves(w, m, total, exact, current)
    ensures Conserves(AfterForget(w, d, account), m, total, exact, current)
  {
    ForgetTracks(w, d, account, m);
    EmptyingKeeps(w, AfterForget(w, d, account), m, total, exact, current);
  }

  lemma UninstallKeeps(w: World, core: Core, m: Meter, total: int, exact: bool, current: bool)
    requires Sound(w, Uninstall(core), m, current) && Conserves(w, m, total, exact, current)
    ensures Conserves(AfterUninstall(w, core), m, total, exact, current)
  {
    UninstallTracks(w, core, m);
    EmptyingKeeps(w, AfterUninstall(w, core), m, total, exact, current);
  }

  lemma InstallKeeps(w: World, core: Core, m: Meter, total: int, exact: bool, current: bool)
    requires Conserves(w, m, total, exact, current)
    ensures Conserves(AfterInstall(w, core), m, total, exact, current)
  {
    EmptyingKeeps(w, AfterInstall(w, core), m, total, exact, current);
  }

  lemma CrashKeeps(w: World, m: Meter, total: int, exact: bool)
    requires m.core !in w.forgetful && m.core !in w.removed && Conserves(w, m, total, exact, true)
    ensures Conserves(AfterCrash(w, false), m, total, exact, true)
  {
    BootTracks(w, false, m);
  }

  lemma PollStepKeepsConserving(w: World, e: Event, m: Meter, total: int, exact: bool, current: bool)
    requires e.Begin? || e.Sample? || e.Observe? || e.Snapshot?
    requires Sound(w, e, m, current) && Conserves(w, m, total, exact, current) && (exact ==> Readable(e))
    ensures Conserves(Next(w, e), m, total, exact, current)
  {
    match e
    case Begin => BeginKeeps(w, m, total, exact, current);
    case Sample(poll, core, accounts) => SampleKeeps(w, poll, core, accounts, m, total, exact, current);
    case Observe(poll, core, complete) => ObserveKeeps(w, poll, core, complete, m, total, exact, current);
    case Snapshot(poll, core, listed) => SnapshotKeeps(w, poll, core, listed, m, total, exact, current);
  }

  lemma LifecycleStepKeepsConserving(w: World, e: Event, m: Meter, total: int, exact: bool, current: bool)
    requires e.Forget? || e.Uninstall? || e.Install?
    requires Sound(w, e, m, current) && Conserves(w, m, total, exact, current)
    ensures Conserves(Next(w, e), m, total, exact, current)
  {
    match e
    case Forget(driver, account) => ForgetKeeps(w, driver, account, m, total, exact, current);
    case Uninstall(core) => UninstallKeeps(w, core, m, total, exact, current);
    case Install(core) => InstallKeeps(w, core, m, total, exact, current);
  }

  lemma StepKeepsConserving(w: World, e: Event, m: Meter, total: int, exact: bool, current: bool)
    requires Sound(w, e, m, current) && Conserves(w, m, total, exact, current) && (exact ==> Readable(e))
    ensures Conserves(Next(w, e), m, total + GrownBy(w, e, m, AllBytes) - UndeliveredBy(w, e, m), exact,
                      CurrentAfter(w, e, m, current))
  {
    if e.Finish? {
      FinishKeeps(w, e.poll, e.save, e.delivered, m, total, exact, current);
    } else {
      assert CurrentAfter(w, e, m, current) == current && UndeliveredBy(w, e, m) == 0;
      if e.Traffic? || e.ProviderReset? {
        TrafficKeeps(w, e, m, total, exact, current);
      } else if e.Crash? {
        CrashKeeps(w, m, total, exact);
      } else if e.Forget? || e.Uninstall? || e.Install? {
        LifecycleStepKeepsConserving(w, e, m, total, exact, current);
      } else {
        PollStepKeepsConserving(w, e, m, total, exact, current);
      }
    }
  }

  lemma {:induction false} RunConserves(w0: World, events: seq<Event>, m: Meter, exact: bool)
    requires BootedFor(w0, m) && SoundRun(w0, events, m)
    requires exact ==> AllReadable(events) && SavedAt(w0, m) <= CounterAt(w0, m)
    ensures Conserves(Run(w0, events), m,
                      Unread(w0, m) + Grown(w0, events, m, AllBytes) - Undelivered(w0, events, m), exact,
                      FileCurrent(w0, events, m))
  {
    if events != [] {
      var front, last := events[..|events| - 1], events[|events| - 1];
      RunConserves(w0, front, m, exact);
      assert last in events;
      StepKeepsConserving(Run(w0, front), last, m,
                          Unread(w0, m) + Grown(w0, front, m, AllBytes) - Undelivered(w0, front, m), exact,
                          FileCurrent(w0, front, m));
    }
  }

  /** No double counting, provider resets included. Over every sound run, however many saves and
      snapshots failed in between, what was billed and what was lost in replies never exceeds what
      was metered; without resets, nor what the counter now stands above the first baseline. */
  lemma NeverBilledTwice(w0: World, events: seq<Event>, m: Meter)
    requires BootedFor(w0, m) && SoundRun(w0, events, m)
    ensures var w := Run(w0, events);
            var billed := Billed(w.delivered, m) + Undelivered(w0, events, m);
            && billed <= Delta(CounterAt(w0, m), TrackedAt(w0, m)) + Grown(w0, events, m, AllBytes)
            && (NoReset(events) && TrackedAt(w0, m) <= CounterAt(w0, m) ==> billed <= CounterAt(w, m) - TrackedAt(w0, m))
  {
    RunConserves(w0, events, m, false);
    if NoReset(events) {
      CounterOnlyGrows(w0, events, m, AllBytes);
    }
  }

  /** Conservation. With no reset and no broken read, and no poll open, what was billed and what
      was lost in replies is exactly the growth from the first baseline to the last reading,
      however often the agent crashed; and a current file holds that last reading. */
  lemma EveryReadingIsBilledOnce(w0: World, events: seq<Event>, m: Meter)
    requires BootedFor(w0, m) && SoundRun(w0, events, m) && AllReadable(events)
    requires SavedAt(w0, m) <= CounterAt(w0, m) && TheOpen(Run(w0, events)).None?
    ensures var w := Run(w0, events);
            && Billed(w.delivered, m) + Undelivered(w0, events, m) == TrackedAt(w, m) - TrackedAt(w0, m)
            && (FileCurrent(w0, events, m) && m.core !in w.forgetful ==> SavedAt(w, m) == TrackedAt(w, m))
  {
    RunConserves(w0, events, m, true);
    forall e | e in events ensures !e.ProviderReset? {
      assert Readable(e);
    }
    CounterOnlyGrows(w0, events, m, AllBytes);
  }
}
