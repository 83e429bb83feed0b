/** Every byte accounted for: what polls bill, lose, hold and have not yet read, over any run. */
module UsageBalance {
  import opened Common
  import opened UsageAccounting
  import opened UsageProtocol

  // ---------------------------------------------------------------------------
  // Weighing bytes. A probe looks at all bytes of a meter's counter, at one, or at
  // the first n.
  // ---------------------------------------------------------------------------

  datatype Probe = AllBytes | Byte(n: nat) | Upto(n: nat)

  // How many of the bytes 1..v the probe sees.
  function Mass(p: Probe, v: nat): nat {
    match p
    case AllBytes => v
    case Byte(n) => if 1 <= n <= v then 1 else 0
    case Upto(n) => if v <= n then v else n
  }

  function SpanMass(p: Probe, s: Span, m: Meter): nat {
    if s.core == m.core && s.account == m.account && s.lo.Get(m.d) <= s.hi.Get(m.d)
    then Mass(p, s.hi.Get(m.d)) - Mass(p, s.lo.Get(m.d)) else 0
  }

  function Weight(p: Probe, spans: seq<Span>, m: Meter): nat {
    if spans == [] then 0 else SpanMass(p, spans[0], m) + Weight(p, spans[1..], m)
  }

  lemma {:induction false} WeightConcat(p: Probe, a: seq<Span>, b: seq<Span>, m: Meter)
    ensures Weight(p, a + b, m) == Weight(p, a, m) + Weight(p, b, m)
  {
    if a == [] {
      assert a + b == b;
    } else {
      assert (a + b)[1..] == a[1..] + b;
      WeightConcat(p, a[1..], b, m);
    }
  }

  function PollWeight(p: Probe, o: Option<OpenPoll>, m: Meter): nat {
    if o.Some? then Weight(p, o.value.spans, m) else 0
  }

  function OpenWeight(p: Probe, polls: seq<Option<OpenPoll>>, m: Meter): nat {
    if polls == [] then 0 else OpenWeight(p, polls[..|polls| - 1], m) + PollWeight(p, polls[|polls| - 1], m)
  }

  lemma {:induction false} OpenWeightUpdate(p: Probe, polls: seq<Option<OpenPoll>>, i: nat, o: Option<OpenPoll>, m: Meter)
    requires i < |polls|
    ensures OpenWeight(p, polls[i := o], m) == OpenWeight(p, polls, m) - PollWeight(p, polls[i], m) + PollWeight(p, o, m)
  {
    var front, changed := polls[..|polls| - 1], polls[i := o];
    assert changed[|changed| - 1] == if i == |polls| - 1 then o else polls[|polls| - 1];
    if i == |polls| - 1 {
      assert changed[..|changed| - 1] == front;
    } else {
      assert changed[..|changed| - 1] == front[i := o];
      OpenWeightUpdate(p, front, i, o, m);
    }
  }

  function Billed(records: seq<Record>, m: Meter): nat {
    Sum(records, m.core, m.account, m.d)
  }

  function OpenBilled(polls: seq<Option<OpenPoll>>, m: Meter): nat {
    if polls == [] then 0
    else
      var last := polls[|polls| - 1];
      OpenBilled(polls[..|polls| - 1], m) + if last.Some? then Billed(last.value.work.records, m) else 0
  }

  // ---------------------------------------------------------------------------
  // The ledger of a run
  // ---------------------------------------------------------------------------

  // Bytes newly metered.
  function GrownBy(w: World, e: Event, m: Meter, p: Probe): int {
    if e.Traffic? && e.core == m.core && e.account == m.account
    then Mass(p, CounterAt(w, m) + e.grow.Get(m.d)) - Mass(p, CounterAt(w, m)) else 0
  }

  // Bytes on a counter that its provider starts anew.
  function ResetBy(w: World, e: Event, m: Meter, p: Probe): nat {
    if e.ProviderReset? && e.core == m.core && e.account == m.account then Mass(p, CounterAt(w, m)) else 0
  }

  // What the poll's driver makes of the reading that waits.
  function SpansSeen(w: World, poll: nat, core: Core): seq<Span>
    requires HasSample(w, poll, core)
  {
    Spans(SeenBy(w, poll, core), core, w.polls[poll].value.sampled[core])
  }

  // Bytes taken off the counter that no reply will carry: a read that broke off, a reply that did
  // not arrive, or a crash with polls open.
  function LostBy(w: World, e: Event, m: Meter, p: Probe): nat {
    match e
    case Observe(poll, core, complete) =>
      if !complete && HasSample(w, poll, core)
      then Weight(p, SpansSeen(w, poll, core), m) else 0
    case Finish(poll, _, delivered) => if !delivered && IsOpen(w, poll) then Weight(p, w.polls[poll].value.spans, m) else 0
    case Crash(_) => OpenWeight(p, w.polls, m)
    case _ => 0
  }

  // A reading below the tracker makes everything up to the tracker count as not yet read.
  function Backward(p: Probe, b: Baseline, core: Core, readings: seq<Reading>, m: Meter): nat
    decreases readings
  {
    if readings == [] then 0
    else
      var r := readings[0];
      (if core == m.core && r.account == m.account && r.totals.Get(m.d) < Of(b, r.account).Get(m.d)
       then Mass(p, Of(b, r.account).Get(m.d)) else 0)
      + Backward(p, b[r.account := r.totals], core, readings[1..], m)
  }

  // Bytes behind the tracker that come to count as not yet read: by a reading below it, by an
  // account forgotten or a driver uninstalled, or by a restart from a file that is behind it. What
  // a driver observes that is no longer the core's counts as not yet read by the one that is.
  function RewoundBy(w: World, e: Event, m: Meter, p: Probe): int {
    match e
    case Observe(poll, core, _) =>
      if !HasSample(w, poll, core) then 0
      else if Attached(w, poll, core) then
        Backward(p, SeenBy(w, poll, core), core, w.polls[poll].value.sampled[core], m)
      else Weight(p, SpansSeen(w, poll, core), m)
    case Forget(driver, account) =>
      if driver == Current(w, m.core) && account == m.account then Mass(p, TrackedAt(w, m)) else 0
    case Uninstall(core) => if core == m.core && core !in w.removed then Mass(p, TrackedAt(w, m)) else 0
    case Crash(torn) => Mass(p, TrackedAt(w, m)) - Mass(p, ResumesAt(w, torn, m))
    case _ => 0
  }

  // Where a restart resumes.
  function ResumesAt(w: World, torn: bool, m: Meter): nat {
    if torn || m.core in w.forgetful || m.core in w.removed then 0 else SavedAt(w, m)
  }

  function Grown(w: World, events: seq<Event>, m: Meter, p: Probe): int {
    if events == [] then 0
    else
      var front := events[..|events| - 1];
      Grown(w, front, m, p) + GrownBy(Run(w, front), events[|events| - 1], m, p)
  }

  function ResetBytes(w: World, events: seq<Event>, m: Meter, p: Probe): nat {
    if events == [] then 0
    else
      var front := events[..|events| - 1];
      ResetBytes(w, front, m, p) + ResetBy(Run(w, front), events[|events| - 1], m, p)
  }

  function Lost(w: World, events: seq<Event>, m: Meter, p: Probe): nat {
    if events == [] then 0
    else
      var front := events[..|events| - 1];
      Lost(w, front, m, p) + LostBy(Run(w, front), events[|events| - 1], m, p)
  }

  function Rewound(w: World, events: seq<Event>, m: Meter, p: Probe): int {
    if events == [] then 0
    else
      var front := events[..|events| - 1];
      Rewound(w, front, m, p) + RewoundBy(Run(w, front), events[|events| - 1], m, p)
  }

  // Delivered, waiting in open polls, and not yet read.
  function Balance(w: World, m: Meter, p: Probe): int {
    Held(w, m, p) + Mass(p, CounterAt(w, m)) - Mass(p, TrackedAt(w, m))
  }

  // ---------------------------------------------------------------------------
  // The balance: every step of every run
  // ---------------------------------------------------------------------------

  lemma ReadingBalances(p: Probe, b: Baseline, core: Core, r: Reading, m: Meter)
    requires core == m.core && r.account == m.account
    ensures var before, after := Of(b, m.account).Get(m.d), r.totals.Get(m.d);
            SpanMass(p, SpanOf(b, core, r), m)
            == (if after < before then Mass(p, before) else 0) + Mass(p, after) - Mass(p, before)
  {
    assert Mass(p, 0) == 0;
  }

  // What an observation bills and how far it moves the tracker differ by what it rewinds.
  lemma {:induction false} ObserveBalances(p: Probe, b: Baseline, core: Core, readings: seq<Reading>, m: Meter)
    ensures var before, after := Of(b, m.account).Get(m.d), Of(ObserveAll(b, readings), m.account).Get(m.d);
            Weight(p, Spans(b, core, readings), m)
            == Backward(p, b, core, readings, m) + if core == m.core then Mass(p, after) - Mass(p, before) else 0
    decreases readings
  {
    if readings != [] {
      var r := readings[0];
      var b' := b[r.account := r.totals];
      ObserveBalances(p, b', core, readings[1..], m);
      if core == m.core && r.account == m.account {
        ReadingBalances(p, b, core, r, m);
      }
      var spans := Spans(b, core, readings);
      assert spans[0] == SpanOf(b, core, r) && spans[1..] == Spans(b', core, readings[1..]);
    }
  }

  // Bytes an observation takes off the counter, billed or not.
  function TakenBy(w: World, e: Event, m: Meter, p: Probe): nat {
    match e
    case Observe(poll, core, _) =>
      if HasSample(w, poll, core)
      then Weight(p, SpansSeen(w, poll, core), m) else 0
    case _ => 0
  }

  // Delivered, or waiting in an open poll.
  function Held(w: World, m: Meter, p: Probe): nat {
    Weight(p, w.spans, m) + OpenWeight(p, w.polls, m)
  }

  lemma ObserveCollects(w: World, poll: nat, core: Core, complete: bool, m: Meter, p: Probe)
    ensures var e := Observe(poll, core, complete);
            Held(AfterObserve(w, poll, core, complete), m, p) + LostBy(w, e, m, p) == Held(w, m, p) + TakenBy(w, e, m, p)
  {
    if HasSample(w, poll, core) {
      var w', o := AfterObserve(w, poll, core, complete), w.polls[poll].value;
      var o' := PollAfter(SeenBy(w, poll, core), o, core, complete);
      assert w'.polls == w.polls[poll := Some(o')] && w'.spans == w.spans;
      assert o'.spans == if complete then o.spans + SpansSeen(w, poll, core) else o.spans;
      WeightConcat(p, o.spans, SpansSeen(w, poll, core), m);
      OpenWeightUpdate(p, w.polls, poll, Some(o'), m);
    }
  }

  lemma FinishCollects(w: World, poll: nat, save: SaveOutcome, delivered: bool, m: Meter, p: Probe)
    ensures Held(AfterFinish(w, poll, save, delivered), m, p) + LostBy(w, Finish(poll, save, delivered), m, p) == Held(w, m, p)
  {
    if IsOpen(w, poll) {
      WeightConcat(p, w.spans, w.polls[poll].value.spans, m);
      OpenWeightUpdate(p, w.polls, poll, None, m);
    }
  }

  // One poll moves from one state to another with the same spans.
  lemma PollKeepsHeld(w: World, w': World, poll: nat, o: OpenPoll, m: Meter, p: Probe)
    requires IsOpen(w, poll) && w'.polls == w.polls[poll := Some(o)] && w'.spans == w.spans
    requires o.spans == w.polls[poll].value.spans
    ensures Held(w', m, p) == Held(w, m, p)
  {
    OpenWeightUpdate(p, w.polls, poll, Some(o), m);
  }

  lemma BeginKeepsHeld(w: World, m: Meter, p: Probe)
    ensures Held(AfterBegin(w), m, p) == Held(w, m, p)
  {
    var polls := AfterBegin(w).polls;
    assert polls[..|polls| - 1] == w.polls;
  }

  lemma SampleKeepsHeld(w: World, poll: nat, core: Core, accounts: seq<string>, m: Meter, p: Probe)
    ensures Held(AfterSample(w, poll, core, accounts), m, p) == Held(w, m, p)
  {
    if IsOpen(w, poll) && core !in w.polls[poll].value.absent {
      var w' := AfterSample(w, poll, core, accounts);
      PollKeepsHeld(w, w', poll, w'.polls[poll].value, m, p);
    }
  }

  lemma SnapshotKeepsHeld(w: World, poll: nat, core: Core, listed: set<string>, m: Meter, p: Probe)
    ensures Held(AfterSnapshot(w, poll, core, listed), m, p) == Held(w, m, p)
  {
    if IsOpen(w, poll) {
      var w' := AfterSnapshot(w, poll, core, listed);
      PollKeepsHeld(w, w', poll, w'.polls[poll].value, m, p);
    }
  }

  lemma OthersKeepHeld(w: World, e: Event, m: Meter, p: Probe)
    requires e.Traffic? || e.ProviderReset? || e.Forget? || e.Uninstall? || e.Install?
    ensures Held(Next(w, e), m, p) == Held(w, m, p)
  {
    assert Next(w, e).polls == w.polls && Next(w, e).spans == w.spans;
  }

  // What is taken off a counter is delivered, waits, or is lost; nothing else is.
  lemma StepCollects(w: World, e: Event, m: Meter, p: Probe)
    ensures Held(Next(w, e), m, p) + LostBy(w, e, m, p) == Held(w, m, p) + TakenBy(w, e, m, p)
  {
    match e
    case Observe(poll, core, complete) => ObserveCollects(w, poll, core, complete, m, p);
    case Finish(poll, save, delivered) => FinishCollects(w, poll, save, delivered, m, p);
    case Begin => BeginKeepsHeld(w, m, p);
    case Sample(poll, core, accounts) => SampleKeepsHeld(w, poll, core, accounts, m, p);
    case Snapshot(poll, core, listed) => SnapshotKeepsHeld(w, poll, core, listed, m, p);
    case Crash(_) =>
    case _ => OthersKeepHeld(w, e, m, p);
  }

  lemma BootTracks(w: World, torn: bool, m: Meter)
    ensures TrackedAt(AfterCrash(w, torn), m) == ResumesAt(w, torn, m)
  {
    var f := if torn then Corrupt else w.file;
    var cores := set k | k in Entries(f) && CoreId(CoreOf(k)) :: CoreOf(k);
    RestoredLooksUp(f, m.core, m.account);
    KeyDecodes(m.core, m.account);
    if PersistKey(m.core, m.account) in Entries(f) {
      assert m.core in cores;
    }
  }

  lemma SetTrackerTracks(w: World, d: Driver, b: Baseline, m: Meter)
    ensures TrackedAt(SetTracker(w, d, b), m) ==
            if d == Current(w, m.core) then Of(b, m.account).Get(m.d) else TrackedAt(w, m)
  {
  }

  lemma ObserveTracks(w: World, poll: nat, core: Core, complete: bool, m: Meter)
    requires HasSample(w, poll, core)
    ensures TrackedAt(AfterObserve(w, poll, core, complete), m) ==
            if core == m.core && Attached(w, poll, core)
            then Of(ObserveAll(SeenBy(w, poll, core), w.polls[poll].value.sampled[core]), m.account).Get(m.d)
            else TrackedAt(w, m)
  {
    var b, o := SeenBy(w, poll, core), w.polls[poll].value;
    var w1 := SetPoll(w, poll, Some(PollAfter(b, o, core, complete)));
    SetTrackerTracks(w1, DriverOf(w, poll, core), ObserveAll(b, o.sampled[core]), m);
  }

  lemma ObserveMoves(w: World, poll: nat, core: Core, complete: bool, m: Meter, p: Probe)
    ensures var e := Observe(poll, core, complete);
            TakenBy(w, e, m, p) == RewoundBy(w, e, m, p)
            + Mass(p, TrackedAt(AfterObserve(w, poll, core, complete), m)) - Mass(p, TrackedAt(w, m))
  {
    if HasSample(w, poll, core) {
      ObserveTracks(w, poll, core, complete, m);
      ObserveBalances(p, SeenBy(w, poll, core), core, w.polls[poll].value.sampled[core], m);
    }
  }

  predicate SameDrivers(w: World, w': World) {
    w'.trackers == w.trackers && w'.detached == w.detached && w'.builds == w.builds
  }

  lemma BeginKeepsRest(w: World)
    ensures SameDrivers(w, AfterBegin(w)) && AfterBegin(w).counters == w.counters
  {
  }

  lemma SampleKeepsRest(w: World, poll: nat, core: Core, accounts: seq<string>)
    ensures SameDrivers(w, AfterSample(w, poll, core, accounts)) && AfterSample(w, poll, core, accounts).counters == w.counters
  {
  }

  lemma SnapshotKeepsRest(w: World, poll: nat, core: Core, listed: set<string>)
    ensures SameDrivers(w, AfterSnapshot(w, poll, core, listed)) && AfterSnapshot(w, poll, core, listed).counters == w.counters
  {
  }

  lemma FinishKeepsRest(w: World, poll: nat, save: SaveOutcome, delivered: bool)
    ensures SameDrivers(w, AfterFinish(w, poll, save, delivered)) && AfterFinish(w, poll, save, delivered).counters == w.counters
  {
  }

  lemma PollStepKeepsRest(w: World, e: Event)
    requires e.Begin? || e.Sample? || e.Snapshot? || e.Finish?
    ensures SameDrivers(w, Next(w, e)) && Next(w, e).counters == w.counters
  {
    match e
    case Begin => BeginKeepsRest(w);
    case Sample(poll, core, accounts) => SampleKeepsRest(w, poll, core, accounts);
    case Snapshot(poll, core, listed) => SnapshotKeepsRest(w, poll, core, listed);
    case Finish(poll, save, delivered) => FinishKeepsRest(w, poll, save, delivered);
  }

  lemma OthersKeepTracker(w: World, e: Event, m: Meter)
    requires e.Traffic? || e.ProviderReset? || e.Install?
    ensures TrackedAt(Next(w, e), m) == TrackedAt(w, m)
  {
    assert Next(w, e).trackers == w.trackers;
  }

  lemma ForgetTracks(w: World, d: Driver, account: string, m: Meter)
    ensures TrackedAt(AfterForget(w, d, account), m) ==
            if d == Current(w, m.core) && account == m.account then 0 else TrackedAt(w, m)
  {
    SetTrackerTracks(w, d, TrackerIn(w, d) - {account}, m);
  }

  lemma UninstallTracks(w: World, core: Core, m: Meter)
    ensures TrackedAt(AfterUninstall(w, core), m) ==
            if core == m.core && core !in w.removed then 0 else TrackedAt(w, m)
  {
  }

  lemma TrackerMoves(w: World, e: Event, m: Meter, p: Probe)
    ensures TakenBy(w, e, m, p) == RewoundBy(w, e, m, p) + Mass(p, TrackedAt(Next(w, e), m)) - Mass(p, TrackedAt(w, m))
  {
    match e
    case Observe(poll, core, complete) => ObserveMoves(w, poll, core, complete, m, p);
    case Forget(driver, account) => ForgetTracks(w, driver, account, m);
    case Uninstall(core) => UninstallTracks(w, core, m);
    case Crash(torn) => BootTracks(w, torn, m);
    case Traffic(_, _, _) => OthersKeepTracker(w, e, m);
    case ProviderReset(_, _) => OthersKeepTracker(w, e, m);
    case Install(_) => OthersKeepTracker(w, e, m);
    case _ => PollStepKeepsRest(w, e);
  }

  lemma CounterIs(w: World, core: Core, account: string, t: Totals, m: Meter)
    ensures CounterAt(SetCounter(w, core, account, t), m) ==
            if core == m.core && account == m.account then t.Get(m.d) else CounterAt(w, m)
  {
  }

  lemma TrafficMovesCounter(w: World, core: Core, account: string, grow: Totals, m: Meter)
    ensures CounterAt(AfterTraffic(w, core, account, grow), m) ==
            CounterAt(w, m) + if core == m.core && account == m.account then grow.Get(m.d) else 0
  {
    var c := Counter(w, core, account);
    CounterIs(w, core, account, Totals(c.up + grow.up, c.down + grow.down), m);
  }

  lemma ObserveKeepsCounters(w: World, poll: nat, core: Core, complete: bool)
    ensures AfterObserve(w, poll, core, complete).counters == w.counters
  {
  }

  lemma OthersKeepCounters(w: World, e: Event)
    requires e.Forget? || e.Uninstall? || e.Install? || e.Crash?
    ensures Next(w, e).counters == w.counters
  {
  }

  lemma CounterMoves(w: World, e: Event, m: Meter, p: Probe)
    ensures Mass(p, CounterAt(Next(w, e), m)) == Mass(p, CounterAt(w, m)) + GrownBy(w, e, m, p) - ResetBy(w, e, m, p)
  {
    match e
    case Traffic(core, account, grow) => TrafficMovesCounter(w, core, account, grow, m);
    case ProviderReset(core, account) => CounterIs(w, core, account, ZERO, m);
    case Forget(_, _) => OthersKeepCounters(w, e);
    case Uninstall(_) => OthersKeepCounters(w, e);
    case Install(_) => OthersKeepCounters(w, e);
    case Crash(_) => OthersKeepCounters(w, e);
    case Observe(poll, core, complete) => ObserveKeepsCounters(w, poll, core, complete);
    case _ => PollStepKeepsRest(w, e);
  }

  /** One step, of any kind and in any state: delivered, waiting, lost and not yet read change by
      what is newly metered and what is rewound, less what a reset takes away. */
  lemma StepBalances(w: World, e: Event, m: Meter, p: Probe)
    ensures Balance(Next(w, e), m, p) + LostBy(w, e, m, p)
            == Balance(w, m, p) + GrownBy(w, e, m, p) + RewoundBy(w, e, m, p) - ResetBy(w, e, m, p)
  {
    StepCollects(w, e, m, p);
    TrackerMoves(w, e, m, p);
    CounterMoves(w, e, m, p);
  }

  lemma {:induction false} RunBalances(w: World, events: seq<Event>, m: Meter, p: Probe)
    ensures Balance(Run(w, events), m, p) + Lost(w, events, m, p)
            == Balance(w, m, p) + Grown(w, events, m, p) + Rewound(w, events, m, p) - ResetBytes(w, events, m, p)
  {
    if events != [] {
      var front := events[..|events| - 1];
      RunBalances(w, front, m, p);
      StepBalances(Run(w, front), events[|events| - 1], m, p);
    }
  }

  // ---------------------------------------------------------------------------
  // Spans stand for records
  // ---------------------------------------------------------------------------

  lemma {:induction false} SpansAreFound(b: Baseline, core: Core, readings: seq<Reading>, m: Meter)
    ensures Weight(AllBytes, Spans(b, core, readings), m) == Billed(Nonzero(Found(b, core, readings)), m)
    decreases readings
  {
    ZeroRecordsDoNotCount(Found(b, core, readings), m.core, m.account, m.d);
    if readings != [] {
      var r := readings[0];
      var b' := b[r.account := r.totals];
      SpansAreFound(b', core, readings[1..], m);
      ZeroRecordsDoNotCount(Found(b', core, readings[1..]), m.core, m.account, m.d);
      var spans, found := Spans(b, core, readings), Found(b, core, readings);
      assert spans[1..] == Spans(b', core, readings[1..]) && found[1..] == Found(b', core, readings[1..]);
      assert SpanMass(AllBytes, spans[0], m) ==
             if core == m.core && r.account == m.account then found[0].delta.Get(m.d) else 0;
    }
  }

  ghost predicate PollTells(o: Option<OpenPoll>, m: Meter) {
    o.Some? ==> Weight(AllBytes, o.value.spans, m) == Billed(o.value.work.records, m)
  }

  // The bytes spans stand for are the bytes records bill.
  ghost predicate SpansTell(w: World, m: Meter) {
    && Weight(AllBytes, w.spans, m) == Billed(w.delivered, m)
    && forall i :: 0 <= i < |w.polls| ==> PollTells(w.polls[i], m)
  }

  // One poll moves from o to o', the others stay.
  lemma PollKeepsTelling(w: World, w': World, poll: nat, o: Option<OpenPoll>, m: Meter)
    requires SpansTell(w, m) && poll < |w.polls| && w'.polls == w.polls[poll := o] && PollTells(o, m)
    requires Weight(AllBytes, w'.spans, m) == Billed(w'.delivered, m)
    ensures SpansTell(w', m)
  {
  }

  lemma ObserveKeepsTelling(w: World, poll: nat, core: Core, complete: bool, m: Meter)
    requires SpansTell(w, m)
    ensures SpansTell(AfterObserve(w, poll, core, complete), m)
  {
    if HasSample(w, poll, core) {
      var w', p, b := AfterObserve(w, poll, core, complete), w.polls[poll].value, SeenBy(w, poll, core);
      assert PollTells(w.polls[poll], m);
      SpansAreFound(b, core, p.sampled[core], m);
      WeightConcat(AllBytes, p.spans, Spans(b, core, p.sampled[core]), m);
      SumConcat(p.work.records, Nonzero(Found(b, core, p.sampled[core])), m.core, m.account, m.d);
      PollKeepsTelling(w, w', poll, Some(PollAfter(b, p, core, complete)), m);
    }
  }

  lemma FinishKeepsTelling(w: World, poll: nat, save: SaveOutcome, delivered: bool, m: Meter)
    requires SpansTell(w, m)
    ensures SpansTell(AfterFinish(w, poll, save, delivered), m)
  {
    if IsOpen(w, poll) {
      var p := w.polls[poll].value;
      assert PollTells(w.polls[poll], m);
      WeightConcat(AllBytes, w.spans, p.spans, m);
      SumConcat(w.delivered, p.work.records, m.core, m.account, m.d);
      PollKeepsTelling(w, AfterFinish(w, poll, save, delivered), poll, None, m);
    }
  }

  lemma PollStepKeepsTelling(w: World, e: Event, m: Meter)
    requires (e.Sample? || e.Snapshot?) && SpansTell(w, m)
    ensures SpansTell(Next(w, e), m)
  {
    if IsOpen(w, e.poll) {
      var w' := Next(w, e);
      assert PollTells(w.polls[e.poll], m);
      PollKeepsTelling(w, w', e.poll, w'.polls[e.poll], m);
    }
  }

  lemma BeginKeepsTelling(w: World, m: Meter)
    requires SpansTell(w, m)
    ensures SpansTell(AfterBegin(w), m)
  {
    var w' := AfterBegin(w);
    forall i | 0 <= i < |w'.polls| ensures PollTells(w'.polls[i], m) {
      assert i < |w.polls| ==> PollTells(w.polls[i], m);
    }
  }

  lemma OthersKeepTelling(w: World, e: Event, m: Meter)
    requires e.Traffic? || e.ProviderReset? || e.Forget? || e.Uninstall? || e.Install?
    requires SpansTell(w, m)
    ensures SpansTell(Next(w, e), m)
  {
    var w' := Next(w, e);
    assert w'.polls == w.polls && w'.spans == w.spans && w'.delivered == w.delivered;
  }

  lemma StepKeepsSpansTelling(w: World, e: Event, m: Meter)
    requires SpansTell(w, m)
    ensures SpansTell(Next(w, e), m)
  {
    match e
    case Observe(poll, core, complete) => ObserveKeepsTelling(w, poll, core, complete, m);
    case Finish(poll, save, delivered) => FinishKeepsTelling(w, poll, save, delivered, m);
    case Sample(_, _, _) => PollStepKeepsTelling(w, e, m);
    case Snapshot(_, _, _) => PollStepKeepsTelling(w, e, m);
    case Begin => BeginKeepsTelling(w, m);
    case Crash(_) =>
    case _ => OthersKeepTelling(w, e, m);
  }

  lemma {:induction false} RunKeepsSpansTelling(w: World, events: seq<Event>, m: Meter)
    requires SpansTell(w, m)
    ensures SpansTell(Run(w, events), m)
  {
    if events != [] {
      var front := events[..|events| - 1];
      RunKeepsSpansTelling(w, front, m);
      StepKeepsSpansTelling(Run(w, front), events[|events| - 1], m);
    }
  }

  lemma {:induction false} OpenIsBilled(polls: seq<Option<OpenPoll>>, m: Meter)
    requires forall i :: 0 <= i < |polls| ==> PollTells(polls[i], m)
    ensures OpenWeight(AllBytes, polls, m) == OpenBilled(polls, m)
  {
    if polls != [] {
      OpenIsBilled(polls[..|polls| - 1], m);
      assert PollTells(polls[|polls| - 1], m);
    }
  }

  // Nothing billed yet, no poll open, no driver replaced.
  predicate Idle(w: World) {
    w.polls == [] && w.delivered == [] && w.spans == [] && w.builds == map[] && w.detached == map[]
  }

  /** Every byte is accounted for, in every run: what was billed, what was lost, what waits in open
      polls and what is not yet read is what there was to read, plus what was metered and what was
      rewound, less what provider resets took away. Nothing is assumed about how polls overlap, in
      which order they observe, which saves fail, or when the agent crashes. */
  lemma EveryByteIsAccountedFor(w0: World, events: seq<Event>, m: Meter)
    requires Idle(w0)
    ensures var w := Run(w0, events);
            Billed(w.delivered, m) + Lost(w0, events, m, AllBytes) + OpenBilled(w.polls, m)
            + CounterAt(w, m) - TrackedAt(w, m)
            == CounterAt(w0, m) - TrackedAt(w0, m) + Grown(w0, events, m, AllBytes)
               + Rewound(w0, events, m, AllBytes) - ResetBytes(w0, events, m, AllBytes)
  {
    RunBalances(w0, events, m, AllBytes);
    RunKeepsSpansTelling(w0, events, m);
    OpenIsBilled(Run(w0, events).polls, m);
  }
}
