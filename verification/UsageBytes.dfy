/** Each byte exactly once: when a metered byte is billed again, and when one is lost. */
module UsageBytes {
  import opened Common
  import opened UsageAccounting
  import opened UsageProtocol
  import opened UsageBalance

  // ---------------------------------------------------------------------------
  // Byte by byte, while no provider resets
  // ---------------------------------------------------------------------------

  ghost predicate NoReset(events: seq<Event>) {
    forall e :: e in events ==> !e.ProviderReset?
  }

  lemma {:induction false} CounterOnlyGrows(w0: World, events: seq<Event>, m: Meter, p: Probe)
    requires NoReset(events)
    ensures Grown(w0, events, m, p) == Mass(p, CounterAt(Run(w0, events), m)) - Mass(p, CounterAt(w0, m))
    ensures ResetBytes(w0, events, m, p) == 0
  {
    if events != [] {
      var front, last := events[..|events| - 1], events[|events| - 1];
      CounterOnlyGrows(w0, front, m, p);
      assert last in events;
      CounterMoves(Run(w0, front), last, m, p);
    }
  }

  /** While no provider resets, the panel is billed more than was metered above the first baseline
      exactly when more was rewound than was lost, waits, or is not yet read. */
  lemma OverbilledExactly(w0: World, events: seq<Event>, m: Meter)
    requires Idle(w0) && NoReset(events)
    ensures var w := Run(w0, events);
            Billed(w.delivered, m) > CounterAt(w, m) - TrackedAt(w0, m) <==>
            Rewound(w0, events, m, AllBytes)
            > Lost(w0, events, m, AllBytes) + OpenBilled(w.polls, m) + CounterAt(w, m) - TrackedAt(w, m)
  {
    EveryByteIsAccountedFor(w0, events, m);
    CounterOnlyGrows(w0, events, m, AllBytes);
  }

  function Indicator(b: bool): nat {
    if b then 1 else 0
  }

  // How often the n-th byte of a counter counts: in the first baseline, in what was billed, lost
  // or waits, and as not yet read.
  function Times(w0: World, events: seq<Event>, m: Meter, n: nat): nat {
    var w := Run(w0, events);
    Indicator(n <= TrackedAt(w0, m))
    + Held(w, m, Byte(n)) + Lost(w0, events, m, Byte(n))
    + Indicator(TrackedAt(w, m) < n)
  }

  /** Each metered byte counts once, and once more for each time it was rewound. */
  lemma ByteCountsOncePlusRewound(w0: World, events: seq<Event>, m: Meter, n: nat)
    requires Idle(w0) && NoReset(events) && n >= 1
    ensures Times(w0, events, m, n) == 1 + Rewound(w0, events, m, Byte(n))
  {
    RunBalances(w0, events, m, Byte(n));
    CounterOnlyGrows(w0, events, m, Byte(n));
  }

  // The first baseline, what was billed, what was lost and what waits.
  function Collected(w0: World, events: seq<Event>, m: Meter, n: nat): nat {
    Indicator(n <= TrackedAt(w0, m)) + Held(Run(w0, events), m, Byte(n)) + Lost(w0, events, m, Byte(n))
  }

  ghost predicate CarriedUpTo(o: Option<OpenPoll>, m: Meter, n: nat) {
    var key := PersistKey(m.core, m.account);
    o.Some? && key in o.value.work.baselines && n <= o.value.work.baselines[key].Get(m.d)
  }

  // What one driver last took in, the core's own or a detached one.
  function DriverAt(w: World, d: Driver, m: Meter): nat {
    Of(TrackerIn(w, d), m.account).Get(m.d)
  }

  ghost predicate DriversCover(w: World, m: Meter, n: nat, k: nat) {
    forall d: Driver :: d.core == m.core && n <= DriverAt(w, d, m) ==> k >= 1
  }

  ghost predicate PollsCover(w: World, m: Meter, n: nat, k: nat) {
    forall i :: 0 <= i < |w.polls| && CarriedUpTo(w.polls[i], m, n) ==> k >= 1
  }

  // Whatever a tracker, the file or a snapshot has passed has been collected.
  ghost predicate Covers(w: World, m: Meter, n: nat, k: nat) {
    && DriversCover(w, m, n, k)
    && (m.core !in w.forgetful && n <= SavedAt(w, m) ==> k >= 1)
    && PollsCover(w, m, n, k)
  }

  lemma SetTrackerAt(w: World, d: Driver, b: Baseline, other: Driver, m: Meter)
    ensures DriverAt(SetTracker(w, d, b), other, m) == if d == other then Of(b, m.account).Get(m.d) else DriverAt(w, other, m)
  {
  }

  lemma ObserveDriverAt(w: World, poll: nat, core: Core, complete: bool, d: Driver, m: Meter)
    requires HasSample(w, poll, core)
    ensures DriverAt(AfterObserve(w, poll, core, complete), d, m) ==
            if d == DriverOf(w, poll, core)
            then Of(ObserveAll(SeenBy(w, poll, core), w.polls[poll].value.sampled[core]), m.account).Get(m.d)
            else DriverAt(w, d, m)
  {
    var b, o := SeenBy(w, poll, core), w.polls[poll].value;
    var w1 := SetPoll(w, poll, Some(PollAfter(b, o, core, complete)));
    SetTrackerAt(w1, DriverOf(w, poll, core), ObserveAll(b, o.sampled[core]), d, m);
    assert DriverAt(w1, d, m) == DriverAt(w, d, m);
  }

  // An account forgotten or a driver uninstalled leaves every driver where it was, or at nothing.
  lemma EmptiedAt(w: World, e: Event, d: Driver, m: Meter)
    requires e.Forget? || e.Uninstall?
    ensures DriverAt(Next(w, e), d, m) in {0, DriverAt(w, d, m)}
  {
    if e.Forget? {
      SetTrackerAt(w, e.driver, TrackerIn(w, e.driver) - {e.account}, d, m);
    }
  }

  lemma CrashDriverAt(w: World, torn: bool, d: Driver, m: Meter)
    requires d.core == m.core
    ensures DriverAt(AfterCrash(w, torn), d, m) in {0, ResumesAt(w, torn, m)}
  {
    BootTracks(w, torn, m);
  }

  lemma OthersKeepDrivers(w: World, e: Event)
    requires e.Traffic? || e.ProviderReset? || e.Install?
    ensures SameDrivers(w, Next(w, e))
  {
  }

  // The same drivers have taken in the same.
  lemma DriversStay(w: World, w': World, d: Driver, m: Meter)
    requires SameDrivers(w, w')
    ensures DriverAt(w', d, m) == DriverAt(w, d, m)
  {
  }

  lemma SnapshotCarries(w: World, poll: nat, core: Core, listed: set<string>, m: Meter)
    requires IsOpen(w, poll)
    ensures var key, part := PersistKey(m.core, m.account), Encode(core, Listing(SeenBy(w, poll, core), listed));
            && (key in part ==> core == m.core && part[key].Get(m.d) == DriverAt(w, DriverOf(w, poll, core), m))
            && (core == m.core && m.account in listed && m.account in SeenBy(w, poll, core) ==> key in part)
  {
    EncodeLooksUp(core, Listing(SeenBy(w, poll, core), listed), m.core, m.account);
  }

  lemma StayingDriversCover(w: World, w': World, m: Meter, n: nat, k: nat)
    requires SameDrivers(w, w') && DriversCover(w, m, n, k)
    ensures DriversCover(w', m, n, k)
  {
    forall d: Driver | d.core == m.core && n <= DriverAt(w', d, m) ensures k >= 1 {
      DriversStay(w, w', d, m);
    }
  }

  lemma OthersKeepCover(w: World, e: Event, m: Meter, n: nat, k: nat)
    requires e.Traffic? || e.ProviderReset? || e.Install?
    requires Covers(w, m, n, k)
    ensures Covers(Next(w, e), m, n, k)
  {
    OthersKeepDrivers(w, e);
    StayingDriversCover(w, Next(w, e), m, n, k);
    assert Next(w, e).polls == w.polls;
  }

  lemma OpeningKeepsCover(w: World, e: Event, m: Meter, n: nat, k: nat)
    requires (e.Begin? || e.Sample?) && Covers(w, m, n, k)
    ensures Covers(Next(w, e), m, n, k)
  {
    var w' := Next(w, e);
    PollStepKeepsRest(w, e);
    StayingDriversCover(w, w', m, n, k);
    forall i | 0 <= i < |w'.polls| && CarriedUpTo(w'.polls[i], m, n) ensures k >= 1 {
      assert i < |w.polls| && CarriedUpTo(w.polls[i], m, n);
    }
  }

  lemma SnapshotKeepsCover(w: World, poll: nat, core: Core, listed: set<string>, m: Meter, n: nat, k: nat)
    requires Covers(w, m, n, k)
    ensures Covers(AfterSnapshot(w, poll, core, listed), m, n, k)
  {
    var w' := AfterSnapshot(w, poll, core, listed);
    SnapshotKeepsRest(w, poll, core, listed);
    StayingDriversCover(w, w', m, n, k);
    if IsOpen(w, poll) {
      SnapshotCarries(w, poll, core, listed, m);
      forall i | 0 <= i < |w'.polls| && CarriedUpTo(w'.polls[i], m, n) ensures k >= 1 {
        assert CarriedUpTo(w.polls[i], m, n) ==> k >= 1;
        assert DriverOf(w, poll, core).core == m.core && n <= DriverAt(w, DriverOf(w, poll, core), m) ==> k >= 1;
      }
    }
  }

  lemma ObserveKeepsCover(w: World, poll: nat, core: Core, complete: bool, m: Meter, n: nat, k: nat)
    requires n >= 1 && Covers(w, m, n, k)
    ensures Covers(AfterObserve(w, poll, core, complete), m, n, k + TakenBy(w, Observe(poll, core, complete), m, Byte(n)))
  {
    if HasSample(w, poll, core) {
      var w', b := AfterObserve(w, poll, core, complete), SeenBy(w, poll, core);
      var taken := TakenBy(w, Observe(poll, core, complete), m, Byte(n));
      ObserveBalances(Byte(n), b, core, w.polls[poll].value.sampled[core], m);
      forall d: Driver | d.core == m.core && n <= DriverAt(w', d, m) ensures k + taken >= 1 {
        ObserveDriverAt(w, poll, core, complete, d, m);
        assert n <= DriverAt(w, d, m) ==> k >= 1;
      }
      forall i | 0 <= i < |w'.polls| && CarriedUpTo(w'.polls[i], m, n) ensures k >= 1 {
        assert CarriedUpTo(w.polls[i], m, n) ==> k >= 1;
      }
    }
  }

  lemma FinishKeepsCover(w: World, poll: nat, save: SaveOutcome, delivered: bool, m: Meter, n: nat, k: nat)
    requires n >= 1 && Covers(w, m, n, k)
    ensures Covers(AfterFinish(w, poll, save, delivered), m, n, k)
  {
    var w' := AfterFinish(w, poll, save, delivered);
    FinishKeepsRest(w, poll, save, delivered);
    StayingDriversCover(w, w', m, n, k);
    if IsOpen(w, poll) {
      assert CarriedUpTo(w.polls[poll], m, n) ==> k >= 1;
      forall i | 0 <= i < |w'.polls| && CarriedUpTo(w'.polls[i], m, n) ensures k >= 1 {
        assert CarriedUpTo(w.polls[i], m, n) ==> k >= 1;
      }
    }
  }

  lemma EmptyingKeepsCover(w: World, e: Event, m: Meter, n: nat, k: nat)
    requires (e.Forget? || e.Uninstall? || e.Crash?) && n >= 1 && Covers(w, m, n, k)
    ensures Covers(Next(w, e), m, n, k)
  {
    var w' := Next(w, e);
    forall d: Driver | d.core == m.core && n <= DriverAt(w', d, m) ensures k >= 1 {
      if e.Crash? {
        CrashDriverAt(w, e.torn, d, m);
      } else {
        EmptiedAt(w, e, d, m);
      }
    }
    forall i | 0 <= i < |w'.polls| && CarriedUpTo(w'.polls[i], m, n) ensures k >= 1 {
      assert w'.polls == w.polls && CarriedUpTo(w.polls[i], m, n);
    }
  }

  lemma StepKeepsCover(w: World, e: Event, m: Meter, n: nat, k: nat)
    requires n >= 1 && Covers(w, m, n, k)
    ensures Covers(Next(w, e), m, n, k + TakenBy(w, e, m, Byte(n)))
  {
    match e
    case Observe(poll, core, complete) => ObserveKeepsCover(w, poll, core, complete, m, n, k);
    case Finish(poll, save, delivered) => FinishKeepsCover(w, poll, save, delivered, m, n, k);
    case Snapshot(poll, core, listed) => SnapshotKeepsCover(w, poll, core, listed, m, n, k);
    case Forget(_, _) => EmptyingKeepsCover(w, e, m, n, k);
    case Uninstall(_) => EmptyingKeepsCover(w, e, m, n, k);
    case Crash(_) => EmptyingKeepsCover(w, e, m, n, k);
    case Begin => OpeningKeepsCover(w, e, m, n, k);
    case Sample(_, _, _) => OpeningKeepsCover(w, e, m, n, k);
    case _ => OthersKeepCover(w, e, m, n, k);
  }

  lemma {:induction false} RunKeepsCover(w0: World, events: seq<Event>, m: Meter, n: nat)
    requires Idle(w0) && n >= 1 && (m.core !in w0.forgetful ==> SavedAt(w0, m) <= TrackedAt(w0, m))
    ensures Covers(Run(w0, events), m, n, Collected(w0, events, m, n))
  {
    if events == [] {
      forall d: Driver | d.core == m.core && n <= DriverAt(w0, d, m) ensures n <= TrackedAt(w0, m) {}
    } else {
      var front, last := events[..|events| - 1], events[|events| - 1];
      RunKeepsCover(w0, front, m, n);
      StepKeepsCover(Run(w0, front), last, m, n, Collected(w0, front, m, n));
      StepCollects(Run(w0, front), last, m, Byte(n));
    }
  }

  /** No byte is ever passed over: each one counts at least once. */
  lemma NoByteIsPassedOver(w0: World, events: seq<Event>, m: Meter, n: nat)
    requires Idle(w0) && NoReset(events) && n >= 1
    requires m.core !in w0.forgetful ==> SavedAt(w0, m) <= TrackedAt(w0, m)
    ensures Times(w0, events, m, n) >= 1 && Rewound(w0, events, m, Byte(n)) >= 0
  {
    RunKeepsCover(w0, events, m, n);
    ByteCountsOncePlusRewound(w0, events, m, n);
  }

  // Delivered, waiting, or not yet read: what the panel has been or can still be charged.
  function Due(w0: World, w: World, m: Meter, n: nat): nat {
    Indicator(n <= TrackedAt(w0, m)) + Held(w, m, Byte(n)) + Indicator(TrackedAt(w, m) < n)
  }

  /** The panel is due a byte once, once more for each time it was rewound, and once less for each
      time it was lost. */
  lemma DueExactly(w0: World, events: seq<Event>, m: Meter, n: nat)
    requires Idle(w0) && NoReset(events) && n >= 1
    ensures Due(w0, Run(w0, events), m, n) == 1 + Rewound(w0, events, m, Byte(n)) - Lost(w0, events, m, Byte(n))
  {
    ByteCountsOncePlusRewound(w0, events, m, n);
  }

  ghost predicate DueAtMostOnce(w0: World, w: World, m: Meter) {
    forall n :: n >= 1 ==> Due(w0, w, m, n) <= 1
  }

  // No byte above this point has reached the panel, in this run or before it.
  ghost predicate NothingDeliveredAbove(w0: World, w: World, m: Meter, point: nat) {
    point >= TrackedAt(w0, m) && forall n :: n > point ==> Weight(Byte(n), w.spans, m) == 0
  }

  /** A crash keeps the panel from being charged twice exactly when no byte that was delivered lies
      above the point the restart resumes from; polls the crash cut off do not matter. */
  lemma CrashIsSafeExactly(w0: World, w: World, m: Meter, torn: bool)
    requires DueAtMostOnce(w0, w, m)
    ensures var w' := AfterCrash(w, torn);
            DueAtMostOnce(w0, w', m) <==> NothingDeliveredAbove(w0, w, m, TrackedAt(w', m))
  {
    var w' := AfterCrash(w, torn);
    var point := TrackedAt(w', m);
    forall n | n >= 1 ensures Due(w0, w', m, n) ==
      Indicator(n <= TrackedAt(w0, m)) + Weight(Byte(n), w.spans, m) + Indicator(point < n) {}
    if NothingDeliveredAbove(w0, w, m, point) {
      forall n | n >= 1 ensures Due(w0, w', m, n) <= 1 {
        assert Due(w0, w, m, n) <= 1;
      }
    }
    if DueAtMostOnce(w0, w', m) {
      assert Due(w0, w', m, point + 1) <= 1;
      forall n | n > point ensures Weight(Byte(n), w.spans, m) == 0 {
        assert Due(w0, w', m, n) <= 1;
      }
    }
  }

  // ---------------------------------------------------------------------------
  // All bytes at once
  // ---------------------------------------------------------------------------

  lemma {:induction false} BackwardSplits(b: Baseline, core: Core, readings: seq<Reading>, m: Meter, n: nat)
    requires n >= 1
    ensures Backward(Byte(n), b, core, readings, m)
            == Backward(Upto(n), b, core, readings, m) - Backward(Upto(n - 1), b, core, readings, m)
    ensures Backward(Upto(0), b, core, readings, m) == 0
    decreases readings
  {
    if readings != [] {
      BackwardSplits(b[readings[0].account := readings[0].totals], core, readings[1..], m, n);
    }
  }

  lemma {:induction false} WeightSplits(spans: seq<Span>, m: Meter, n: nat)
    requires n >= 1
    ensures Weight(Byte(n), spans, m) == Weight(Upto(n), spans, m) - Weight(Upto(n - 1), spans, m)
    ensures Weight(Upto(0), spans, m) == 0
  {
    if spans != [] {
      WeightSplits(spans[1..], m, n);
    }
  }

  lemma RewoundBySplits(w: World, e: Event, m: Meter, n: nat)
    requires n >= 1
    ensures RewoundBy(w, e, m, Byte(n)) == RewoundBy(w, e, m, Upto(n)) - RewoundBy(w, e, m, Upto(n - 1))
    ensures RewoundBy(w, e, m, Upto(0)) == 0
  {
    if e.Observe? && HasSample(w, e.poll, e.core) {
      BackwardSplits(SeenBy(w, e.poll, e.core), e.core, w.polls[e.poll].value.sampled[e.core], m, n);
      WeightSplits(SpansSeen(w, e.poll, e.core), m, n);
    }
  }

  lemma {:induction false} RewoundSplits(w0: World, events: seq<Event>, m: Meter, n: nat)
    requires n >= 1
    ensures Rewound(w0, events, m, Byte(n)) == Rewound(w0, events, m, Upto(n)) - Rewound(w0, events, m, Upto(n - 1))
    ensures Rewound(w0, events, m, Upto(0)) == 0
  {
    if events != [] {
      var front := events[..|events| - 1];
      RewoundSplits(w0, front, m, n);
      RewoundBySplits(Run(w0, front), events[|events| - 1], m, n);
    }
  }

  ghost predicate ReadingsBelow(readings: seq<Reading>, m: Meter, top: nat) {
    forall r :: r in readings && r.account == m.account ==> r.totals.Get(m.d) <= top
  }

  ghost predicate PollBelow(o: Option<OpenPoll>, m: Meter, top: nat) {
    && !CarriedUpTo(o, m, top + 1)
    && (o.Some? && m.core in o.value.sampled ==> ReadingsBelow(o.value.sampled[m.core], m, top))
  }

  ghost predicate DriversBelow(w: World, m: Meter, top: nat) {
    forall d: Driver :: d.core == m.core ==> DriverAt(w, d, m) <= top
  }

  // Nothing the agent knows of a counter lies above it.
  ghost predicate Below(w: World, m: Meter, top: nat) {
    && CounterAt(w, m) <= top && SavedAt(w, m) <= top && DriversBelow(w, m, top)
    && forall i :: 0 <= i < |w.polls| ==> PollBelow(w.polls[i], m, top)
  }

  lemma {:induction false} ReadingsAreBelow(w: World, core: Core, accounts: seq<string>, m: Meter)
    requires core == m.core
    ensures ReadingsBelow(Readings(w, core, accounts), m, CounterAt(w, m))
  {
    if accounts != [] {
      ReadingsAreBelow(w, core, accounts[1..], m);
    }
  }

  lemma {:induction false} ObserveStaysBelow(b: Baseline, core: Core, readings: seq<Reading>, m: Meter, top: nat)
    requires core == m.core && ReadingsBelow(readings, m, top) && Of(b, m.account).Get(m.d) <= top
    ensures Of(ObserveAll(b, readings), m.account).Get(m.d) <= top
    ensures Backward(Upto(top), b, core, readings, m) == Backward(AllBytes, b, core, readings, m)
    ensures Weight(Upto(top), Spans(b, core, readings), m) == Weight(AllBytes, Spans(b, core, readings), m)
    decreases readings
  {
    if readings != [] {
      assert readings[0] in readings;
      var rest := Spans(b[readings[0].account := readings[0].totals], core, readings[1..]);
      assert Spans(b, core, readings)[1..] == rest;
      ObserveStaysBelow(b[readings[0].account := readings[0].totals], core, readings[1..], m, top);
    }
  }

  lemma {:induction false} OtherCoreNotBackward(p: Probe, b: Baseline, core: Core, readings: seq<Reading>, m: Meter)
    requires core != m.core
    ensures Backward(p, b, core, readings, m) == 0 && Weight(p, Spans(b, core, readings), m) == 0
    decreases readings
  {
    if readings != [] {
      var rest := Spans(b[readings[0].account := readings[0].totals], core, readings[1..]);
      assert Spans(b, core, readings)[1..] == rest;
      OtherCoreNotBackward(p, b[readings[0].account := readings[0].totals], core, readings[1..], m);
    }
  }

  lemma ReadingsStayBelow(w: World, poll: nat, core: Core, m: Meter, top: nat)
    requires Below(w, m, top) && HasSample(w, poll, core)
    ensures var b, readings := SeenBy(w, poll, core), w.polls[poll].value.sampled[core];
            && (core == m.core ==> Of(ObserveAll(b, readings), m.account).Get(m.d) <= top)
            && Backward(Upto(top), b, core, readings, m) == Backward(AllBytes, b, core, readings, m)
            && Weight(Upto(top), SpansSeen(w, poll, core), m) == Weight(AllBytes, SpansSeen(w, poll, core), m)
  {
    var b, readings := SeenBy(w, poll, core), w.polls[poll].value.sampled[core];
    assert PollBelow(w.polls[poll], m, top);
    if core == m.core {
      assert DriverAt(w, DriverOf(w, poll, core), m) <= top;
      ObserveStaysBelow(b, core, readings, m, top);
    } else {
      OtherCoreNotBackward(Upto(top), b, core, readings, m);
      OtherCoreNotBackward(AllBytes, b, core, readings, m);
    }
  }

  lemma ObserveKeepsBelow(w: World, poll: nat, core: Core, complete: bool, m: Meter, top: nat)
    requires Below(w, m, top) && HasSample(w, poll, core)
    ensures Below(AfterObserve(w, poll, core, complete), m, top)
  {
    var w' := AfterObserve(w, poll, core, complete);
    ReadingsStayBelow(w, poll, core, m, top);
    forall d: Driver | d.core == m.core ensures DriverAt(w', d, m) <= top {
      ObserveDriverAt(w, poll, core, complete, d, m);
    }
    forall i | 0 <= i < |w'.polls| ensures PollBelow(w'.polls[i], m, top) {
      assert PollBelow(w.polls[i], m, top);
    }
  }

  lemma StayingDriversBelow(w: World, w': World, m: Meter, top: nat)
    requires SameDrivers(w, w') && DriversBelow(w, m, top)
    ensures DriversBelow(w', m, top)
  {
    forall d: Driver | d.core == m.core ensures DriverAt(w', d, m) <= top {
      DriversStay(w, w', d, m);
    }
  }

  lemma SampleKeepsBelow(w: World, poll: nat, core: Core, accounts: seq<string>, m: Meter, top: nat)
    requires Below(w, m, top)
    ensures Below(AfterSample(w, poll, core, accounts), m, top)
  {
    SampleKeepsRest(w, poll, core, accounts);
    StayingDriversBelow(w, AfterSample(w, poll, core, accounts), m, top);
    if IsOpen(w, poll) {
      assert PollBelow(w.polls[poll], m, top);
      if core == m.core {
        ReadingsAreBelow(w, core, accounts, m);
      }
    }
  }

  lemma SnapshotKeepsBelow(w: World, poll: nat, core: Core, listed: set<string>, m: Meter, top: nat)
    requires Below(w, m, top)
    ensures Below(AfterSnapshot(w, poll, core, listed), m, top)
  {
    SnapshotKeepsRest(w, poll, core, listed);
    StayingDriversBelow(w, AfterSnapshot(w, poll, core, listed), m, top);
    if IsOpen(w, poll) {
      assert PollBelow(w.polls[poll], m, top);
      SnapshotCarries(w, poll, core, listed, m);
      assert core == m.core ==> DriverAt(w, DriverOf(w, poll, core), m) <= top;
    }
  }

  lemma OtherStepKeepsBelow(w: World, e: Event, m: Meter, top: nat)
    requires e.Traffic? || e.ProviderReset? || e.Install?
    requires Below(w, m, top) && CounterAt(Next(w, e), m) <= top
    ensures Below(Next(w, e), m, top)
  {
    OthersKeepDrivers(w, e);
    StayingDriversBelow(w, Next(w, e), m, top);
    assert Next(w, e).polls == w.polls && Next(w, e).file == w.file;
  }

  lemma PollStepKeepsBelow(w: World, e: Event, m: Meter, top: nat)
    requires (e.Begin? || e.Finish?) && Below(w, m, top)
    ensures Below(Next(w, e), m, top)
  {
    PollStepKeepsRest(w, e);
    StayingDriversBelow(w, Next(w, e), m, top);
    if e.Finish? && IsOpen(w, e.poll) {
      assert PollBelow(w.polls[e.poll], m, top);
    }
  }

  lemma EmptyingKeepsBelow(w: World, e: Event, m: Meter, top: nat)
    requires (e.Forget? || e.Uninstall? || e.Crash?) && Below(w, m, top)
    ensures Below(Next(w, e), m, top)
  {
    forall d: Driver | d.core == m.core ensures DriverAt(Next(w, e), d, m) <= top {
      assert DriverAt(w, d, m) <= top;
      if e.Crash? {
        CrashDriverAt(w, e.torn, d, m);
      } else {
        EmptiedAt(w, e, d, m);
      }
    }
    OthersKeepCounters(w, e);
  }

  lemma StepKeepsBelow(w: World, e: Event, m: Meter, top: nat)
    requires Below(w, m, top) && CounterAt(Next(w, e), m) <= top
    ensures Below(Next(w, e), m, top)
    ensures RewoundBy(w, e, m, Upto(top)) == RewoundBy(w, e, m, AllBytes)
  {
    assert DriverAt(w, Current(w, m.core), m) <= top;
    match e
    case Observe(poll, core, complete) =>
      if HasSample(w, poll, core) {
        ReadingsStayBelow(w, poll, core, m, top);
        ObserveKeepsBelow(w, poll, core, complete, m, top);
      }
    case Begin => PollStepKeepsBelow(w, e, m, top);
    case Finish(_, _, _) => PollStepKeepsBelow(w, e, m, top);
    case Sample(poll, core, accounts) => SampleKeepsBelow(w, poll, core, accounts, m, top);
    case Snapshot(poll, core, listed) => SnapshotKeepsBelow(w, poll, core, listed, m, top);
    case Forget(_, _) => EmptyingKeepsBelow(w, e, m, top);
    case Uninstall(_) => EmptyingKeepsBelow(w, e, m, top);
    case Crash(_) => EmptyingKeepsBelow(w, e, m, top);
    case _ => OtherStepKeepsBelow(w, e, m, top);
  }

  lemma {:induction false} RunStaysBelow(w0: World, events: seq<Event>, m: Meter, top: nat)
    requires Idle(w0) && NoReset(events)
    requires TrackedAt(w0, m) <= CounterAt(w0, m) && SavedAt(w0, m) <= CounterAt(w0, m)
    requires CounterAt(Run(w0, events), m) <= top
    ensures Below(Run(w0, events), m, top)
    ensures Rewound(w0, events, m, Upto(top)) == Rewound(w0, events, m, AllBytes)
  {
    if events == [] {
      forall d: Driver | d.core == m.core ensures DriverAt(w0, d, m) <= top {}
    } else {
      var front, last := events[..|events| - 1], events[|events| - 1];
      assert last in events;
      CounterMoves(Run(w0, front), last, m, AllBytes);
      RunStaysBelow(w0, front, m, top);
      StepKeepsBelow(Run(w0, front), last, m, top);
    }
  }

  // Each metered byte counts exactly once.
  ghost predicate EachByteOnce(w0: World, events: seq<Event>, m: Meter) {
    forall n :: 1 <= n <= CounterAt(Run(w0, events), m) ==> Times(w0, events, m, n) == 1
  }

  // A boot from a file some earlier run saved, or a driver that starts with nothing.
  ghost predicate BootedFor(w: World, m: Meter) {
    && Idle(w)
    && m.core !in w.removed
    && TrackedAt(w, m) == if m.core in w.forgetful then 0 else SavedAt(w, m)
  }

  lemma {:induction false} RewoundUptoGrows(w0: World, events: seq<Event>, m: Meter, n: nat)
    requires BootedFor(w0, m) && NoReset(events)
    ensures Rewound(w0, events, m, Upto(n)) >= 0
    ensures Rewound(w0, events, m, Upto(n)) == 0 <==>
            forall k :: 1 <= k <= n ==> Times(w0, events, m, k) == 1
  {
    if n == 0 {
      RewoundSplits(w0, events, m, 1);
    } else {
      RewoundUptoGrows(w0, events, m, n - 1);
      RewoundSplits(w0, events, m, n);
      NoByteIsPassedOver(w0, events, m, n);
      ByteCountsOncePlusRewound(w0, events, m, n);
    }
  }

  /** Nothing is counted twice exactly when nothing was rewound, on balance, in the whole run. */
  lemma NothingTwiceExactly(w0: World, events: seq<Event>, m: Meter)
    requires BootedFor(w0, m) && NoReset(events) && SavedAt(w0, m) <= CounterAt(w0, m)
    ensures Rewound(w0, events, m, AllBytes) >= 0
    ensures EachByteOnce(w0, events, m) <==> Rewound(w0, events, m, AllBytes) == 0
  {
    var top := CounterAt(Run(w0, events), m);
    RunStaysBelow(w0, events, m, top);
    RewoundUptoGrows(w0, events, m, top);
  }

  // No reading is below the tracker it is observed against, unless that tracker is at zero.
  predicate ReadsForward(b: Baseline, core: Core, readings: seq<Reading>, m: Meter)
    decreases readings
  {
    readings == [] ||
    var r := readings[0];
    && (core == m.core && r.account == m.account ==>
          r.totals.Get(m.d) >= Of(b, r.account).Get(m.d) || Of(b, r.account).Get(m.d) == 0)
    && ReadsForward(b[r.account := r.totals], core, readings[1..], m)
  }

  // The readings hold nothing for the meter that the tracker has not taken in.
  predicate ReadsNothing(b: Baseline, core: Core, readings: seq<Reading>, m: Meter)
    decreases readings
  {
    readings == [] ||
    var r := readings[0];
    && (core == m.core && r.account == m.account ==>
          r.totals.Get(m.d) == Of(b, r.account).Get(m.d) || r.totals.Get(m.d) == 0)
    && ReadsNothing(b[r.account := r.totals], core, readings[1..], m)
  }

  // An observation reads forward, through the driver the core still has or else takes nothing; a
  // tracker is emptied only when it is at zero; and a crash finds it where the restart resumes.
  predicate InOrder(w: World, e: Event, m: Meter) {
    match e
    case Observe(poll, core, _) =>
      HasSample(w, poll, core) ==>
        var b, readings := SeenBy(w, poll, core), w.polls[poll].value.sampled[core];
        if Attached(w, poll, core) then ReadsForward(b, core, readings, m) else ReadsNothing(b, core, readings, m)
    case Forget(driver, account) => driver == Current(w, m.core) && account == m.account ==> TrackedAt(w, m) == 0
    case Uninstall(core) => core == m.core && core !in w.removed ==> TrackedAt(w, m) == 0
    case Crash(torn) => TrackedAt(w, m) == ResumesAt(w, torn, m)
    case _ => true
  }

  lemma {:induction false} BackwardExactly(b: Baseline, core: Core, readings: seq<Reading>, m: Meter)
    ensures Backward(AllBytes, b, core, readings, m) == 0 <==> ReadsForward(b, core, readings, m)
    decreases readings
  {
    if readings != [] {
      BackwardExactly(b[readings[0].account := readings[0].totals], core, readings[1..], m);
    }
  }

  lemma {:induction false} NothingTakenExactly(b: Baseline, core: Core, readings: seq<Reading>, m: Meter)
    ensures Weight(AllBytes, Spans(b, core, readings), m) == 0 <==> ReadsNothing(b, core, readings, m)
    decreases readings
  {
    if readings != [] {
      var b' := b[readings[0].account := readings[0].totals];
      assert Spans(b, core, readings)[1..] == Spans(b', core, readings[1..]);
      NothingTakenExactly(b', core, readings[1..], m);
    }
  }

  lemma InOrderRewindsNothing(w: World, e: Event, m: Meter)
    ensures InOrder(w, e, m) <==> RewoundBy(w, e, m, AllBytes) == 0
  {
    if e.Observe? && HasSample(w, e.poll, e.core) {
      BackwardExactly(SeenBy(w, e.poll, e.core), e.core, w.polls[e.poll].value.sampled[e.core], m);
      NothingTakenExactly(SeenBy(w, e.poll, e.core), e.core, w.polls[e.poll].value.sampled[e.core], m);
    }
  }

  ghost predicate InOrderRun(w0: World, events: seq<Event>, m: Meter) {
    forall i :: 0 <= i < |events| ==> InOrder(Run(w0, events[..i]), events[i], m)
  }

  ghost predicate AlwaysOnce(w0: World, events: seq<Event>, m: Meter) {
    forall i :: 0 <= i <= |events| ==> EachByteOnce(w0, events[..i], m)
  }

  lemma PrefixRewound(w0: World, events: seq<Event>, m: Meter, i: nat)
    requires i < |events|
    ensures Rewound(w0, events[..i + 1], m, AllBytes)
            == Rewound(w0, events[..i], m, AllBytes) + RewoundBy(Run(w0, events[..i]), events[i], m, AllBytes)
  {
    var more := events[..i + 1];
    assert more[..|more| - 1] == events[..i] && more[|more| - 1] == events[i];
  }

  lemma {:induction false} InOrderPrefixRewindsNothing(w0: World, events: seq<Event>, m: Meter, i: nat)
    requires i <= |events| && InOrderRun(w0, events, m)
    ensures Rewound(w0, events[..i], m, AllBytes) == 0
  {
    if i > 0 {
      InOrderPrefixRewindsNothing(w0, events, m, i - 1);
      PrefixRewound(w0, events, m, i - 1);
      assert InOrder(Run(w0, events[..i - 1]), events[i - 1], m);
      InOrderRewindsNothing(Run(w0, events[..i - 1]), events[i - 1], m);
    }
  }

  /** No double counting, exactly. While no provider resets, every metered byte counts once, at
      every point of a run, if and only if every reading is observed at or above its tracker,
      through the driver the core still has; no tracker is emptied that has taken something in; and
      every crash finds the tracker where the restart will put it; however polls overlap, whichever
      reads break off, saves fail and replies are lost. */
  lemma AlwaysOnceExactly(w0: World, events: seq<Event>, m: Meter)
    requires BootedFor(w0, m) && NoReset(events) && SavedAt(w0, m) <= CounterAt(w0, m)
    ensures AlwaysOnce(w0, events, m) <==> InOrderRun(w0, events, m)
  {
    forall i: nat | i <= |events|
      ensures EachByteOnce(w0, events[..i], m) <==> Rewound(w0, events[..i], m, AllBytes) == 0
    {
      assert forall e :: e in events[..i] ==> e in events;
      NothingTwiceExactly(w0, events[..i], m);
    }
    if AlwaysOnce(w0, events, m) {
      forall i | 0 <= i < |events| ensures InOrder(Run(w0, events[..i]), events[i], m) {
        assert EachByteOnce(w0, events[..i], m) && EachByteOnce(w0, events[..i + 1], m);
        PrefixRewound(w0, events, m, i);
        InOrderRewindsNothing(Run(w0, events[..i]), events[i], m);
      }
    }
    if InOrderRun(w0, events, m) {
      forall i | 0 <= i <= |events| ensures EachByteOnce(w0, events[..i], m) {
        InOrderPrefixRewindsNothing(w0, events, m, i);
      }
    }
  }

  // ---------------------------------------------------------------------------
  // What is lost
  // ---------------------------------------------------------------------------

  predicate BillsNothing(o: Option<OpenPoll>, m: Meter) {
    o.Some? ==> Billed(o.value.work.records, m) == 0
  }

  ghost predicate NoneBills(polls: seq<Option<OpenPoll>>, m: Meter) {
    forall i :: 0 <= i < |polls| ==> BillsNothing(polls[i], m)
  }

  // A reply that does not arrive, a read that breaks off and a crash over open polls find nothing
  // of the meter to lose.
  ghost predicate LosesNothing(w: World, e: Event, m: Meter) {
    match e
    case Observe(poll, core, complete) =>
      !complete && HasSample(w, poll, core) ==>
        ReadsNothing(SeenBy(w, poll, core), core, w.polls[poll].value.sampled[core], m)
    case Finish(poll, _, delivered) => !delivered && IsOpen(w, poll) ==> BillsNothing(w.polls[poll], m)
    case Crash(_) => NoneBills(w.polls, m)
    case _ => true
  }

  lemma {:induction false} NoneBillsExactly(polls: seq<Option<OpenPoll>>, m: Meter)
    ensures OpenBilled(polls, m) == 0 <==> NoneBills(polls, m)
  {
    if polls != [] {
      var front := polls[..|polls| - 1];
      NoneBillsExactly(front, m);
      assert NoneBills(polls, m) <==> NoneBills(front, m) && BillsNothing(polls[|polls| - 1], m) by {
        forall i | NoneBills(polls, m) && 0 <= i < |front| ensures BillsNothing(front[i], m) {
          assert front[i] == polls[i];
        }
      }
    }
  }

  lemma StepLosesExactly(w: World, e: Event, m: Meter)
    requires SpansTell(w, m)
    ensures LosesNothing(w, e, m) <==> LostBy(w, e, m, AllBytes) == 0
  {
    match e
    case Observe(poll, core, _) =>
      if HasSample(w, poll, core) {
        NothingTakenExactly(SeenBy(w, poll, core), core, w.polls[poll].value.sampled[core], m);
      }
    case Finish(poll, _, _) =>
      if IsOpen(w, poll) {
        assert PollTells(w.polls[poll], m);
      }
    case Crash(_) =>
      OpenIsBilled(w.polls, m);
      NoneBillsExactly(w.polls, m);
    case _ =>
  }

  ghost predicate LossFree(w0: World, events: seq<Event>, m: Meter) {
    events == [] ||
    var front := events[..|events| - 1];
    LossFree(w0, front, m) && LosesNothing(Run(w0, front), events[|events| - 1], m)
  }

  /** The cursor moves without a delivery exactly when a reply with records does not arrive, a read
      that has something to take breaks off, or a crash cuts off a poll with records: no byte of a
      run is lost if and only if none of these happens in it. */
  lemma {:induction false} NothingLostExactly(w0: World, events: seq<Event>, m: Meter)
    requires SpansTell(w0, m)
    ensures Lost(w0, events, m, AllBytes) == 0 <==> LossFree(w0, events, m)
  {
    if events != [] {
      var front := events[..|events| - 1];
      NothingLostExactly(w0, front, m);
      RunKeepsSpansTelling(w0, front, m);
      StepLosesExactly(Run(w0, front), events[|events| - 1], m);
    }
  }
}
