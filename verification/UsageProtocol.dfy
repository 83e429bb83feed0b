/** Where every metered byte goes: overlapping polls, stale readings, provider resets, replaced
    drivers, lost replies and crashes. */
module UsageProtocol {
  import opened Common
  import opened UsageAccounting

  // The bytes a record stands for: on each direction's counter, those after lo and up to hi. The
  // program keeps no such thing; it is carried beside the records to say which bytes they bill.
  datatype Span = Span(core: string, account: string, lo: Totals, hi: Totals)

  // A core's driver, by how many drivers it had before in this process.
  datatype Driver = Driver(core: Core, build: nat)

  // A poll under way: what it will return, what it will save, the cores it has asked, and the
  // counters it has read in a thread but not yet observed. It keeps to the drivers it began with:
  // absent lists the cores that had none, and builds says which one the others had.
  datatype OpenPoll = OpenPoll(work: Poll, spans: seq<Span>, asked: set<Core>, sampled: map<Core, seq<Reading>>,
                               absent: set<Core>, builds: map<Core, nat>)

  // forgetful: the cores whose driver translates account ids through accounts it does not yet
  // know when the boot restores baselines (WireguardUsage). removed: the cores not installed.
  // trackers are those of the installed drivers, detached those of drivers that were uninstalled
  // but that a poll may still hold.
  datatype World = World(forgetful: set<Core>, removed: set<Core>, builds: map<Core, nat>,
                         trackers: Trackers, detached: map<Driver, Baseline>,
                         file: File, polls: seq<Option<OpenPoll>>,
                         counters: map<Core, Baseline>, delivered: seq<Record>, spans: seq<Span>)

  // Segments of polls interleave with each other, with traffic, with lifecycle and account
  // commands, and with restarts. The polls are numbered in the order they began.
  datatype Event =
    | Traffic(core: Core, account: string, grow: Totals)
    | ProviderReset(core: Core, account: string)
    | Begin
    | Sample(poll: nat, core: Core, accounts: seq<string>)
    | Observe(poll: nat, core: Core, complete: bool)
    | Snapshot(poll: nat, core: Core, listed: set<string>)
    | Finish(poll: nat, save: SaveOutcome, delivered: bool)
    | Forget(driver: Driver, account: string)
    | Uninstall(core: Core)
    | Install(core: Core)
    | Crash(torn: bool)

  datatype Meter = Meter(core: Core, account: string, d: Direction)

  function Counter(w: World, core: Core, account: string): Totals {
    Of(TrackerOf(w.counters, core), account)
  }

  function Tracked(w: World, core: Core, account: string): Totals {
    Of(TrackerOf(w.trackers, core), account)
  }

  // What the file holds for an account.
  function FileTotals(f: File, core: Core, account: string): Totals {
    var key := PersistKey(core, account);
    if key in Entries(f) then Entries(f)[key] else ZERO
  }

  // What the counter shows, what the tracker last took in, and what the file holds.
  function CounterAt(w: World, m: Meter): nat {
    Counter(w, m.core, m.account).Get(m.d)
  }

  function TrackedAt(w: World, m: Meter): nat {
    Tracked(w, m.core, m.account).Get(m.d)
  }

  function SavedAt(w: World, m: Meter): nat {
    FileTotals(w.file, m.core, m.account).Get(m.d)
  }

  function SetCounter(w: World, core: Core, account: string, t: Totals): World {
    w.(counters := w.counters[core := TrackerOf(w.counters, core)[account := t]])
  }

  // What the provider shows for the accounts a driver asks about.
  function Readings(w: World, core: Core, accounts: seq<string>): seq<Reading> {
    if accounts == [] then []
    else [Reading(accounts[0], Counter(w, core, accounts[0]))] + Readings(w, core, accounts[1..])
  }

  function SpanStart(current: nat, previous: nat): nat {
    if current >= previous then previous else 0
  }

  function SpanOf(b: Baseline, core: string, r: Reading): Span {
    var base := Of(b, r.account);
    Span(core, r.account, Totals(SpanStart(r.totals.up, base.up), SpanStart(r.totals.down, base.down)), r.totals)
  }

  function Spans(b: Baseline, core: string, readings: seq<Reading>): seq<Span>
    decreases readings
  {
    if readings == [] then []
    else [SpanOf(b, core, readings[0])] + Spans(b[readings[0].account := readings[0].totals], core, readings[1..])
  }

  // The trackers as the boot restore leaves them, for all cores but these.
  function BootTrackers(f: File, without: set<Core>): Trackers {
    map core: Core | core in (set k | k in Entries(f) && CoreId(CoreOf(k)) :: CoreOf(k)) && core !in without
      :: Restored(f, core)
  }

  predicate IsOpen(w: World, poll: nat) {
    poll < |w.polls| && w.polls[poll].Some?
  }

  predicate HasSample(w: World, poll: nat, core: Core) {
    IsOpen(w, poll) && core in w.polls[poll].value.sampled
  }

  // The driver a core has now, or will have at its next install.
  function Current(w: World, core: Core): Driver {
    Driver(core, if core in w.builds then w.builds[core] else 0)
  }

  // The driver a poll reads a core through, and whether it is still the core's.
  function DriverOf(w: World, poll: nat, core: Core): Driver
    requires IsOpen(w, poll)
  {
    var builds := w.polls[poll].value.builds;
    Driver(core, if core in builds then builds[core] else 0)
  }

  predicate Attached(w: World, poll: nat, core: Core) {
    IsOpen(w, poll) && DriverOf(w, poll, core) == Current(w, core)
  }

  function TrackerIn(w: World, d: Driver): Baseline {
    if d == Current(w, d.core) then TrackerOf(w.trackers, d.core)
    else if d in w.detached then w.detached[d] else map[]
  }

  function SetTracker(w: World, d: Driver, b: Baseline): World {
    if d == Current(w, d.core) then w.(trackers := w.trackers[d.core := b]) else w.(detached := w.detached[d := b])
  }

  // What the poll's driver last took in.
  function SeenBy(w: World, poll: nat, core: Core): Baseline {
    if IsOpen(w, poll) then TrackerIn(w, DriverOf(w, poll, core)) else map[]
  }

  function SetPoll(w: World, poll: nat, p: Option<OpenPoll>): World
    requires poll < |w.polls|
  {
    w.(polls := w.polls[poll := p])
  }

  function AfterTraffic(w: World, core: Core, account: string, grow: Totals): World {
    var c := Counter(w, core, account);
    SetCounter(w, core, account, Totals(c.up + grow.up, c.down + grow.down))
  }

  function AfterBegin(w: World): World {
    w.(polls := w.polls + [Some(OpenPoll(Poll([], map[]), [], {}, map[], w.removed, w.builds))])
  }

  function AfterSample(w: World, poll: nat, core: Core, accounts: seq<string>): World {
    if !IsOpen(w, poll) || core in w.polls[poll].value.absent then w
    else
      var p := w.polls[poll].value;
      SetPoll(w, poll, Some(p.(asked := p.asked + {core}, sampled := p.sampled[core := Readings(w, core, accounts)])))
  }

  // A read that breaks off after it has moved the tracker bills nothing of it.
  function PollAfter(b: Baseline, p: OpenPoll, core: Core, complete: bool): OpenPoll
    requires core in p.sampled
  {
    var rest := p.(sampled := p.sampled - {core});
    if complete then
      rest.(work := p.work.(records := p.work.records + Nonzero(Found(b, core, p.sampled[core]))),
            spans := p.spans + Spans(b, core, p.sampled[core]))
    else rest
  }

  function AfterObserve(w: World, poll: nat, core: Core, complete: bool): World {
    if !HasSample(w, poll, core) then w
    else
      var p, b := w.polls[poll].value, SeenBy(w, poll, core);
      SetTracker(SetPoll(w, poll, Some(PollAfter(b, p, core, complete))), DriverOf(w, poll, core),
                 ObserveAll(b, p.sampled[core]))
  }

  // The totals a driver's snapshot lists; a snapshot that fails lists none.
  function Listing(b: Baseline, listed: set<string>): Baseline {
    map a | a in b && a in listed :: b[a]
  }

  function AfterSnapshot(w: World, poll: nat, core: Core, listed: set<string>): World {
    if !IsOpen(w, poll) then w
    else
      var p := w.polls[poll].value;
      var part := Encode(core, Listing(SeenBy(w, poll, core), listed));
      SetPoll(w, poll, Some(p.(work := p.work.(baselines := p.work.baselines + part))))
  }

  function FileAfter(f: File, baselines: map<string, Totals>, save: SaveOutcome): File {
    if baselines != map[] then AfterSave(f, baselines, save) else f
  }

  function AfterFinish(w: World, poll: nat, save: SaveOutcome, delivered: bool): World {
    if !IsOpen(w, poll) then w
    else
      var p := w.polls[poll].value;
      SetPoll(w, poll, None)
      .(file := FileAfter(w.file, p.work.baselines, save),
        delivered := if delivered then w.delivered + p.work.records else w.delivered,
        spans := if delivered then w.spans + p.spans else w.spans)
  }

  // An account is deleted, or its key changes.
  function AfterForget(w: World, d: Driver, account: string): World {
    SetTracker(w, d, TrackerIn(w, d) - {account})
  }

  // The driver is dropped with its tracker. A poll that holds it goes on with it.
  function AfterUninstall(w: World, core: Core): World {
    if core in w.removed then w
    else
      var d := Current(w, core);
      w.(removed := w.removed + {core}, builds := w.builds[core := d.build + 1],
         trackers := w.trackers[core := map[]], detached := w.detached[d := TrackerOf(w.trackers, core)])
  }

  // A new driver starts with an empty tracker; baselines are restored at the boot only.
  function AfterInstall(w: World, core: Core): World {
    w.(removed := w.removed - {core})
  }

  function AfterCrash(w: World, torn: bool): World {
    var file := if torn then Corrupt else w.file;
    w.(file := file, trackers := BootTrackers(file, w.forgetful + w.removed), polls := [], builds := map[], detached := map[])
  }

  function Next(w: World, e: Event): World {
    match e
    case Traffic(core, account, grow) => AfterTraffic(w, core, account, grow)
    case ProviderReset(core, account) => SetCounter(w, core, account, ZERO)
    case Begin => AfterBegin(w)
    case Sample(poll, core, accounts) => AfterSample(w, poll, core, accounts)
    case Observe(poll, core, complete) => AfterObserve(w, poll, core, complete)
    case Snapshot(poll, core, listed) => AfterSnapshot(w, poll, core, listed)
    case Finish(poll, save, delivered) => AfterFinish(w, poll, save, delivered)
    case Forget(driver, account) => AfterForget(w, driver, account)
    case Uninstall(core) => AfterUninstall(w, core)
    case Install(core) => AfterInstall(w, core)
    case Crash(torn) => AfterCrash(w, torn)
  }

  function Run(w: World, events: seq<Event>): World {
    if events == [] then w else Next(Run(w, events[..|events| - 1]), events[|events| - 1])
  }

  // One read of one core by one poll, with nothing in between.
  function ReadAtOnce(w: World, poll: nat, core: Core, accounts: seq<string>, complete: bool, snapshotOk: bool): World {
    var w' := AfterObserve(AfterSample(w, poll, core, accounts), poll, core, complete);
    if complete then AfterSnapshot(w', poll, core, if snapshotOk then SeenBy(w', poll, core).Keys else {}) else w'
  }

  predicate MayAsk(w: World, poll: nat, core: Core) {
    Attached(w, poll, core) && core !in w.polls[poll].value.absent
  }

  // Nothing but trackers, and one poll that keeps to its drivers, is touched.
  ghost predicate OnlyReads(w: World, w': World, poll: nat) {
    && IsOpen(w, poll) && IsOpen(w', poll)
    && w'.builds == w.builds && w'.polls[poll].value.builds == w.polls[poll].value.builds
    && w'.polls[poll].value.absent == w.polls[poll].value.absent
    && w'.counters == w.counters && w'.file == w.file && w'.delivered == w.delivered
  }

  lemma SampleWaits(w: World, poll: nat, core: Core, accounts: seq<string>)
    requires MayAsk(w, poll, core)
    ensures var w' := AfterSample(w, poll, core, accounts);
            && OnlyReads(w, w', poll) && MayAsk(w', poll, core) && w'.trackers == w.trackers
            && HasSample(w', poll, core) && w'.polls[poll].value.sampled[core] == Readings(w, core, accounts)
            && w'.polls[poll].value.work == w.polls[poll].value.work
  {
  }

  lemma ObserveTakes(w: World, poll: nat, core: Core, complete: bool)
    requires MayAsk(w, poll, core) && HasSample(w, poll, core)
    ensures var w', b, readings := AfterObserve(w, poll, core, complete), TrackerOf(w.trackers, core), w.polls[poll].value.sampled[core];
            && OnlyReads(w, w', poll)
            && w'.trackers == w.trackers[core := ObserveAll(b, readings)]
            && SeenBy(w', poll, core) == ObserveAll(b, readings)
            && var work := w.polls[poll].value.work;
               w'.polls[poll].value.work ==
               if complete then work.(records := work.records + Nonzero(Found(b, core, readings))) else work
  {
  }

  /** Undisturbed, the segments of a read do what the agent's read does. */
  lemma SegmentsAreOneRead(w: World, poll: nat, core: Core, accounts: seq<string>, complete: bool, snapshotOk: bool)
    requires MayAsk(w, poll, core)
    ensures var readings := Readings(w, core, accounts);
            var read := if complete then Complete(core, readings, snapshotOk) else Broken(core, readings);
            var w' := ReadAtOnce(w, poll, core, accounts, complete, snapshotOk);
            && OnlyReads(w, w', poll)
            && (w'.trackers, w'.polls[poll].value.work) == ReadStep(w.trackers, w.polls[poll].value.work, read)
  {
    SampleWaits(w, poll, core, accounts);
    ObserveTakes(AfterSample(w, poll, core, accounts), poll, core, complete);
    var b := ObserveAll(TrackerOf(w.trackers, core), Readings(w, core, accounts));
    assert Listing(b, b.Keys) == b;
    assert Encode(core, Listing(b, {})) == map[];
  }

  // What a whole poll asks of one core, and how the read goes.
  datatype Ask = Ask(core: Core, accounts: seq<string>, complete: bool, snapshotOk: bool)

  function ReadOf(w: World, a: Ask): CoreRead {
    var readings := Readings(w, a.core, a.accounts);
    if a.complete then Complete(a.core, readings, a.snapshotOk) else Broken(a.core, readings)
  }

  function ReadsOf(w: World, asks: seq<Ask>): seq<CoreRead> {
    if asks == [] then [] else [ReadOf(w, asks[0])] + ReadsOf(w, asks[1..])
  }

  function AskAll(w: World, poll: nat, asks: seq<Ask>): World
    decreases asks
  {
    if asks == [] then w
    else
      var a := asks[0];
      AskAll(ReadAtOnce(w, poll, a.core, a.accounts, a.complete, a.snapshotOk), poll, asks[1..])
  }

  lemma {:induction false} ReadsSeeCounters(w: World, w': World, asks: seq<Ask>)
    requires w'.counters == w.counters
    ensures ReadsOf(w', asks) == ReadsOf(w, asks)
  {
    if asks != [] {
      ReadingsSeeCounters(w, w', asks[0].core, asks[0].accounts);
      ReadsSeeCounters(w, w', asks[1..]);
    }
  }

  lemma {:induction false} ReadingsSeeCounters(w: World, w': World, core: Core, accounts: seq<string>)
    requires w'.counters == w.counters
    ensures Readings(w', core, accounts) == Readings(w, core, accounts)
  {
    if accounts != [] {
      ReadingsSeeCounters(w, w', core, accounts[1..]);
    }
  }

  ghost predicate MayAskAll(w: World, poll: nat, asks: seq<Ask>) {
    forall a :: a in asks ==> MayAsk(w, poll, a.core)
  }

  lemma {:induction false} AskAllIsReadAll(w: World, poll: nat, asks: seq<Ask>)
    requires IsOpen(w, poll) && MayAskAll(w, poll, asks)
    ensures var w' := AskAll(w, poll, asks);
            && OnlyReads(w, w', poll)
            && (w'.trackers, w'.polls[poll].value.work) == ReadAll(w.trackers, w.polls[poll].value.work, ReadsOf(w, asks))
    decreases asks
  {
    if asks != [] {
      var a := asks[0];
      var w1 := ReadAtOnce(w, poll, a.core, a.accounts, a.complete, a.snapshotOk);
      SegmentsAreOneRead(w, poll, a.core, a.accounts, a.complete, a.snapshotOk);
      ReadsSeeCounters(w, w1, asks[1..]);
      forall x | x in asks[1..] ensures MayAsk(w1, poll, x.core) {
        assert MayAsk(w, poll, x.core);
      }
      AskAllIsReadAll(w1, poll, asks[1..]);
      assert ReadsOf(w, asks)[1..] == ReadsOf(w1, asks[1..]);
    }
  }

  /** A poll that nothing overlaps does what the agent's poll does: the same trackers, the same
      file, the same records in the reply. */
  lemma PollIsRuntimeUsage(w: World, asks: seq<Ask>, save: SaveOutcome)
    requires forall a :: a in asks ==> a.core !in w.removed
    ensures var w' := AfterFinish(AskAll(AfterBegin(w), |w.polls|, asks), |w.polls|, save, true);
            var (t, poll) := ReadAll(w.trackers, Poll([], map[]), ReadsOf(w, asks));
            && w'.trackers == t && w'.delivered == w.delivered + poll.records
            && w'.file == if poll.baselines != map[] then AfterSave(w.file, poll.baselines, save) else w.file
  {
    var w0 := AfterBegin(w);
    ReadsSeeCounters(w, w0, asks);
    forall a | a in asks ensures MayAsk(w0, |w.polls|, a.core) {}
    AskAllIsReadAll(w0, |w.polls|, asks);
  }

  // ---------------------------------------------------------------------------
  // The boot is the agent's restore
  // ---------------------------------------------------------------------------

  ghost predicate Coloned(entries: map<string, Totals>) {
    forall k :: k in entries ==> ':' in k
  }

  ghost predicate PollColoned(o: Option<OpenPoll>) {
    o.Some? ==> Coloned(o.value.work.baselines)
  }

  // Every key in the file, and every key a poll will write, has a colon.
  ghost predicate AllColoned(w: World) {
    Coloned(Entries(w.file)) && forall i :: 0 <= i < |w.polls| ==> PollColoned(w.polls[i])
  }

  lemma EncodedIsColoned(core: Core, b: Baseline)
    ensures Coloned(Encode(core, b))
  {
    forall k | k in Encode(core, b) ensures ':' in k {
      var a :| a in b && k == PersistKey(core, a);
      assert k[|core|] == ':';
    }
  }

  lemma PollKeepsColoned(w: World, w': World, poll: nat, o: Option<OpenPoll>)
    requires AllColoned(w) && poll < |w.polls| && w'.polls == w.polls[poll := o] && PollColoned(o)
    requires Coloned(Entries(w'.file))
    ensures AllColoned(w')
  {
  }

  lemma SampleKeepsColoned(w: World, poll: nat, core: Core, accounts: seq<string>)
    requires AllColoned(w)
    ensures AllColoned(AfterSample(w, poll, core, accounts))
  {
    if IsOpen(w, poll) {
      assert PollColoned(w.polls[poll]);
    }
  }

  lemma ObserveKeepsColoned(w: World, poll: nat, core: Core, complete: bool)
    requires AllColoned(w)
    ensures AllColoned(AfterObserve(w, poll, core, complete))
  {
    if HasSample(w, poll, core) {
      assert PollColoned(w.polls[poll]);
      PollKeepsColoned(w, AfterObserve(w, poll, core, complete), poll,
                       Some(PollAfter(SeenBy(w, poll, core), w.polls[poll].value, core, complete)));
    }
  }

  lemma SnapshotKeepsColoned(w: World, poll: nat, core: Core, listed: set<string>)
    requires AllColoned(w)
    ensures AllColoned(AfterSnapshot(w, poll, core, listed))
  {
    if IsOpen(w, poll) {
      assert PollColoned(w.polls[poll]);
      EncodedIsColoned(core, Listing(SeenBy(w, poll, core), listed));
      var w' := AfterSnapshot(w, poll, core, listed);
      PollKeepsColoned(w, w', poll, w'.polls[poll]);
    }
  }

  lemma FinishKeepsColoned(w: World, poll: nat, save: SaveOutcome, delivered: bool)
    requires AllColoned(w)
    ensures AllColoned(AfterFinish(w, poll, save, delivered))
  {
    if IsOpen(w, poll) {
      assert PollColoned(w.polls[poll]);
      PollKeepsColoned(w, AfterFinish(w, poll, save, delivered), poll, None);
    }
  }

  lemma OtherStepKeepsColoned(w: World, e: Event)
    requires !e.Sample? && !e.Snapshot? && !e.Observe? && !e.Finish? && AllColoned(w)
    ensures AllColoned(Next(w, e))
  {
    var w' := Next(w, e);
    forall i | 0 <= i < |w'.polls| ensures PollColoned(w'.polls[i]) {
      assert i < |w.polls| ==> PollColoned(w.polls[i]);
    }
  }

  lemma StepKeepsColoned(w: World, e: Event)
    requires AllColoned(w)
    ensures AllColoned(Next(w, e))
  {
    match e
    case Sample(poll, core, accounts) => SampleKeepsColoned(w, poll, core, accounts);
    case Observe(poll, core, complete) => ObserveKeepsColoned(w, poll, core, complete);
    case Snapshot(poll, core, listed) => SnapshotKeepsColoned(w, poll, core, listed);
    case Finish(poll, save, delivered) => FinishKeepsColoned(w, poll, save, delivered);
    case _ => OtherStepKeepsColoned(w, e);
  }

  lemma {:induction false} RunKeepsColoned(w0: World, events: seq<Event>)
    requires AllColoned(w0)
    ensures AllColoned(Run(w0, events))
  {
    if events != [] {
      var front := events[..|events| - 1];
      RunKeepsColoned(w0, front);
      StepKeepsColoned(Run(w0, front), events[|events| - 1]);
    }
  }

  lemma BootTrackerIs(f: File, without: set<Core>, core: Core)
    requires core !in without
    ensures TrackerOf(BootTrackers(f, without), core) == Restored(f, core)
  {
    forall a | a in Restored(f, core) ensures core in BootTrackers(f, without) {
      RestoredLooksUp(f, core, a);
      KeyDecodes(core, a);
    }
    if core !in BootTrackers(f, without) {
      assert Restored(f, core) == map[];
    }
  }

  /** In every run the restart of the protocol is the restore of the agent: what the agent hands a
      new tracker of an installed core is what the crash leaves it with. */
  lemma BootIsRestore(w0: World, events: seq<Event>, torn: bool, core: Core, after: Baseline)
    requires AllColoned(w0)
    requires var w := Run(w0, events);
             && core !in w.removed && core !in w.forgetful
             && Hands(after, map[], AfterCrash(w, torn).file, core)
    ensures after == TrackerOf(AfterCrash(Run(w0, events), torn).trackers, core)
  {
    var w := Run(w0, events);
    var f := AfterCrash(w, torn).file;
    RunKeepsColoned(w0, events);
    HandedIsRestored(after, map[], f, core);
    BootTrackerIs(f, w.forgetful + w.removed, core);
  }
}
