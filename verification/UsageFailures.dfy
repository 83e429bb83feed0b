/** What each condition of exact billing is for: the boot, and a run for every way to bill twice. */
module UsageFailures {
  import opened Common
  import opened UsageAccounting
  import opened UsageProtocol
  import opened UsageBalance
  import opened UsageBytes
  import opened UsageConservation
  import Wireguard = WireguardUsage

  // A process that has just started: the given cores are not installed.
  function JustBooted(f: File, counters: map<Core, Baseline>, forgetful: set<Core>, removed: set<Core>): World {
    World(forgetful, removed, map[], BootTrackers(f, forgetful + removed), map[], f, [], counters, [], [])
  }

  lemma BootRestores(f: File, counters: map<Core, Baseline>, forgetful: set<Core>, removed: set<Core>, m: Meter)
    requires m.core !in removed
    ensures BootedFor(JustBooted(f, counters, forgetful, removed), m)
  {
    BootTracks(JustBooted(f, counters, forgetful, removed), false, m);
  }

  /** Where the driver translates account ids, the restart is that driver's restore with no accounts
      known: whatever the file lists, the new tracker stays empty. */
  lemma BootIsWireguardRestore(w: World, torn: bool, core: Core, after: Baseline)
    requires core in w.forgetful
    requires Wireguard.Resumes(map[], Restored(AfterCrash(w, torn).file, core), map[], after)
    ensures after == TrackerOf(AfterCrash(w, torn).trackers, core)
  {
    Wireguard.BootDropsEveryBaseline(Restored(AfterCrash(w, torn).file, core), after, "", ZERO);
  }

  /** A core that is uninstalled is neither restored by a restart nor read by a poll that begins then;
      an install changes that and nothing else. */
  lemma UninstalledIsLeftOut(w: World, torn: bool, core: Core, accounts: seq<string>, m: Meter)
    requires m.core == core && core !in w.removed
    ensures var gone := AfterUninstall(w, core);
            && TrackedAt(AfterCrash(gone, torn), m) == 0
            && AfterSample(AfterBegin(gone), |w.polls|, core, accounts) == AfterBegin(gone)
            && AfterInstall(gone, core) == gone.(removed := w.removed)
  {
    BootTracks(AfterUninstall(w, core), torn, m);
    assert w.removed + {core} - {core} == w.removed;
  }

  /** A crash makes the gap between the tracker and the point the restart resumes from unread once
      more: all of it when the file was torn, or the driver could not yet name its accounts. */
  lemma CrashRebillsTheGap(w: World, m: Meter, torn: bool)
    requires ResumesAt(w, torn, m) <= TrackedAt(w, m) <= CounterAt(w, m)
    ensures Unread(AfterCrash(w, torn), m) == Unread(w, m) + TrackedAt(w, m) - ResumesAt(w, torn, m)
  {
    BootTracks(w, torn, m);
  }

  // Everything a poll leaves as it was.
  ghost predicate Undisturbed(w: World, w': World) {
    && w'.counters == w.counters && w'.forgetful == w.forgetful && w'.removed == w.removed
    && w'.builds == w.builds && w'.detached == w.detached
  }

  // A read of one account, taken now by a poll that is open.
  lemma SampleShows(w: World, poll: nat, core: Core, account: string)
    requires MayAsk(w, poll, core)
    ensures var w' := AfterSample(w, poll, core, [account]);
            && HasSample(w', poll, core) && MayAsk(w', poll, core)
            && w'.polls[poll].value.sampled[core] == [Reading(account, Counter(w, core, account))]
  {
    assert Readings(w, core, [account]) == [Reading(account, Counter(w, core, account))];
  }

  // What one reading bills, through whichever driver the poll holds.
  lemma OneReadingBills(w: World, poll: nat, core: Core, account: string, t: Totals, d: Direction)
    requires HasSample(w, poll, core) && w.polls[poll].value.sampled[core] == [Reading(account, t)]
    ensures var w', m := AfterObserve(w, poll, core, true), Meter(core, account, d);
            && IsOpen(w', poll) && w'.polls == w.polls[poll := w'.polls[poll]] && w'.delivered == w.delivered
            && ObserveAll(SeenBy(w, poll, core), [Reading(account, t)]) == SeenBy(w, poll, core)[account := t]
            && Billed(w'.polls[poll].value.work.records, m)
               == Billed(w.polls[poll].value.work.records, m) + Delta(t.Get(d), Of(SeenBy(w, poll, core), account).Get(d))
  {
    var b, m, r := SeenBy(w, poll, core), Meter(core, account, d), Reading(account, t);
    assert [r][1..] == [];
    var found := Found(b, core, [r]);
    assert Found(b[account := t], core, []) == [];
    assert found == [Record(core, account, DeltaOf(b, r))];
    ZeroRecordsDoNotCount(found, core, account, d);
    SumConcat(w.polls[poll].value.work.records, Nonzero(found), core, account, d);
    assert Sum(found[1..], core, account, d) == 0;
    assert ObserveAll(b[account := t], []) == b[account := t];
  }

  lemma OneReadingTaken(w: World, poll: nat, core: Core, account: string, t: Totals, d: Direction)
    requires HasSample(w, poll, core) && w.polls[poll].value.sampled[core] == [Reading(account, t)]
    requires MayAsk(w, poll, core)
    ensures var w', m := AfterObserve(w, poll, core, true), Meter(core, account, d);
            && OnlyReads(w, w', poll) && MayAsk(w', poll, core) && Undisturbed(w, w') && TrackedAt(w', m) == t.Get(d)
            && account in SeenBy(w', poll, core)
            && Billed(w'.polls[poll].value.work.records, m)
               == Billed(w.polls[poll].value.work.records, m) + Delta(t.Get(d), TrackedAt(w, m))
  {
    OneReadingBills(w, poll, core, account, t, d);
    ObserveTakes(w, poll, core, true);
  }

  // The poll has read the account once, and carries what it read.
  ghost predicate CarriesRead(w: World, poll: nat, core: Core, account: string, up: nat, billed: nat) {
    var key := PersistKey(core, account);
    && IsOpen(w, poll) && key in w.polls[poll].value.work.baselines
    && w.polls[poll].value.work.baselines[key].up == up
    && Billed(w.polls[poll].value.work.records, Meter(core, account, Up)) == billed
  }

  // A poll that begins and reads one account.
  function BeginAndRead(w: World, core: Core, account: string): World {
    ReadAtOnce(AfterBegin(w), |w.polls|, core, [account], true, true)
  }

  ghost predicate ReadInto(w: World, w': World, core: Core, account: string) {
    var m := Meter(core, account, Up);
    && CarriesRead(w', |w.polls|, core, account, CounterAt(w, m), Unread(w, m))
    && TrackedAt(w', m) == CounterAt(w, m)
    && |w'.polls| == |w.polls| + 1 && w'.polls[..|w.polls|] == w.polls
    && Undisturbed(w, w') && w'.delivered == w.delivered && w'.file == w.file
  }

  // The new poll has observed the account and taken no snapshot yet.
  ghost predicate ObservedInto(w: World, w': World, core: Core, account: string) {
    var m, poll := Meter(core, account, Up), |w.polls|;
    && MayAsk(w', poll, core) && account in SeenBy(w', poll, core) && TrackedAt(w', m) == CounterAt(w, m)
    && Billed(w'.polls[poll].value.work.records, m) == Unread(w, m)
    && |w'.polls| == |w.polls| + 1 && w'.polls[..|w.polls|] == w.polls
    && Undisturbed(w, w') && w'.delivered == w.delivered && w'.file == w.file
  }

  lemma BeginAndObserve(w: World, core: Core, account: string)
    requires core !in w.removed
    ensures ObservedInto(w, AfterObserve(AfterSample(AfterBegin(w), |w.polls|, core, [account]), |w.polls|, core, true),
                         core, account)
  {
    var poll, w0 := |w.polls|, AfterBegin(w);
    SampleShows(w0, poll, core, account);
    OneReadingTaken(AfterSample(w0, poll, core, [account]), poll, core, account, Counter(w, core, account), Up);
  }

  lemma SnapshotOfRead(w: World, w1: World, core: Core, account: string)
    requires ObservedInto(w, w1, core, account)
    ensures var poll := |w.polls|;
            ReadInto(w, AfterSnapshot(w1, poll, core, SeenBy(w1, poll, core).Keys), core, account)
  {
    SnapshotCarries(w1, |w.polls|, core, SeenBy(w1, |w.polls|, core).Keys, Meter(core, account, Up));
  }

  lemma BeginAndReadCarries(w: World, core: Core, account: string)
    requires core !in w.removed
    ensures ReadInto(w, BeginAndRead(w, core, account), core, account)
  {
    BeginAndObserve(w, core, account);
    SnapshotOfRead(w, AfterObserve(AfterSample(AfterBegin(w), |w.polls|, core, [account]), |w.polls|, core, true),
                   core, account);
  }

  // A poll that begins, reads one account and finishes.
  function Polled(w: World, core: Core, account: string, save: SaveOutcome, delivered: bool): World {
    AfterFinish(BeginAndRead(w, core, account), |w.polls|, save, delivered)
  }

  function PollOnce(w: World, core: Core, account: string, save: SaveOutcome): World {
    Polled(w, core, account, save, true)
  }

  // What such a poll leaves.
  ghost predicate PolledInto(w: World, w': World, core: Core, account: string, save: SaveOutcome, delivered: bool) {
    var m := Meter(core, account, Up);
    && Undisturbed(w, w') && TrackedAt(w', m) == CounterAt(w, m)
    && Billed(w'.delivered, m) == Billed(w.delivered, m) + (if delivered then Unread(w, m) else 0)
    && SavedAt(w', m) == (if save.Written? then CounterAt(w, m) else if save.CutShort? then 0 else SavedAt(w, m))
    && |w'.polls| == |w.polls| + 1 && w'.polls[..|w.polls|] == w.polls
  }

  // What a poll leaves behind when it finishes.
  ghost predicate FinishLeaves(w: World, w': World, poll: nat, core: Core, account: string, up: nat, billed: nat,
                               save: SaveOutcome, delivered: bool)
    requires poll < |w.polls|
  {
    var m := Meter(core, account, Up);
    && SavedAt(w', m) == (if save.Written? then up else if save.CutShort? then 0 else SavedAt(w, m))
    && Billed(w'.delivered, m) == Billed(w.delivered, m) + (if delivered then billed else 0)
    && w'.trackers == w.trackers && Undisturbed(w, w') && w'.polls == w.polls[poll := None]
  }

  lemma FinishIs(w: World, poll: nat, core: Core, account: string, up: nat, billed: nat, save: SaveOutcome, delivered: bool)
    requires CarriesRead(w, poll, core, account, up, billed)
    ensures FinishLeaves(w, AfterFinish(w, poll, save, delivered), poll, core, account, up, billed, save, delivered)
  {
    var work := w.polls[poll].value.work;
    SumConcat(w.delivered, work.records, core, account, Up);
    FileMoves(w.file, work.baselines, save, core, account);
  }

  lemma PollAddsUp(w: World, w1: World, w': World, core: Core, account: string, save: SaveOutcome, delivered: bool)
    requires ReadInto(w, w1, core, account)
    requires var m := Meter(core, account, Up);
             FinishLeaves(w1, w', |w.polls|, core, account, CounterAt(w, m), Unread(w, m), save, delivered)
    ensures PolledInto(w, w', core, account, save, delivered)
  {
  }

  lemma PolledIs(w: World, core: Core, account: string, save: SaveOutcome, delivered: bool)
    requires core !in w.removed
    ensures PolledInto(w, Polled(w, core, account, save, delivered), core, account, save, delivered)
  {
    var m := Meter(core, account, Up);
    BeginAndReadCarries(w, core, account);
    FinishIs(BeginAndRead(w, core, account), |w.polls|, core, account, CounterAt(w, m), Unread(w, m), save, delivered);
    PollAddsUp(w, BeginAndRead(w, core, account), Polled(w, core, account, save, delivered), core, account, save, delivered);
  }

  lemma UnbilledAndRead(w: World, w': World, core: Core, account: string)
    requires PolledInto(w, w', core, account, Written, false) && core !in w.removed && core !in w.forgetful
    ensures var m := Meter(core, account, Up);
            && Billed(w'.delivered, m) == Billed(w.delivered, m)
            && Unread(w', m) == 0 && Unread(AfterCrash(w', false), m) == 0
  {
    CrashUnreadsToFile(w', Meter(core, account, Up));
  }

  /** The cursor moves before the reply arrives: when the reply does not arrive, the bytes in it are
      neither billed nor left to read, in this process or after a crash. */
  lemma LostReplyLosesBytes(w: World, core: Core, account: string)
    requires core !in w.removed && core !in w.forgetful
    ensures var open, lost, m := BeginAndRead(w, core, account), Polled(w, core, account, Written, false), Meter(core, account, Up);
            && CarriesRead(open, |w.polls|, core, account, CounterAt(w, m), Unread(w, m))
            && Billed(lost.delivered, m) == Billed(w.delivered, m)
            && Unread(lost, m) == 0 && Unread(AfterCrash(lost, false), m) == 0
  {
    BeginAndReadCarries(w, core, account);
    PolledIs(w, core, account, Written, false);
    UnbilledAndRead(w, Polled(w, core, account, Written, false), core, account);
  }

  /** A snapshot that was not written, and a crash after it: the next poll bills everything
      since the last snapshot once more, bytes already delivered included. */
  lemma FailedSaveBillsTwice(w: World, core: Core, account: string)
    requires core !in w.forgetful && core !in w.removed
    ensures var crashed := AfterCrash(PollOnce(w, core, account, NotOpened), false);
            var m := Meter(core, account, Up);
            Billed(PollOnce(crashed, core, account, Written).delivered, m)
            == Billed(w.delivered, m) + Unread(w, m) + Unsaved(w, m)
  {
    var polled := PollOnce(w, core, account, NotOpened);
    PolledIs(w, core, account, NotOpened, true);
    BootTracks(polled, false, Meter(core, account, Up));
    PolledIs(AfterCrash(polled, false), core, account, Written, true);
  }

  // The poll waits with one reading of the account, and has billed nothing.
  ghost predicate WaitsWith(w: World, poll: nat, core: Core, account: string, t: Totals) {
    && MayAsk(w, poll, core) && HasSample(w, poll, core)
    && w.polls[poll].value.sampled[core] == [Reading(account, t)]
    && w.polls[poll].value.work.records == []
  }

  // A poll that begins and reads the counter in its thread.
  function BeginAndSample(w: World, core: Core, account: string): World {
    AfterSample(AfterBegin(w), |w.polls|, core, [account])
  }

  lemma BeginAndSampleWaits(w: World, core: Core, account: string)
    requires core !in w.removed
    ensures var w' := BeginAndSample(w, core, account);
            && WaitsWith(w', |w.polls|, core, account, Counter(w, core, account))
            && |w'.polls| == |w.polls| + 1 && w'.polls[..|w.polls|] == w.polls
            && w' == w.(polls := w'.polls)
  {
    SampleShows(AfterBegin(w), |w.polls|, core, account);
  }

  // A poll that observes what it has read and finishes.
  function ObserveAndFinish(w: World, poll: nat, core: Core): World {
    AfterFinish(AfterObserve(w, poll, core, true), poll, Written, true)
  }

  ghost predicate FinishedInto(w: World, w': World, poll: nat, core: Core, account: string, t: Totals) {
    var m := Meter(core, account, Up);
    && TrackedAt(w', m) == t.up && Undisturbed(w, w')
    && Billed(w'.delivered, m) == Billed(w.delivered, m) + Delta(t.up, TrackedAt(w, m))
    && |w'.polls| == |w.polls| && (forall i :: 0 <= i < |w.polls| && i != poll ==> w'.polls[i] == w.polls[i])
  }

  lemma ObserveAndFinishBills(w: World, poll: nat, core: Core, account: string, t: Totals)
    requires WaitsWith(w, poll, core, account, t)
    ensures FinishedInto(w, ObserveAndFinish(w, poll, core), poll, core, account, t)
  {
    OneReadingTaken(w, poll, core, account, t, Up);
    var w1 := AfterObserve(w, poll, core, true);
    SumConcat(w.delivered, w1.polls[poll].value.work.records, core, account, Up);
  }

  // Two polls read the counter, the second after some traffic; then the second observes and
  // finishes, and the first observes and finishes.
  function Overlap(w: World, core: Core, account: string, grow: nat): World {
    var w1 := AfterTraffic(BeginAndSample(w, core, account), core, account, Totals(grow, 0));
    ObserveAndFinish(ObserveAndFinish(BeginAndSample(w1, core, account), |w.polls| + 1, core), |w.polls|, core)
  }

  /** Two overlapping polls that observe out of order bill the whole counter once more, with no
      crash, no failed save and no lost reply; and the next poll bills the newest bytes again. */
  lemma OverlapBillsTwice(w: World, core: Core, account: string, grow: nat)
    requires var m := Meter(core, account, Up); TrackedAt(w, m) <= CounterAt(w, m) && grow > 0 && core !in w.removed
    ensures var w', m := Overlap(w, core, account, grow), Meter(core, account, Up);
            && Billed(w'.delivered, m)
               == Billed(w.delivered, m) + (CounterAt(w, m) + grow - TrackedAt(w, m)) + CounterAt(w, m)
            && Unread(w', m) == grow
  {
    var m, first := Meter(core, account, Up), |w.polls|;
    var w0 := BeginAndSample(w, core, account);
    BeginAndSampleWaits(w, core, account);
    var w1 := AfterTraffic(w0, core, account, Totals(grow, 0));
    TrafficMovesCounter(w0, core, account, Totals(grow, 0), m);
    var w2 := BeginAndSample(w1, core, account);
    BeginAndSampleWaits(w1, core, account);
    assert w2.polls[first] == w2.polls[..|w1.polls|][first] == w0.polls[first];
    ObserveAndFinishBills(w2, first + 1, core, account, Counter(w1, core, account));
    ObserveAndFinishBills(ObserveAndFinish(w2, first + 1, core), first, core, account, Counter(w, core, account));
  }

  lemma CrashUnreadsToFile(w: World, m: Meter)
    requires m.core !in w.forgetful && m.core !in w.removed
    ensures Unread(AfterCrash(w, false), m) == Unsaved(w, m)
  {
    BootTracks(w, false, m);
  }

  // Two polls read one after the other, with traffic between.
  function BothRead(w: World, core: Core, account: string, grow: nat): World {
    BeginAndRead(AfterTraffic(BeginAndRead(w, core, account), core, account, Totals(grow, 0)), core, account)
  }

  // And the first finishes last.
  function LateSave(w: World, core: Core, account: string, grow: nat): World {
    AfterFinish(AfterFinish(BothRead(w, core, account, grow), |w.polls| + 1, Written, true), |w.polls|, Written, true)
  }

  ghost predicate BothReadInto(w: World, w': World, core: Core, account: string, grow: nat) {
    var m := Meter(core, account, Up);
    var c := CounterAt(w, m);
    && CarriesRead(w', |w.polls|, core, account, c, Unread(w, m))
    && CarriesRead(w', |w.polls| + 1, core, account, c + grow, grow)
    && TrackedAt(w', m) == c + grow && CounterAt(w', m) == c + grow
    && w'.delivered == w.delivered && w'.forgetful == w.forgetful && w'.removed == w.removed
  }

  lemma ReadsAddUp(w: World, w0: World, w1: World, w2: World, core: Core, account: string, grow: nat)
    requires ReadInto(w, w0, core, account) && ReadInto(w1, w2, core, account)
    requires w1 == w0.(counters := w1.counters)
    requires var m := Meter(core, account, Up); CounterAt(w1, m) == CounterAt(w, m) + grow
    ensures BothReadInto(w, w2, core, account, grow)
  {
    assert w2.polls[|w.polls|] == w2.polls[..|w1.polls|][|w.polls|] == w0.polls[|w.polls|];
  }

  lemma BothCarry(w: World, core: Core, account: string, grow: nat)
    requires core !in w.removed
    ensures BothReadInto(w, BothRead(w, core, account, grow), core, account, grow)
  {
    var w0 := BeginAndRead(w, core, account);
    BeginAndReadCarries(w, core, account);
    var w1 := AfterTraffic(w0, core, account, Totals(grow, 0));
    TrafficMovesCounter(w0, core, account, Totals(grow, 0), Meter(core, account, Up));
    BeginAndReadCarries(w1, core, account);
    ReadsAddUp(w, w0, w1, BeginAndRead(w1, core, account), core, account, grow);
  }

  // Everything is delivered and read, and yet the newest bytes are unread after a crash.
  ghost predicate SavedBehind(w: World, w': World, m: Meter, grow: nat) {
    && Billed(w'.delivered, m) == Billed(w.delivered, m) + CounterAt(w, m) + grow - TrackedAt(w, m)
    && Unread(w', m) == 0 && SavedAt(w', m) == CounterAt(w, m)
    && Unread(AfterCrash(w', false), m) == grow
  }

  lemma SavesAddUp(w: World, w2: World, w3: World, w4: World, m: Meter, second: nat, c: nat, grow: nat)
    requires second >= 1 && m.d == Up && m.core !in w2.forgetful && m.core !in w2.removed
    requires TrackedAt(w, m) <= c == CounterAt(w, m)
    requires TrackedAt(w2, m) == c + grow && CounterAt(w2, m) == c + grow && w2.delivered == w.delivered
    requires second < |w2.polls| == |w3.polls|
    requires FinishLeaves(w2, w3, second, m.core, m.account, c + grow, grow, Written, true)
    requires FinishLeaves(w3, w4, second - 1, m.core, m.account, c, Unread(w, m), Written, true)
    ensures SavedBehind(w, w4, m, grow)
  {
    CrashUnreadsToFile(w4, m);
  }

  lemma BothFinish(w2: World, first: nat, core: Core, account: string, c: nat, grow: nat, billed: nat)
    requires CarriesRead(w2, first, core, account, c, billed)
    requires CarriesRead(w2, first + 1, core, account, c + grow, grow)
    ensures var w3 := AfterFinish(w2, first + 1, Written, true);
            && |w3.polls| == |w2.polls|
            && FinishLeaves(w2, w3, first + 1, core, account, c + grow, grow, Written, true)
            && FinishLeaves(w3, AfterFinish(w3, first, Written, true), first, core, account, c, billed, Written, true)
  {
    FinishIs(w2, first + 1, core, account, c + grow, grow, Written, true);
    FinishIs(AfterFinish(w2, first + 1, Written, true), first, core, account, c, billed, Written, true);
  }

  lemma BothFinishBehind(w: World, w2: World, m: Meter, grow: nat)
    requires m.d == Up && m.core !in w2.forgetful && m.core !in w2.removed && TrackedAt(w, m) <= CounterAt(w, m)
    requires BothReadInto(w, w2, m.core, m.account, grow)
    ensures var w3 := AfterFinish(w2, |w.polls| + 1, Written, true);
            SavedBehind(w, AfterFinish(w3, |w.polls|, Written, true), m, grow)
  {
    var c, first := CounterAt(w, m), |w.polls|;
    BothFinish(w2, first, m.core, m.account, c, grow, Unread(w, m));
    var w3 := AfterFinish(w2, first + 1, Written, true);
    SavesAddUp(w, w2, w3, AfterFinish(w3, first, Written, true), m, first + 1, c, grow);
  }

  /** Of two overlapping saves the later one decides: when the older poll saves last, the file goes
      back behind what was delivered, and after a crash those bytes are read again. */
  lemma LateSaveBillsTwice(w: World, core: Core, account: string, grow: nat)
    requires var m := Meter(core, account, Up); TrackedAt(w, m) <= CounterAt(w, m)
    requires core !in w.forgetful && core !in w.removed
    ensures SavedBehind(w, LateSave(w, core, account, grow), Meter(core, account, Up), grow)
  {
    BothCarry(w, core, account, grow);
    BothFinishBehind(w, BothRead(w, core, account, grow), Meter(core, account, Up), grow);
  }

  // ---------------------------------------------------------------------------
  // Trackers emptied while their counters go on
  // ---------------------------------------------------------------------------

  /** A core uninstalled without purge and installed again: its provider's counters survive, its
      tracker does not, and the next poll bills every account's whole counter once more. */
  lemma ReinstallBillsTwice(w: World, core: Core, account: string)
    requires core !in w.removed
    ensures var again := AfterInstall(AfterUninstall(PollOnce(w, core, account, Written), core), core);
            var m := Meter(core, account, Up);
            Billed(PollOnce(again, core, account, Written).delivered, m)
            == Billed(w.delivered, m) + Unread(w, m) + CounterAt(w, m)
  {
    var polled := PollOnce(w, core, account, Written);
    PolledIs(w, core, account, Written, true);
    UninstallTracks(polled, core, Meter(core, account, Up));
    PolledIs(AfterInstall(AfterUninstall(polled, core), core), core, account, Written, true);
  }

  // Forgetting the account empties the core's tracker and leaves a waiting poll as it is.
  lemma ForgetLeavesWaiting(w: World, poll: nat, core: Core, account: string, t: Totals)
    requires WaitsWith(w, poll, core, account, t)
    ensures var w', m := AfterForget(w, Current(w, core), account), Meter(core, account, Up);
            && WaitsWith(w', poll, core, account, t) && TrackedAt(w', m) == 0 && w'.delivered == w.delivered
  {
    ForgetTracks(w, Current(w, core), account, Meter(core, account, Up));
  }

  // A poll waits with its reading while the account is forgotten.
  function ForgetDuringPoll(w: World, core: Core, account: string): World {
    ObserveAndFinish(AfterForget(BeginAndSample(w, core, account), Current(w, core), account), |w.polls|, core)
  }

  lemma ForgetDuringPollBillsAll(w: World, core: Core, account: string)
    requires core !in w.removed
    ensures var m := Meter(core, account, Up);
            Billed(ForgetDuringPoll(w, core, account).delivered, m) == Billed(w.delivered, m) + CounterAt(w, m)
  {
    BeginAndSampleWaits(w, core, account);
    var w1 := BeginAndSample(w, core, account);
    ForgetLeavesWaiting(w1, |w.polls|, core, account, Counter(w, core, account));
    ObserveAndFinishBills(AfterForget(w1, Current(w, core), account), |w.polls|, core, account, Counter(w, core, account));
  }

  /** An account forgotten while a poll waits with its reading: the poll bills the whole counter,
      although the poll before it had billed it all. */
  lemma ForgetDuringPollBillsTwice(w: World, core: Core, account: string)
    requires core !in w.removed
    ensures var m := Meter(core, account, Up);
            Billed(ForgetDuringPoll(PollOnce(w, core, account, Written), core, account).delivered, m)
            == Billed(w.delivered, m) + Unread(w, m) + CounterAt(w, m)
  {
    PolledIs(w, core, account, Written, true);
    ForgetDuringPollBillsAll(PollOnce(w, core, account, Written), core, account);
  }

  // The core's driver is replaced, and a poll reads through the new one.
  function ReplacedAndPolled(w: World, core: Core, account: string): World {
    PollOnce(AfterInstall(AfterUninstall(w, core), core), core, account, Written)
  }

  // A poll that holds the old driver still waits, and has seen what the old driver had taken in.
  lemma OldDriverStays(w: World, poll: nat, core: Core, account: string, t: Totals)
    requires WaitsWith(w, poll, core, account, t) && core !in w.removed
    ensures var w', m := ReplacedAndPolled(w, core, account), Meter(core, account, Up);
            && HasSample(w', poll, core) && w'.polls[poll] == w.polls[poll]
            && SeenBy(w', poll, core) == TrackerOf(w.trackers, core)
            && Billed(w'.delivered, m) == Billed(w.delivered, m) + CounterAt(w, m)
  {
    var w1 := AfterInstall(AfterUninstall(w, core), core);
    UninstallTracks(w, core, Meter(core, account, Up));
    PolledIs(w1, core, account, Written, true);
    var w' := ReplacedAndPolled(w, core, account);
    assert w'.polls[poll] == w'.polls[..|w1.polls|][poll] == w.polls[poll];
    assert DriverOf(w', poll, core) == Current(w, core) && w'.builds == w1.builds && w'.detached == w1.detached;
  }

  // A poll waits with its reading while its driver is replaced; the next poll reads through the
  // new driver, and then the first one finishes through the old.
  function ReplacedDuringPoll(w: World, core: Core, account: string): World {
    ObserveAndFinish(ReplacedAndPolled(BeginAndSample(w, core, account), core, account), |w.polls|, core)
  }

  /** A driver replaced while a poll holds it: what the poll still takes through the old driver is
      billed on top of the whole counter that the new one bills. */
  lemma ReplacedDriverBillsTwice(w: World, core: Core, account: string)
    requires core !in w.removed
    ensures var m := Meter(core, account, Up);
            Billed(ReplacedDuringPoll(w, core, account).delivered, m)
            == Billed(w.delivered, m) + CounterAt(w, m) + Unread(w, m)
  {
    var first, w1 := |w.polls|, BeginAndSample(w, core, account);
    BeginAndSampleWaits(w, core, account);
    OldDriverStays(w1, first, core, account, Counter(w, core, account));
    var w2 := ReplacedAndPolled(w1, core, account);
    OneReadingBills(w2, first, core, account, Counter(w, core, account), Up);
    SumConcat(w2.delivered, AfterObserve(w2, first, core, true).polls[first].value.work.records, core, account, Up);
  }
}
