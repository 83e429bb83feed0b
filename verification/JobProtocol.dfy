/** Every interleaving of submissions and task segments, and what it keeps. */
module JobProtocol {
  import opened Common
  import opened LifecycleJobs

  // A task is created once per fresh job and runs in two segments around one await.
  datatype Phase = Scheduled | Awaiting

  // log: every fresh submission, oldest first. started: each call of a coroutine factory.
  datatype World = World(m: Manager, tasks: map<string, Phase>, log: seq<string>, started: seq<string>)

  datatype Event =
    | Submit(core: string, action: string, id: string, now: int)
    | Start(id: string, now: int)
    | Finish(id: string, o: Outcome, now: int)

  function Next(w: World, e: Event): World {
    match e
    case Submit(core, action, id, now) =>
      var (m', r) := SubmitStep(w.m, core, action, id, now);
      if r.Fresh? then World(m', w.tasks[id := Scheduled], w.log + [id], w.started) else w.(m := m')
    case Start(id, now) => World(StartStep(w.m, id, now), w.tasks[id := Awaiting], w.log, w.started + [id])
    case Finish(id, o, now) => w.(m := FinishStep(w.m, id, o, now), tasks := w.tasks - {id})
  }

  // UUIDs are new; the loop runs a task's segments in order.
  predicate Enabled(w: World, e: Event) {
    match e
    case Submit(_, _, id, _) => id !in w.m.heap
    case Start(id, _) => id in w.tasks && w.tasks[id].Scheduled?
    case Finish(id, _, _) => id in w.tasks && w.tasks[id].Awaiting?
  }

  function Run(limit: int, events: seq<Event>): World {
    if events == [] then World(Manager(limit, map[], {}, [], map[]), map[], [], [])
    else Next(Run(limit, events[..|events| - 1]), events[|events| - 1])
  }

  predicate Legal(limit: int, events: seq<Event>) {
    events == [] ||
    var front := events[..|events| - 1];
    Legal(limit, front) && Enabled(Run(limit, front), events[|events| - 1])
  }

  ghost predicate Distinct(s: seq<string>) {
    forall i, j :: 0 <= i < j < |s| ==> s[i] != s[j]
  }

  // The same, one element at a time.
  ghost predicate NoRepeat(s: seq<string>) {
    s == [] || (s[|s| - 1] !in s[..|s| - 1] && NoRepeat(s[..|s| - 1]))
  }

  lemma {:induction false} NoRepeatIsDistinct(s: seq<string>)
    requires NoRepeat(s)
    ensures Distinct(s)
  {
    if s != [] {
      NoRepeatIsDistinct(s[..|s| - 1]);
    }
  }

  lemma AppendNoRepeat(s: seq<string>, x: string)
    requires NoRepeat(s) && x !in s
    ensures NoRepeat(s + [x])
  {
    assert (s + [x])[..|s|] == s;
  }

  function Elements(s: seq<string>): set<string> {
    set x | x in s
  }

  function Keep(limit: int): nat {
    if limit < 0 then 0 else limit
  }

  // The last min(|log|, limit) entries.
  function Suffix(log: seq<string>, limit: int): seq<string> {
    if |log| <= Keep(limit) then log else log[|log| - Keep(limit)..]
  }

  // ---------------------------------------------------------------------------
  // Tasks and active: which jobs are not terminal
  // ---------------------------------------------------------------------------

  function PhaseState(p: Phase): JobState {
    if p.Scheduled? then Queued else Running
  }

  ghost predicate TasksOk(w: World) {
    && w.tasks.Keys <= w.m.heap.Keys
    && (forall id :: id in w.m.heap ==>
          if id in w.tasks then w.m.heap[id].state == PhaseState(w.tasks[id]) else Terminal(w.m.heap[id].state))
  }

  // active lists exactly the jobs that still have a task, each under its own core.
  ghost predicate ActiveOk(w: World) {
    && (forall core :: core in w.m.active ==>
          w.m.active[core] in w.tasks && w.m.active[core] in w.m.heap && w.m.heap[w.m.active[core]].core == core)
    && (forall id :: id in w.tasks && id in w.m.heap ==>
          w.m.heap[id].core in w.m.active && w.m.active[w.m.heap[id].core] == id)
  }

  lemma StepKeepsTasks(w: World, e: Event)
    requires TasksOk(w) && Enabled(w, e)
    ensures TasksOk(Next(w, e))
  {
  }

  lemma StepKeepsActive(w: World, e: Event)
    requires TasksOk(w) && ActiveOk(w) && Enabled(w, e)
    ensures ActiveOk(Next(w, e))
  {
  }

  lemma {:induction false} RunKeepsActive(limit: int, events: seq<Event>)
    requires Legal(limit, events)
    ensures TasksOk(Run(limit, events)) && ActiveOk(Run(limit, events))
  {
    if events != [] {
      var front, last := events[..|events| - 1], events[|events| - 1];
      RunKeepsActive(limit, front);
      StepKeepsTasks(Run(limit, front), last);
      StepKeepsActive(Run(limit, front), last);
    }
  }

  /** Serialization: at every point of every interleaving at most one job of a core is not
      terminal, and it is the one active lists, whether or not history still shows it. */
  lemma OneActiveJobPerCore(limit: int, events: seq<Event>)
    requires Legal(limit, events)
    ensures var m := Run(limit, events).m;
            forall id :: id in m.heap ==>
              (!Terminal(m.heap[id].state) <==> m.heap[id].core in m.active && m.active[m.heap[id].core] == id)
  {
    RunKeepsActive(limit, events);
  }

  /** A submission starts a job exactly when its core has none that is not terminal; otherwise
      the core's job is joined when the action is the same, refused when it differs, and nothing
      changes either way. */
  lemma SubmitAnswers(limit: int, events: seq<Event>, core: string, action: string, id: string, now: int)
    requires Legal(limit, events) && Enabled(Run(limit, events), Submit(core, action, id, now))
    ensures var w := Run(limit, events);
            var r := SubmitStep(w.m, core, action, id, now).1;
            && (r.Fresh? <==> forall j :: j in w.m.heap && w.m.heap[j].core == core ==> Terminal(w.m.heap[j].state))
            && (!r.Fresh? ==> Next(w, Submit(core, action, id, now)) == w)
            && (r.Joined? || r.Conflict? ==>
                  && r.id in w.m.heap && w.m.heap[r.id].core == core && !Terminal(w.m.heap[r.id].state)
                  && (r.Joined? <==> w.m.heap[r.id].action == action))
  {
    RunKeepsActive(limit, events);
  }

  // What a job's fields say about its state.
  predicate FieldsMatch(j: JobView) {
    && (j.startedAt.Some? <==> !j.state.Queued?)
    && (j.finishedAt.Some? <==> Terminal(j.state))
    && (j.result.Some? <==> j.state.Succeeded?)
    && (j.error.Some? <==> j.state.Failed? || j.state.Cancelled?)
  }

  lemma StepKeepsFields(w: World, e: Event)
    requires TasksOk(w) && Enabled(w, e) && forall id :: id in w.m.heap ==> FieldsMatch(w.m.heap[id])
    ensures forall id :: id in Next(w, e).m.heap ==> FieldsMatch(Next(w, e).m.heap[id])
  {
  }

  /** In every reachable state a job has a start time once it has left the queue, a finish time
      once it is terminal, a result only if it succeeded and an error only if it did not. */
  lemma {:induction false} RunKeepsFields(limit: int, events: seq<Event>)
    requires Legal(limit, events)
    ensures forall id :: id in Run(limit, events).m.heap ==> FieldsMatch(Run(limit, events).m.heap[id])
  {
    if events != [] {
      var front := events[..|events| - 1];
      RunKeepsFields(limit, front);
      RunKeepsActive(limit, front);
      StepKeepsFields(Run(limit, front), events[|events| - 1]);
    }
  }

  function Rank(s: JobState): nat {
    if s.Queued? then 0 else if s.Running? then 1 else 2
  }

  lemma StepMovesForward(w: World, e: Event, id: string)
    requires TasksOk(w) && Enabled(w, e) && id in w.m.heap
    ensures var after := Next(w, e).m.heap;
            && id in after
            && (after[id] == w.m.heap[id]
                || (!e.Submit? && e.id == id && !Terminal(w.m.heap[id].state)
                    && Rank(after[id].state) == Rank(w.m.heap[id].state) + 1))
  {
  }

  /** A step moves at most one job, by one rank, and never touches a terminal one. */
  lemma JobsMoveForward(limit: int, events: seq<Event>, e: Event, id: string)
    requires Legal(limit, events) && Enabled(Run(limit, events), e) && id in Run(limit, events).m.heap
    ensures var before, after := Run(limit, events).m.heap, Next(Run(limit, events), e).m.heap;
            && id in after
            && (Terminal(before[id].state) ==> after[id] == before[id])
            && (after[id] != before[id] ==> !e.Submit? && e.id == id && Rank(after[id].state) == Rank(before[id].state) + 1)
  {
    RunKeepsActive(limit, events);
    StepMovesForward(Run(limit, events), e, id);
  }

  /** A finished job takes its own entry out of active and no other, even after its record has
      been dropped from history. */
  lemma CleanupRemovesOwnEntry(limit: int, events: seq<Event>, id: string, o: Outcome, now: int)
    requires Legal(limit, events) && Enabled(Run(limit, events), Finish(id, o, now))
    ensures var m, m' := Run(limit, events).m, Next(Run(limit, events), Finish(id, o, now)).m;
            && id in m.heap && m.heap[id].core in m.active && m.active[m.heap[id].core] == id
            && m'.active == m.active - {m.heap[id].core}
            && m'.jobs == m.jobs && m'.order == m.order
  {
    RunKeepsActive(limit, events);
  }

  // ---------------------------------------------------------------------------
  // How a job ends, and what its record names
  // ---------------------------------------------------------------------------

  /** The state a job ends in says how its coroutine came back: it succeeded exactly when a value was
      returned, and with that value; it was cancelled exactly when its coroutine was; and it failed
      exactly on a timeout or an exception, with the action and the timeout, or the kind and the
      text. It ends at the time given, and nothing else in its record changes. */
  lemma EndsAsItCameBack(limit: int, events: seq<Event>, id: string, o: Outcome, now: int)
    requires Legal(limit, events) && Enabled(Run(limit, events), Finish(id, o, now))
    ensures var before, after := Run(limit, events).m.heap, Next(Run(limit, events), Finish(id, o, now)).m.heap;
            && id in before && id in after
            && var was, job := before[id], after[id];
               && (job.state == Succeeded <==> o.Returned?) && (job.state == Cancelled <==> o.WasCancelled?)
               && (job.state == Failed <==> o.TimedOut? || o.Threw?)
               && job.result == (if o.Returned? then Some(o.result) else None)
               && (o.Returned? ==> job.error == None)
               && (o.WasCancelled? ==> job.error == Some(CancelledError))
               && (o.TimedOut? ==> job.error == Some(TimeoutAfter(was.action, o.timeout)))
               && (o.Threw? ==> job.error == Some(Raised(o.kind, o.text)))
               && job.finishedAt == Some(now)
               && job.core == was.core && job.action == was.action
               && job.queuedAt == was.queuedAt && job.startedAt == was.startedAt
  {
    RunKeepsActive(limit, events);
    RunKeepsFields(limit, events);
  }

  /** A job starts at the time given; its record is otherwise as it was queued. */
  lemma StartsAsQueued(limit: int, events: seq<Event>, id: string, now: int)
    requires Legal(limit, events) && Enabled(Run(limit, events), Start(id, now))
    ensures var before, after := Run(limit, events).m.heap, Next(Run(limit, events), Start(id, now)).m.heap;
            && id in before && id in after
            && after[id] == JobView(before[id].core, before[id].action, Running, before[id].queuedAt, Some(now), None, None, None)
  {
    RunKeepsActive(limit, events);
    RunKeepsFields(limit, events);
  }

  ghost predicate SubmittedAs(events: seq<Event>, id: string, job: JobView) {
    Submit(job.core, job.action, id, job.queuedAt) in events
  }

  // A step makes a record only by submitting it, and keeps what every other one names.
  lemma StepKeepsNames(w: World, e: Event, id: string)
    requires TasksOk(w) && Enabled(w, e) && id in Next(w, e).m.heap
    ensures var job := Next(w, e).m.heap[id];
            if id in w.m.heap then
              var was := w.m.heap[id]; job.core == was.core && job.action == was.action && job.queuedAt == was.queuedAt
            else e == Submit(job.core, job.action, id, job.queuedAt)
  {
  }

  /** In every run each record names the core, the action and the time of a submission made under its
      id; so a request joins a job exactly when it asks for what that submission asked for. */
  lemma {:induction false} RecordsNameTheirSubmission(limit: int, events: seq<Event>, id: string)
    requires Legal(limit, events) && id in Run(limit, events).m.heap
    ensures SubmittedAs(events, id, Run(limit, events).m.heap[id])
  {
    if events != [] {
      var front, last := events[..|events| - 1], events[|events| - 1];
      assert events == front + [last];
      RunKeepsActive(limit, front);
      StepKeepsNames(Run(limit, front), last, id);
      if id in Run(limit, front).m.heap {
        RecordsNameTheirSubmission(limit, front, id);
      }
    }
  }

  /** A submission that is fresh queues a job with what it was asked for, as its core's active job. */
  lemma FreshJobIsQueued(limit: int, events: seq<Event>, core: string, action: string, id: string, now: int)
    requires Legal(limit, events) && Enabled(Run(limit, events), Submit(core, action, id, now))
    requires SubmitStep(Run(limit, events).m, core, action, id, now).1.Fresh?
    ensures var m := Next(Run(limit, events), Submit(core, action, id, now)).m;
            && id in m.heap && m.heap[id] == JobView(core, action, Queued, now, None, None, None, None)
            && core in m.active && m.active[core] == id
            && SubmitStep(Run(limit, events).m, core, action, id, now).1 == Fresh(id)
  {
  }

  // ---------------------------------------------------------------------------
  // Factory calls
  // ---------------------------------------------------------------------------

  ghost predicate StartsOk(w: World) {
    && NoRepeat(w.started)
    && (forall id :: id in w.started ==> id in w.m.heap && !w.m.heap[id].state.Queued?)
  }

  lemma StepKeepsStarts(w: World, e: Event)
    requires TasksOk(w) && StartsOk(w) && Enabled(w, e)
    ensures StartsOk(Next(w, e))
  {
    if e.Start? {
      AppendNoRepeat(w.started, e.id);
    }
  }

  lemma {:induction false} RunKeepsStarts(limit: int, events: seq<Event>)
    requires Legal(limit, events)
    ensures StartsOk(Run(limit, events))
  {
    if events != [] {
      var front := events[..|events| - 1];
      RunKeepsStarts(limit, front);
      RunKeepsActive(limit, front);
      StepKeepsStarts(Run(limit, front), events[|events| - 1]);
    }
  }

  /** No coroutine factory is called twice. */
  lemma FactoriesRunOnce(limit: int, events: seq<Event>)
    requires Legal(limit, events)
    ensures Distinct(Run(limit, events).started)
  {
    RunKeepsStarts(limit, events);
    NoRepeatIsDistinct(Run(limit, events).started);
  }

  // ---------------------------------------------------------------------------
  // The bounded history
  // ---------------------------------------------------------------------------

  ghost predicate HistoryOk(w: World) {
    && NoRepeat(w.log)
    && Elements(w.log) == w.m.heap.Keys
    && w.m.order == Suffix(w.log, w.m.limit)
    && w.m.jobs == Elements(w.m.order)
  }

  lemma SuffixGrows(log: seq<string>, id: string, limit: int)
    ensures var order := Suffix(log, limit) + [id];
            order[Overflow(order, limit)..] == Suffix(log + [id], limit)
  {
  }

  lemma DropOldest(order: seq<string>, n: nat)
    requires Distinct(order) && n <= |order|
    ensures Elements(order) - Elements(order[..n]) == Elements(order[n..])
  {
    assert order == order[..n] + order[n..];
    forall x | x in Elements(order[..n]) ensures x !in Elements(order[n..]) {
      var i :| 0 <= i < n && order[i] == x;
    }
  }

  lemma SuffixDistinct(log: seq<string>, limit: int)
    requires Distinct(log)
    ensures Distinct(Suffix(log, limit))
  {
  }

  lemma SuffixAppend(log: seq<string>, id: string, limit: int)
    requires Distinct(log) && id !in log
    ensures Distinct(Suffix(log, limit) + [id])
    ensures Elements(Suffix(log, limit) + [id]) == Elements(Suffix(log, limit)) + {id}
  {
    SuffixDistinct(log, limit);
    assert forall x :: x in Suffix(log, limit) ==> x in log;
  }

  lemma RememberKeepsHistory(w: World, id: string, job: JobView)
    requires HistoryOk(w) && id !in w.m.heap
    ensures var m' := RememberStep(w.m, id, job);
            && m'.order == Suffix(w.log + [id], w.m.limit)
            && m'.jobs == Elements(m'.order)
            && m'.heap.Keys == Elements(w.log + [id])
            && NoRepeat(w.log + [id])
  {
    var order, limit := w.m.order + [id], w.m.limit;
    assert id !in Elements(w.log);
    AppendNoRepeat(w.log, id);
    NoRepeatIsDistinct(w.log);
    SuffixGrows(w.log, id, limit);
    SuffixAppend(w.log, id, limit);
    DropOldest(order, Overflow(order, limit));
    assert Stale(order, limit) == Elements(order[..Overflow(order, limit)]);
    assert Elements(w.log + [id]) == Elements(w.log) + {id};
  }

  lemma StepKeepsHistory(w: World, e: Event)
    requires HistoryOk(w) && Enabled(w, e)
    ensures HistoryOk(Next(w, e)) && Next(w, e).m.limit == w.m.limit
  {
    if e.Submit? && e.core !in w.m.active {
      RememberKeepsHistory(w, e.id, JobView(e.core, e.action, Queued, e.now, None, None, None, None));
    } else if e.Start? {
      assert Next(w, e).m.heap.Keys == w.m.heap.Keys;
    } else if e.Finish? {
      assert Next(w, e).m.heap.Keys == w.m.heap.Keys;
    }
  }

  lemma {:induction false} RunKeepsHistory(limit: int, events: seq<Event>)
    requires Legal(limit, events)
    ensures HistoryOk(Run(limit, events)) && Run(limit, events).m.limit == limit
  {
    if events != [] {
      var front := events[..|events| - 1];
      RunKeepsHistory(limit, front);
      RunKeepsActive(limit, front);
      StepKeepsHistory(Run(limit, front), events[|events| - 1]);
    }
  }

  lemma SuffixHolds(log: seq<string>, limit: int, i: nat)
    requires Distinct(log) && i < |log|
    ensures log[i] in Suffix(log, limit) <==> |log| - 1 - i < limit
  {
    var kept := Suffix(log, limit);
    var start := |log| - |kept|;
    assert forall k :: 0 <= k < |kept| ==> kept[k] == log[start + k];
    if i >= start {
      assert kept[i - start] == log[i];
    }
  }

  /** History is the last limit submissions, each once, and the job table lists just them; so a
      record is present exactly while fewer than limit jobs have been submitted after it. */
  lemma HistoryIsLastSubmissions(limit: int, events: seq<Event>, i: nat)
    requires Legal(limit, events) && i < |Run(limit, events).log|
    ensures var w := Run(limit, events);
            && w.m.order == Suffix(w.log, limit) && Distinct(w.m.order)
            && w.m.jobs == Elements(w.m.order)
            && (w.log[i] in w.m.jobs <==> |w.log| - 1 - i < limit)
  {
    RunKeepsHistory(limit, events);
    var log := Run(limit, events).log;
    NoRepeatIsDistinct(log);
    SuffixDistinct(log, limit);
    SuffixHolds(log, limit, i);
  }

  /** A submission meets the KeyError exactly when its core's active job is followed by at least
      limit later submissions. */
  lemma SubmitLosesActiveJob(limit: int, events: seq<Event>, core: string, action: string, id: string, now: int)
    requires Legal(limit, events) && Enabled(Run(limit, events), Submit(core, action, id, now))
    ensures var w := Run(limit, events);
            SubmitStep(w.m, core, action, id, now).1.KeyError? <==>
            core in w.m.active &&
            exists i :: 0 <= i < |w.log| && w.log[i] == w.m.active[core] && |w.log| - 1 - i >= limit
  {
    var w := Run(limit, events);
    RunKeepsActive(limit, events);
    RunKeepsHistory(limit, events);
    if core in w.m.active {
      assert w.m.active[core] in Elements(w.log);
      forall i: nat | i < |w.log| && w.log[i] == w.m.active[core]
        ensures w.log[i] in w.m.jobs <==> |w.log| - 1 - i < limit
      {
        HistoryIsLastSubmissions(limit, events, i);
      }
    }
  }

  /** active_for shows a core's job exactly while it is not terminal and fewer than limit jobs have
      been submitted after it; an older one goes on running unseen. */
  lemma ActiveForIsLiveJob(limit: int, events: seq<Event>, core: string, i: nat)
    requires Legal(limit, events) && i < |Run(limit, events).log|
    ensures var w := Run(limit, events);
            var id := w.log[i];
            && id in w.m.heap
            && (ActiveOf(w.m, core) == Some(id) <==>
                  w.m.heap[id].core == core && !Terminal(w.m.heap[id].state) && |w.log| - 1 - i < limit)
  {
    RunKeepsActive(limit, events);
    RunKeepsHistory(limit, events);
    HistoryIsLastSubmissions(limit, events, i);
    var w := Run(limit, events);
    assert w.log[i] in Elements(w.log);
  }

  function Name(n: nat): (s: string)
    ensures |s| == n
  {
    seq(n, _ => 'x')
  }

  // A job of one core is started and left running while another core runs n jobs, one after the
  // other.
  function Busy(left: string, other: string, n: nat): seq<Event> {
    if n == 0 then [Submit(left, "install", Name(0), 0), Start(Name(0), 0)]
    else Busy(left, other, n - 1) + Turn(other, n)
  }

  function Turn(other: string, n: nat): seq<Event> {
    [Submit(other, "restart", Name(n), 0), Start(Name(n), 0), Finish(Name(n), Returned(""), 0)]
  }

  ghost predicate BusyWorld(w: World, left: string, other: string, n: nat) {
    && |w.log| == n + 1 && w.log[0] == Name(0)
    && w.m.active == map[left := Name(0)] && w.tasks == map[Name(0) := Awaiting]
    && Name(0) in w.m.heap && w.m.heap[Name(0)].state.Running?
    && w.m.heap[Name(0)].core == left && w.m.heap[Name(0)].action == "install"
    && (forall id :: id in w.m.heap ==> |id| <= n)
  }

  lemma RunSnoc(limit: int, events: seq<Event>, e: Event)
    ensures Run(limit, events + [e]) == Next(Run(limit, events), e)
    ensures Legal(limit, events + [e]) <==> Legal(limit, events) && Enabled(Run(limit, events), e)
  {
    assert (events + [e])[..|events|] == events;
  }

  // One job of the other core, from submission to end.
  lemma BusyTurn(w: World, left: string, other: string, n: nat)
    requires BusyWorld(w, left, other, n) && left != other
    ensures var submit, start, finish := Submit(other, "restart", Name(n + 1), 0), Start(Name(n + 1), 0), Finish(Name(n + 1), Returned(""), 0);
            && Enabled(w, submit) && Enabled(Next(w, submit), start) && Enabled(Next(Next(w, submit), start), finish)
            && BusyWorld(Next(Next(Next(w, submit), start), finish), left, other, n + 1)
  {
    assert Name(n + 1) !in w.m.heap;
  }

  lemma RunThree(limit: int, events: seq<Event>, a: Event, b: Event, c: Event)
    requires var w := Run(limit, events); Enabled(w, a) && Enabled(Next(w, a), b) && Enabled(Next(Next(w, a), b), c)
    ensures Run(limit, events + [a, b, c]) == Next(Next(Next(Run(limit, events), a), b), c)
    ensures Legal(limit, events) ==> Legal(limit, events + [a, b, c])
  {
    RunSnoc(limit, events, a);
    RunSnoc(limit, events + [a], b);
    RunSnoc(limit, events + [a] + [b], c);
    assert events + [a] + [b] + [c] == events + [a, b, c];
  }

  lemma TurnRuns(limit: int, events: seq<Event>, left: string, other: string, n: nat)
    requires Legal(limit, events) && BusyWorld(Run(limit, events), left, other, n) && left != other
    ensures Legal(limit, events + Turn(other, n + 1)) && BusyWorld(Run(limit, events + Turn(other, n + 1)), left, other, n + 1)
  {
    var w := Run(limit, events);
    BusyTurn(w, left, other, n);
    RunThree(limit, events, Submit(other, "restart", Name(n + 1), 0), Start(Name(n + 1), 0),
             Finish(Name(n + 1), Returned(""), 0));
  }

  lemma BusyStarts(limit: int, left: string, other: string)
    ensures Legal(limit, Busy(left, other, 0)) && BusyWorld(Run(limit, Busy(left, other, 0)), left, other, 0)
  {
    var submit, start := Submit(left, "install", Name(0), 0), Start(Name(0), 0);
    assert [] + [submit] == [submit] && [submit] + [start] == [submit, start];
    RunSnoc(limit, [], submit);
    RunSnoc(limit, [submit], start);
  }

  lemma {:induction false} BusyRuns(limit: int, left: string, other: string, n: nat)
    requires left != other
    ensures Legal(limit, Busy(left, other, n)) && BusyWorld(Run(limit, Busy(left, other, n)), left, other, n)
  {
    if n == 0 {
      BusyStarts(limit, left, other);
    } else {
      BusyRuns(limit, left, other, n - 1);
      TurnRuns(limit, Busy(left, other, n - 1), left, other, n - 1);
    }
  }

  /** Two cores are enough, whatever the limit. While a job of one is running, the other runs n jobs
      one after the other; repeating the running job's request then joins it when n is below the
      limit, and raises KeyError from then on. */
  lemma ActiveJobCanBeEvicted(limit: nat, left: string, other: string, n: nat)
    requires left != other
    ensures Legal(limit, Busy(left, other, n))
    ensures var m := Run(limit, Busy(left, other, n)).m;
            && Name(0) in m.heap && m.heap[Name(0)].state.Running?
            && Name(n + 1) !in m.heap
            && SubmitStep(m, left, m.heap[Name(0)].action, Name(n + 1), 0).1
               == if n < limit then Joined(Name(0)) else KeyError(Name(0))
  {
    BusyRuns(limit, left, other, n);
    var w := Run(limit, Busy(left, other, n));
    HistoryIsLastSubmissions(limit, Busy(left, other, n), 0);
    assert w.m.active[left] == Name(0);
  }

  /** With the agent's own limit the two-hundredth job of the other core makes the difference. */
  lemma TwoHundredJobsEvict(left: string, other: string, n: nat)
    requires left != other
    ensures SubmitStep(Run(HISTORY_LIMIT, Busy(left, other, n)).m, left, "install", Name(n + 1), 0).1
            == if n < 200 then Joined(Name(0)) else KeyError(Name(0))
  {
    ActiveJobCanBeEvicted(HISTORY_LIMIT, left, other, n);
    BusyRuns(HISTORY_LIMIT, left, other, n);
  }

  lemma {:induction false} ReversedAt(s: seq<string>, k: nat)
    requires k < |s|
    ensures |Reversed(s)| == |s| && Reversed(s)[k] == s[|s| - 1 - k]
  {
    if |s| > 1 {
      ReversedAt(s[..|s| - 1], if k > 0 then k - 1 else 0);
    }
  }

  lemma {:induction false} NothingFiltered(ids: seq<string>, jobs: set<string>)
    requires forall id :: id in ids ==> id in jobs
    ensures Listed(ids, jobs) == ids
  {
    if ids != [] {
      NothingFiltered(ids[1..], jobs);
    }
  }

  lemma ReversedIs(s: seq<string>)
    ensures |Reversed(s)| == |s| && forall j :: 0 <= j < |s| ==> Reversed(s)[j] == s[|s| - 1 - j]
  {
    if s != [] {
      ReversedAt(s, 0);
    }
    forall j: nat | j < |s| ensures Reversed(s)[j] == s[|s| - 1 - j] {
      ReversedAt(s, j);
    }
  }

  // The k-th entry from the end.
  function Newest(s: seq<string>, k: nat): string
    requires k < |s|
  {
    s[|s| - 1 - k]
  }

  function Asked(count: int): nat {
    if count < 1 then 1 else count
  }

  // The newest of the ids, newest first.
  function NewestFirst(order: seq<string>, n: nat): seq<string> {
    var newest := Reversed(order);
    if n <= |newest| then newest[..n] else newest
  }

  lemma NewestFirstIs(order: seq<string>, n: nat)
    ensures var shown := NewestFirst(order, n);
            && |shown| == (if n < |order| then n else |order|)
            && (forall k: nat :: k < |shown| ==> shown[k] == Newest(order, k))
            && (forall id :: id in shown ==> id in order)
  {
    ReversedIs(order);
    var shown := NewestFirst(order, n);
    forall id | id in shown ensures id in order {
      var j :| 0 <= j < |shown| && shown[j] == id;
      assert id == order[|order| - 1 - j];
    }
  }

  lemma RecentOfListed(m: Manager, count: int)
    requires forall id :: id in m.order ==> id in m.jobs
    requires |m.order| <= Keep(m.limit)
    ensures && |RecentIds(m, count)| == (if Asked(count) < |m.order| then Asked(count) else |m.order|)
            && forall k: nat :: k < |RecentIds(m, count)| ==> RecentIds(m, count)[k] == Newest(m.order, k)
  {
    var wanted := if count < m.limit then count else m.limit;
    var n := if wanted < 1 then 1 else wanted;
    NewestFirstIs(m.order, n);
    NothingFiltered(NewestFirst(m.order, n), m.jobs);
  }

  lemma SuffixFromEnd(log: seq<string>, limit: int)
    ensures var kept := Suffix(log, limit);
            && |kept| == (if |log| < Keep(limit) then |log| else Keep(limit))
            && forall k: nat :: k < |kept| ==> Newest(kept, k) == Newest(log, k)
  {
  }

  /** recent(count) lists the newest submissions first, as many as asked for (at least one) and
      kept; the filter never drops any. */
  lemma RecentIsNewestFirst(limit: int, events: seq<Event>, count: int)
    requires Legal(limit, events)
    ensures var w := Run(limit, events);
            var asked := Asked(count);
            var kept := if |w.log| < Keep(limit) then |w.log| else Keep(limit);
            var ids := RecentIds(w.m, count);
            && |ids| == (if asked < kept then asked else kept)
            && forall k: nat :: k < |ids| ==> ids[k] == Newest(w.log, k)
  {
    RunKeepsHistory(limit, events);
    var w := Run(limit, events);
    RecentOfListed(w.m, count);
    SuffixFromEnd(w.log, limit);
    assert |w.m.order| == if |w.log| < Keep(limit) then |w.log| else Keep(limit);
  }
}
