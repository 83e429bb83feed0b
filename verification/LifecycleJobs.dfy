/** Lifecycle jobs: serialized per core, joined when identical, kept in a bounded history. */
module LifecycleJobs {
  import opened Common

  // The agent keeps this many records.
  const HISTORY_LIMIT := 200

  datatype JobState = Queued | Running | Succeeded | Failed | Cancelled

  predicate Terminal(s: JobState) {
    s.Succeeded? || s.Failed? || s.Cancelled?
  }

  datatype JobError = TimeoutAfter(action: string, timeout: int) | CancelledError | Raised(kind: string, text: string)

  datatype JobView = JobView(core: string, action: string, state: JobState, queuedAt: int,
                             startedAt: Option<int>, finishedAt: Option<int>,
                             result: Option<string>, error: Option<JobError>)

  // How the awaited coroutine came back.
  datatype Outcome = Returned(result: string) | TimedOut(timeout: int) | WasCancelled | Threw(kind: string, text: string)

  function Started(j: JobView, now: int): JobView {
    j.(state := Running, startedAt := Some(now))
  }

  function Finished(j: JobView, o: Outcome, now: int): JobView {
    match o
    case Returned(result) => j.(state := Succeeded, result := Some(result), finishedAt := Some(now))
    case TimedOut(timeout) => j.(state := Failed, error := Some(TimeoutAfter(j.action, timeout)), finishedAt := Some(now))
    case WasCancelled => j.(state := Cancelled, error := Some(CancelledError), finishedAt := Some(now))
    case Threw(kind, text) => j.(state := Failed, error := Some(Raised(kind, text)), finishedAt := Some(now))
  }

  // heap holds every job object; a task keeps using its own even when jobs no longer lists it.
  datatype Manager = Manager(limit: int, heap: map<string, JobView>, jobs: set<string>,
                             order: seq<string>, active: map<string, string>)

  datatype SubmitResult = Fresh(id: string) | Joined(id: string) | Conflict(id: string) | KeyError(id: string)

  // Python slices stop at the end of the list.
  function Overflow(order: seq<string>, limit: int): nat {
    var overflow := |order| - limit;
    if overflow <= 0 then 0 else if overflow <= |order| then overflow else |order|
  }

  function Stale(order: seq<string>, limit: int): set<string> {
    set id | id in order[..Overflow(order, limit)]
  }

  function RememberStep(m: Manager, id: string, job: JobView): Manager {
    var order := m.order + [id];
    m.(heap := m.heap[id := job],
       jobs := m.jobs + {id} - Stale(order, m.limit),
       order := order[Overflow(order, m.limit)..])
  }

  function SubmitStep(m: Manager, core: string, action: string, id: string, now: int): (Manager, SubmitResult) {
    if core in m.active then
      var current := m.active[core];
      if current !in m.jobs || current !in m.heap then (m, KeyError(current))
      else if m.heap[current].action == action then (m, Joined(current))
      else (m, Conflict(current))
    else
      var m' := RememberStep(m, id, JobView(core, action, Queued, now, None, None, None, None));
      (m'.(active := m'.active[core := id]), Fresh(id))
  }

  function StartStep(m: Manager, id: string, now: int): Manager {
    if id in m.heap then m.(heap := m.heap[id := Started(m.heap[id], now)]) else m
  }

  function FinishStep(m: Manager, id: string, o: Outcome, now: int): Manager {
    if id in m.heap then
      m.(heap := m.heap[id := Finished(m.heap[id], o, now)], active := m.active - {m.heap[id].core})
    else m
  }

  function RecentIds(m: Manager, count: int): seq<string> {
    var wanted := if count < m.limit then count else m.limit;
    var n := if wanted < 1 then 1 else wanted;
    var newest := Reversed(m.order);
    Listed(if n <= |newest| then newest[..n] else newest, m.jobs)
  }

  // The job the core is at work on, as far as history still lists it.
  function ActiveOf(m: Manager, core: string): Option<string> {
    if core in m.active && m.active[core] in m.jobs then Some(m.active[core]) else None
  }

  function Reversed(s: seq<string>): seq<string> {
    if s == [] then [] else [s[|s| - 1]] + Reversed(s[..|s| - 1])
  }

  function Listed(ids: seq<string>, jobs: set<string>): seq<string> {
    if ids == [] then [] else (if ids[0] in jobs then [ids[0]] else []) + Listed(ids[1..], jobs)
  }

  class Job {
    const jobId: string
    const coreId: string
    const action: string
    const queuedAt: int
    var state: JobState
    var startedAt: Option<int>
    var finishedAt: Option<int>
    var result: Option<string>
    var error: Option<JobError>

    constructor (jobId: string, coreId: string, action: string, now: int)
      ensures this.jobId == jobId
      ensures View() == JobView(coreId, action, Queued, now, None, None, None, None)
    {
      this.jobId, this.coreId, this.action, this.queuedAt := jobId, coreId, action, now;
      state := Queued;
      startedAt, finishedAt, result, error := None, None, None, None;
    }

    function View(): JobView
      reads this
    {
      JobView(coreId, action, state, queuedAt, startedAt, finishedAt, result, error)
    }

    method Start(now: int)
      modifies this
      ensures View() == Started(old(View()), now)
    {
      state := Running;
      startedAt := Some(now);
    }

    method Settle(o: Outcome, now: int)
      modifies this
      ensures View() == Finished(old(View()), o, now)
    {
      match o {
        case Returned(text) =>
          result := Some(text);
          state := Succeeded;
        case TimedOut(timeout) =>
          state := Failed;
          error := Some(TimeoutAfter(action, timeout));
        case WasCancelled =>
          state := Cancelled;
          error := Some(CancelledError);
        case Threw(kind, text) =>
          state := Failed;
          error := Some(Raised(kind, text));
      }
      finishedAt := Some(now);
    }
  }

  ghost function HeapView(all: map<string, Job>): map<string, JobView>
    reads all.Values
  {
    map id | id in all :: all[id].View()
  }

  class JobManager {
    const historyLimit: int
    var jobs: map<string, Job>
    var order: seq<string>
    var active: map<string, string>
    // Every job ever submitted; the tasks hold on to those that history has dropped.
    ghost var all: map<string, Job>

    ghost predicate Valid()
      reads this
    {
      && (forall id :: id in all ==> all[id].jobId == id)
      && (forall id :: id in jobs ==> id in all && jobs[id] == all[id])
    }

    ghost function State(): Manager
      reads this, all.Values
    {
      Manager(historyLimit, HeapView(all), jobs.Keys, order, active)
    }

    constructor (historyLimit: int := HISTORY_LIMIT)
      ensures Valid() && all == map[]
      ensures State() == Manager(historyLimit, map[], {}, [], map[])
    {
      this.historyLimit := historyLimit;
      jobs, order, active, all := map[], [], map[], map[];
    }

    // id is a fresh UUID.
    method Submit(core: string, action: string, id: string, now: int) returns (r: SubmitResult)
      requires Valid() && id !in all
      modifies this
      ensures Valid()
      ensures (State(), r) == SubmitStep(old(State()), core, action, id, now)
      ensures r.Fresh? ==> all.Keys == old(all.Keys) + {id} && fresh(all[id])
      ensures !r.Fresh? ==> all == old(all)
    {
      if core in active {
        var current := active[core];
        if current !in jobs {
          return KeyError(current);
        }
        if jobs[current].action == action {
          return Joined(current);
        }
        return Conflict(current);
      }
      var job := new Job(id, core, action, now);
      Remember(job);
      active := active[core := id];
      r := Fresh(id);
    }

    method Remember(job: Job)
      requires Valid() && job.jobId !in all
      modifies this`jobs, this`order, this`all
      ensures Valid() && all == old(all)[job.jobId := job]
      ensures State() == RememberStep(old(State()), job.jobId, job.View())
    {
      Enlist(job);
      Prune();
    }

    method Enlist(job: Job)
      requires Valid() && job.jobId !in all
      modifies this`jobs, this`order, this`all
      ensures Valid() && all == old(all)[job.jobId := job]
      ensures var m := old(State());
              State() == m.(heap := m.heap[job.jobId := job.View()], jobs := m.jobs + {job.jobId}, order := m.order + [job.jobId])
    {
      jobs := jobs[job.jobId := job];
      order := order + [job.jobId];
      all := all[job.jobId := job];
      assert HeapView(all) == old(HeapView(all))[job.jobId := job.View()];
      assert jobs.Keys == old(jobs.Keys) + {job.jobId};
    }

    method Prune()
      requires Valid()
      modifies this`jobs, this`order
      ensures Valid()
      ensures var m := old(State());
              State() == m.(order := m.order[Overflow(m.order, m.limit)..], jobs := m.jobs - Stale(m.order, m.limit))
    {
      ghost var heap := HeapView(all);
      DropOldest();
      assert HeapView(all) == heap;
    }

    method DropOldest()
      requires Valid()
      modifies this`jobs, this`order
      ensures Valid()
      ensures order == old(order)[Overflow(old(order), historyLimit)..]
      ensures jobs.Keys == old(jobs.Keys) - Stale(old(order), historyLimit)
    {
      var overflow := |order| - historyLimit;
      if overflow > 0 {
        var n := if overflow <= |order| then overflow else |order|;
        for i := 0 to n
          invariant order == old(order)
          invariant jobs.Keys == old(jobs.Keys) - (set stale | stale in order[..i])
          invariant forall k :: k in jobs ==> k in old(jobs) && jobs[k] == old(jobs)[k]
        {
          jobs := jobs - {order[i]};
        }
        order := order[n..];
      }
    }

    // The first segment of a task, up to its await.
    method StartRun(job: Job, now: int)
      requires Valid() && job.jobId in all && all[job.jobId] == job
      modifies job
      ensures Valid() && State() == StartStep(old(State()), job.jobId, now)
    {
      job.Start(now);
      assert HeapView(all) == old(HeapView(all))[job.jobId := job.View()];
    }

    // The second segment: the handlers, and the finally block.
    method FinishRun(job: Job, o: Outcome, now: int)
      requires Valid() && job.jobId in all && all[job.jobId] == job
      modifies job, this`active
      ensures Valid() && State() == FinishStep(old(State()), job.jobId, o, now)
    {
      job.Settle(o, now);
      active := active - {job.coreId};
      assert HeapView(all) == old(HeapView(all))[job.jobId := job.View()];
      assert old(State()).heap[job.jobId].core == job.coreId;
    }

    method ActiveFor(core: string) returns (r: Option<Job>)
      requires Valid()
      ensures (if r.Some? then Some(r.value.jobId) else None) == ActiveOf(State(), core)
      ensures r.Some? ==> r.value.jobId in all && r.value == all[r.value.jobId]
    {
      if core in active && active[core] in jobs {
        r := Some(jobs[active[core]]);
      } else {
        r := None;
      }
    }

    method Recent(count: int) returns (ids: seq<string>)
      ensures ids == RecentIds(Manager(historyLimit, map[], jobs.Keys, order, active), count)
    {
      var wanted := if count < historyLimit then count else historyLimit;
      var n := if wanted < 1 then 1 else wanted;
      var newest := Reversed(order);
      newest := if n <= |newest| then newest[..n] else newest;
      ids := KeepListed(newest);
    }

    method KeepListed(newest: seq<string>) returns (ids: seq<string>)
      ensures ids == Listed(newest, jobs.Keys)
    {
      ids := [];
      for i := 0 to |newest|
        invariant ids + Listed(newest[i..], jobs.Keys) == Listed(newest, jobs.Keys)
      {
        if newest[i] in jobs {
          ids := ids + [newest[i]];
        }
      }
    }
  }
}
