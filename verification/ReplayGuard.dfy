/** The bounded nonce cache, its copy on disk, and the unbounded log it stands for. */
module ReplayGuard {
  import opened Common

  datatype Rejection = OutsideWindow | BadNonce | Replayed

  datatype AcceptResult = Accepted | Rejected(why: Rejection) | WriteFailed

  // Seconds, when the agent names no other window.
  const WINDOW := 300

  predicate InWindow(window: int, ts: int, now: int) {
    -window <= now - ts <= window
  }

  // isalnum over Latin-1, the alphabet HTTP headers are decoded in.
  predicate Alnum(c: char) {
    || '0' <= c <= '9' || 'A' <= c <= 'Z' || 'a' <= c <= 'z'
    || c as int in {0xAA, 0xB2, 0xB3, 0xB5, 0xB9, 0xBA, 0xBC, 0xBD, 0xBE}
    || (0xC0 <= c as int <= 0xFF && c as int != 0xD7 && c as int != 0xF7)
  }

  predicate WellFormedNonce(nonce: string) {
    16 <= |nonce| <= 128 && forall c :: c in nonce ==> Alnum(c)
  }

  // replay.json as a start finds it.
  datatype File = Missing | Corrupt | Saved(entries: map<string, int>)

  // What memory and replay.json hold. A missing file reads as the empty map.
  datatype Cache = Cache(seen: map<string, int>, disk: map<string, int>)

  function Live(seen: map<string, int>, window: int, now: int): map<string, int> {
    map nonce | nonce in seen && now - seen[nonce] <= window :: seen[nonce]
  }

  function AcceptStep(c: Cache, window: int, nonce: string, ts: int, now: int, writeOk: bool): (Cache, AcceptResult) {
    if !InWindow(window, ts, now) then (c, Rejected(OutsideWindow))
    else if !WellFormedNonce(nonce) then (c, Rejected(BadNonce))
    else
      var live := Live(c.seen, window, now);
      if nonce in live then (c.(seen := live), Rejected(Replayed))
      else if writeOk then (Cache(live[nonce := ts], live[nonce := ts]), Accepted)
      else (c.(seen := live[nonce := ts]), WriteFailed)
  }

  class ReplayGuard {
    const window: int
    var seen: map<string, int>
    var disk: map<string, int>

    ghost function State(): Cache
      reads this
    {
      Cache(seen, disk)
    }

    // A start of the agent: memory is what the last successful write left on disk.
    constructor (disk: map<string, int>, window: int := WINDOW)
      ensures this.window == window && State() == Cache(disk, disk)
    {
      this.window := window;
      this.disk := disk;
      seen := disk;
    }

    // A file that cannot be read stops the start: forgetting live nonces would be worse.
    static method Open(file: File, window: int := WINDOW) returns (g: Option<ReplayGuard>)
      ensures g.None? <==> file.Corrupt?
      ensures g.Some? ==>
                && fresh(g.value) && g.value.window == window
                && var entries := if file.Saved? then file.entries else map[];
                   g.value.State() == Cache(entries, entries)
    {
      if file.Corrupt? {
        return None;
      }
      var guard := new ReplayGuard(if file.Saved? then file.entries else map[], window);
      g := Some(guard);
    }

    // The file is replaced whole, or the write raises and it is not touched.
    method Write(writeOk: bool) returns (ok: bool)
      modifies this`disk
      ensures ok == writeOk && disk == if writeOk then seen else old(disk)
    {
      ok := writeOk;
      if writeOk {
        disk := seen;
      }
    }

    method Accept(nonce: string, ts: int, now: int, writeOk: bool) returns (r: AcceptResult)
      modifies this`seen, this`disk
      ensures (State(), r) == AcceptStep(old(State()), window, nonce, ts, now, writeOk)
    {
      if !InWindow(window, ts, now) {
        return Rejected(OutsideWindow);
      }
      if !WellFormedNonce(nonce) {
        return Rejected(BadNonce);
      }
      seen := Live(seen, window, now);
      if nonce in seen {
        return Rejected(Replayed);
      }
      seen := seen[nonce := ts];
      var ok := Write(writeOk);
      r := if ok then Accepted else WriteFailed;
    }
  }

  // ---------------------------------------------------------------------------
  // The unbounded log: nothing is ever forgotten except by a restart, which
  // falls back to what had been recorded at the last successful write.
  // ---------------------------------------------------------------------------

  datatype Entry = Entry(nonce: string, ts: int, at: int)

  datatype Log = Log(entries: seq<Entry>, saved: seq<Entry>)

  ghost predicate Blocks(e: Entry, window: int, nonce: string, now: int) {
    e.nonce == nonce && now - e.ts <= window
  }

  ghost predicate Blocked(entries: seq<Entry>, window: int, nonce: string, now: int) {
    exists i :: 0 <= i < |entries| && Blocks(entries[i], window, nonce, now)
  }

  ghost function LogStep(l: Log, window: int, nonce: string, ts: int, now: int, writeOk: bool): (Log, AcceptResult) {
    if !InWindow(window, ts, now) then (l, Rejected(OutsideWindow))
    else if !WellFormedNonce(nonce) then (l, Rejected(BadNonce))
    else if Blocked(l.entries, window, nonce, now) then (l, Rejected(Replayed))
    else
      var entries := l.entries + [Entry(nonce, ts, now)];
      if writeOk then (Log(entries, entries), Accepted) else (l.(entries := entries), WriteFailed)
  }

  // seen holds exactly the log's entries that can still block something, and
  // nothing that was never logged.
  ghost predicate Represents(seen: map<string, int>, entries: seq<Entry>, window: int, now: int) {
    && (forall i :: 0 <= i < |entries| ==>
          && InWindow(window, entries[i].ts, entries[i].at) && entries[i].at <= now
          && (now - entries[i].ts <= window ==> entries[i].nonce in seen && seen[entries[i].nonce] == entries[i].ts))
    && (forall n :: n in seen ==> Logged(n, seen[n], entries))
  }

  ghost predicate Logged(nonce: string, ts: int, entries: seq<Entry>) {
    exists i :: 0 <= i < |entries| && entries[i].nonce == nonce && entries[i].ts == ts
  }

  ghost predicate Refines(c: Cache, l: Log, window: int, now: int) {
    && Represents(c.seen, l.entries, window, now)
    && Represents(c.disk, l.saved, window, now)
  }

  lemma RepresentsLater(seen: map<string, int>, entries: seq<Entry>, window: int, now: int, later: int)
    requires Represents(seen, entries, window, now) && now <= later
    ensures Represents(seen, entries, window, later)
    ensures Represents(Live(seen, window, later), entries, window, later)
  {
  }

  lemma LiveMeansBlocked(seen: map<string, int>, entries: seq<Entry>, window: int, nonce: string, now: int)
    requires Represents(seen, entries, window, now)
    ensures nonce in Live(seen, window, now) <==> Blocked(entries, window, nonce, now)
  {
    if nonce in Live(seen, window, now) {
      assert Logged(nonce, seen[nonce], entries);
      var i :| 0 <= i < |entries| && entries[i].nonce == nonce && entries[i].ts == seen[nonce];
      assert Blocks(entries[i], window, nonce, now);
    }
  }

  lemma RepresentsAppend(live: map<string, int>, entries: seq<Entry>, window: int, e: Entry)
    requires Represents(live, entries, window, e.at) && InWindow(window, e.ts, e.at)
    requires !Blocked(entries, window, e.nonce, e.at)
    ensures Represents(live[e.nonce := e.ts], entries + [e], window, e.at)
  {
    var seen', entries' := live[e.nonce := e.ts], entries + [e];
    forall n | n in seen' ensures Logged(n, seen'[n], entries') {
      if n == e.nonce {
        assert entries'[|entries|] == e;
      } else {
        assert Logged(n, live[n], entries);
        var i :| 0 <= i < |entries| && entries[i].nonce == n && entries[i].ts == live[n];
        assert entries'[i] == entries[i];
      }
    }
    forall i | 0 <= i < |entries'| && e.at - entries'[i].ts <= window
      ensures entries'[i].nonce in seen' && seen'[entries'[i].nonce] == entries'[i].ts
    {
      if i < |entries| {
        assert entries'[i] == entries[i];
        assert entries[i].nonce == e.nonce ==> Blocks(entries[i], window, e.nonce, e.at);
      }
    }
  }

  /** One call: the pruned cache and the unbounded log answer alike, and stay in step. */
  lemma AcceptRefinesLog(c: Cache, l: Log, window: int, clock: int,
                         nonce: string, ts: int, now: int, writeOk: bool)
    requires Refines(c, l, window, clock) && clock <= now
    ensures AcceptStep(c, window, nonce, ts, now, writeOk).1 == LogStep(l, window, nonce, ts, now, writeOk).1
    ensures Refines(AcceptStep(c, window, nonce, ts, now, writeOk).0,
                    LogStep(l, window, nonce, ts, now, writeOk).0, window, now)
  {
    RepresentsLater(c.seen, l.entries, window, clock, now);
    RepresentsLater(c.disk, l.saved, window, clock, now);
    LiveMeansBlocked(c.seen, l.entries, window, nonce, now);
    if InWindow(window, ts, now) && !Blocked(l.entries, window, nonce, now) {
      RepresentsAppend(Live(c.seen, window, now), l.entries, window, Entry(nonce, ts, now));
    }
  }

  datatype Event = Try(nonce: string, ts: int, now: int, writeOk: bool) | Restart

  ghost function EndClock(events: seq<Event>, clock: int): int
    decreases events
  {
    if events == [] then clock
    else EndClock(events[1..], if events[0].Try? then events[0].now else clock)
  }

  ghost predicate ClockRuns(events: seq<Event>, clock: int)
    decreases events
  {
    events == [] ||
    match events[0]
    case Restart => ClockRuns(events[1..], clock)
    case Try(_, _, now, _) => clock <= now && ClockRuns(events[1..], now)
  }

  function CacheRun(c: Cache, window: int, events: seq<Event>): (Cache, seq<AcceptResult>)
    decreases events
  {
    if events == [] then (c, []) else
    match events[0]
    case Restart => CacheRun(c.(seen := c.disk), window, events[1..])
    case Try(nonce, ts, now, writeOk) =>
      var (c', r) := AcceptStep(c, window, nonce, ts, now, writeOk);
      var (end, rs) := CacheRun(c', window, events[1..]);
      (end, [r] + rs)
  }

  ghost function LogRun(l: Log, window: int, events: seq<Event>): (Log, seq<AcceptResult>)
    decreases events
  {
    if events == [] then (l, []) else
    match events[0]
    case Restart => LogRun(l.(entries := l.saved), window, events[1..])
    case Try(nonce, ts, now, writeOk) =>
      var (l', r) := LogStep(l, window, nonce, ts, now, writeOk);
      var (end, rs) := LogRun(l', window, events[1..]);
      (end, [r] + rs)
  }

  lemma {:induction false} CacheRunConcat(c: Cache, window: int, a: seq<Event>, b: seq<Event>)
    ensures CacheRun(c, window, a + b).0 == CacheRun(CacheRun(c, window, a).0, window, b).0
    decreases a
  {
    if a == [] {
      assert a + b == b;
    } else {
      assert (a + b)[0] == a[0] && (a + b)[1..] == a[1..] + b;
      match a[0]
      case Restart => CacheRunConcat(c.(seen := c.disk), window, a[1..], b);
      case Try(nonce, ts, now, writeOk) =>
        CacheRunConcat(AcceptStep(c, window, nonce, ts, now, writeOk).0, window, a[1..], b);
    }
  }

  lemma {:induction false} NoAcceptKeepsDisk(c: Cache, window: int, events: seq<Event>)
    requires Accepted !in CacheRun(c, window, events).1
    ensures CacheRun(c, window, events).0.disk == c.disk
    decreases events
  {
    if events != [] {
      match events[0]
      case Restart => NoAcceptKeepsDisk(c.(seen := c.disk), window, events[1..]);
      case Try(nonce, ts, now, writeOk) =>
        var (c', r) := AcceptStep(c, window, nonce, ts, now, writeOk);
        var rs := CacheRun(c', window, events[1..]).1;
        assert CacheRun(c, window, events).1 == [r] + rs;
        NoAcceptKeepsDisk(c', window, events[1..]);
    }
  }

  /** A write is a round trip: whatever calls and restarts follow, as long as none of them is
      accepted, the next restart reads back the memory that the last accepted call wrote. */
  lemma RestartReadsLastAccepted(c: Cache, window: int, before: seq<Event>, nonce: string, ts: int, now: int,
                                 writeOk: bool, after: seq<Event>)
    requires AcceptStep(CacheRun(c, window, before).0, window, nonce, ts, now, writeOk).1.Accepted?
    requires var c' := AcceptStep(CacheRun(c, window, before).0, window, nonce, ts, now, writeOk).0;
             Accepted !in CacheRun(c', window, after).1
    ensures var written := AcceptStep(CacheRun(c, window, before).0, window, nonce, ts, now, writeOk).0.seen;
            CacheRun(c, window, before + [Try(nonce, ts, now, writeOk)] + after + [Restart]).0 == Cache(written, written)
  {
    var e := Try(nonce, ts, now, writeOk);
    var c' := AcceptStep(CacheRun(c, window, before).0, window, nonce, ts, now, writeOk).0;
    CacheRunConcat(c, window, before, [e]);
    assert [e][1..] == [] && [Event.Restart][1..] == [];
    assert CacheRun(CacheRun(c, window, before).0, window, [e]).0 == c';
    CacheRunConcat(c, window, before + [e], after);
    CacheRunConcat(c, window, before + [e] + after, [Restart]);
    NoAcceptKeepsDisk(c', window, after);
  }

  /** Over every run of calls, failed writes and restarts under a clock that does not run
      backwards, the bounded cache gives the answers of the unbounded log. */
  lemma {:induction false} RunRefinesLog(c: Cache, l: Log, window: int, clock: int, events: seq<Event>)
    requires Refines(c, l, window, clock) && ClockRuns(events, clock)
    ensures CacheRun(c, window, events).1 == LogRun(l, window, events).1
    ensures Refines(CacheRun(c, window, events).0, LogRun(l, window, events).0, window, EndClock(events, clock))
    decreases events
  {
    if events != [] {
      match events[0]
      case Restart =>
        RunRefinesLog(c.(seen := c.disk), l.(entries := l.saved), window, clock, events[1..]);
      case Try(nonce, ts, now, writeOk) =>
        AcceptRefinesLog(c, l, window, clock, nonce, ts, now, writeOk);
        var c' := AcceptStep(c, window, nonce, ts, now, writeOk).0;
        var l' := LogStep(l, window, nonce, ts, now, writeOk).0;
        RunRefinesLog(c', l', window, now, events[1..]);
    }
  }

  ghost predicate WritesSucceed(events: seq<Event>) {
    forall e :: e in events && e.Try? ==> e.writeOk
  }

  // With no failed write the log is the list of accepted commands, and a restart loses none of them.
  lemma {:induction false} LogIsAcceptedHistory(entries: seq<Entry>, window: int, events: seq<Event>)
    requires WritesSucceed(events)
    ensures LogRun(Log(entries, entries), window, events).0 ==
            Log(entries + AcceptedEntries(events, LogRun(Log(entries, entries), window, events).1),
                entries + AcceptedEntries(events, LogRun(Log(entries, entries), window, events).1))
    decreases events
  {
    if events == [] {
      assert entries + [] == entries;
    } else {
      match events[0]
      case Restart =>
        LogIsAcceptedHistory(entries, window, events[1..]);
      case Try(nonce, ts, now, writeOk) =>
        assert events[0] in events;
        var (l', r) := LogStep(Log(entries, entries), window, nonce, ts, now, writeOk);
        LogIsAcceptedHistory(l'.entries, window, events[1..]);
        var rs := LogRun(l', window, events[1..]).1;
        assert ([r] + rs)[1..] == rs;
        assert entries + ([Entry(nonce, ts, now)] + AcceptedEntries(events[1..], rs)) ==
               entries + [Entry(nonce, ts, now)] + AcceptedEntries(events[1..], rs);
    }
  }

  ghost function AcceptedEntries(events: seq<Event>, results: seq<AcceptResult>): seq<Entry> {
    if events == [] then []
    else if events[0].Restart? then AcceptedEntries(events[1..], results)
    else if results == [] then []
    else (if results[0].Accepted? then [Entry(events[0].nonce, events[0].ts, events[0].now)] else [])
         + AcceptedEntries(events[1..], results[1..])
  }

  /** After any run of calls and restarts in which writes succeed, a call is accepted exactly
      when its timestamp is in the window, its nonce is well formed, and no command accepted
      earlier in the run with that nonce is still within the window. */
  lemma AcceptsExactlyFresh(window: int, clock: int, events: seq<Event>, nonce: string, ts: int, now: int)
    requires ClockRuns(events, clock) && WritesSucceed(events) && EndClock(events, clock) <= now
    ensures var (c, results) := CacheRun(Cache(map[], map[]), window, events);
            AcceptStep(c, window, nonce, ts, now, true).1.Accepted? <==>
            && InWindow(window, ts, now)
            && WellFormedNonce(nonce)
            && !Blocked(AcceptedEntries(events, results), window, nonce, now)
  {
    var empty := Cache(map[], map[]);
    RunRefinesLog(empty, Log([], []), window, clock, events);
    LogIsAcceptedHistory([], window, events);
    var (c, results) := CacheRun(empty, window, events);
    assert [] + AcceptedEntries(events, results) == AcceptedEntries(events, results);
    AcceptRefinesLog(c, LogRun(Log([], []), window, events).0, window, EndClock(events, clock), nonce, ts, now, true);
  }

  /** The characters of a nonce, one by one: the ASCII letters and digits, and of the rest of
      Latin-1 the letters and the raised and fractional digits. */
  lemma NonceCharacters(c: char)
    ensures var n := c as int;
            && (n < 128 ==> (Alnum(c) <==> 48 <= n <= 57 || 65 <= n <= 90 || 97 <= n <= 122))
            && (128 <= n < 192 ==> (Alnum(c) <==> n in {170, 178, 179, 181, 185, 186, 188, 189, 190}))
            && (192 <= n < 256 ==> (Alnum(c) <==> n !in {215, 247}))
  {
  }

  // An accepted command with this nonce has not left the window.
  ghost predicate StillLive(accepted: seq<Entry>, window: int, nonce: string, now: int) {
    exists e :: e in accepted && e.nonce == nonce && now - e.ts <= window
  }

  // Ten digits and twice twenty-six letters.
  predicate PlainNonce(nonce: string) {
    16 <= |nonce| <= 128 &&
    forall i :: 0 <= i < |nonce| ==>
      var c := nonce[i] as int; 48 <= c <= 57 || 65 <= c <= 90 || 97 <= c <= 122
  }

  predicate HasBadCharacter(nonce: string) {
    exists i :: 0 <= i < |nonce| &&
      var c := nonce[i] as int; c < 48 || 57 < c < 65 || 90 < c < 97 || 122 < c < 170
  }

  /** The same with the arithmetic and the characters written out: after any run, a call no more
      than the window early or late, with a nonce of 16 to 128 plain letters and digits that no
      accepted command still in the window carries, is accepted; and one outside the window, with
      a nonce of another length, with a character that is no letter or digit, or with a nonce that
      is still live, is not. */
  lemma AcceptsWrittenOut(window: int, clock: int, events: seq<Event>, nonce: string, ts: int, now: int)
    requires ClockRuns(events, clock) && WritesSucceed(events) && EndClock(events, clock) <= now
    ensures var (c, results) := CacheRun(Cache(map[], map[]), window, events);
            var r := AcceptStep(c, window, nonce, ts, now, true).1;
            var live := StillLive(AcceptedEntries(events, results), window, nonce, now);
            && (ts - window <= now <= ts + window && PlainNonce(nonce) && !live ==> r == Accepted)
            && (now < ts - window || ts + window < now ==> r != Accepted)
            && (|nonce| < 16 || |nonce| > 128 || HasBadCharacter(nonce) || live ==> r != Accepted)
  {
    AcceptsExactlyFresh(window, clock, events, nonce, ts, now);
    var accepted := AcceptedEntries(events, CacheRun(Cache(map[], map[]), window, events).1);
    BlockedIsLive(accepted, window, nonce, now);
    if HasBadCharacter(nonce) {
      var i :| 0 <= i < |nonce| && var c := nonce[i] as int; c < 48 || 57 < c < 65 || 90 < c < 97 || 122 < c < 170;
      assert nonce[i] in nonce && !Alnum(nonce[i]);
    }
  }

  lemma BlockedIsLive(accepted: seq<Entry>, window: int, nonce: string, now: int)
    ensures Blocked(accepted, window, nonce, now) <==> StillLive(accepted, window, nonce, now)
  {
    if Blocked(accepted, window, nonce, now) {
      var i :| 0 <= i < |accepted| && Blocks(accepted[i], window, nonce, now);
      assert accepted[i] in accepted;
    }
    if StillLive(accepted, window, nonce, now) {
      var e :| e in accepted && e.nonce == nonce && now - e.ts <= window;
      var i :| 0 <= i < |accepted| && accepted[i] == e;
      assert Blocks(accepted[i], window, nonce, now);
    }
  }

  /** With the agent's own window a first command is good for five minutes either way. */
  lemma FiveMinutesEitherWay(nonce: string, ts: int, now: int)
    requires PlainNonce(nonce)
    ensures AcceptStep(Cache(map[], map[]), WINDOW, nonce, ts, now, true).1.Accepted? <==> ts - 300 <= now <= ts + 300
  {
    AcceptsWrittenOut(WINDOW, now, [], nonce, ts, now);
  }

  // ---------------------------------------------------------------------------
  // Memory against disk, and the size of the cache
  // ---------------------------------------------------------------------------

  ghost predicate MemoryWithinDisk(c: Cache, window: int, now: int) {
    && (forall n :: n in c.seen ==> n in c.disk && c.disk[n] == c.seen[n])
    && (forall n :: n in c.disk && n !in c.seen ==> now - c.disk[n] > window)
  }

  /** While writes succeed, memory is part of disk and what only disk holds has expired. */
  lemma {:induction false} MemoryStaysWithinDisk(c: Cache, window: int, clock: int, events: seq<Event>)
    requires MemoryWithinDisk(c, window, clock) && ClockRuns(events, clock) && WritesSucceed(events)
    ensures MemoryWithinDisk(CacheRun(c, window, events).0, window, EndClock(events, clock))
    decreases events
  {
    if events != [] {
      match events[0]
      case Restart =>
        MemoryStaysWithinDisk(c.(seen := c.disk), window, clock, events[1..]);
      case Try(nonce, ts, now, writeOk) =>
        assert events[0] in events;
        var c' := AcceptStep(c, window, nonce, ts, now, writeOk).0;
        MemoryStaysWithinDisk(c', window, now, events[1..]);
    }
  }

  ghost function NoncesSince(entries: seq<Entry>, start: int): set<string> {
    set i | 0 <= i < |entries| && entries[i].at >= start :: entries[i].nonce
  }

  function CountSince(entries: seq<Entry>, start: int): nat {
    if entries == [] then 0
    else CountSince(entries[..|entries| - 1], start) + if entries[|entries| - 1].at >= start then 1 else 0
  }

  lemma {:induction false} FewerNoncesThanEntries(entries: seq<Entry>, start: int)
    ensures |NoncesSince(entries, start)| <= CountSince(entries, start)
  {
    if entries != [] {
      var front, last := entries[..|entries| - 1], entries[|entries| - 1];
      FewerNoncesThanEntries(front, start);
      if last.at >= start {
        assert NoncesSince(entries, start) == NoncesSince(front, start) + {last.nonce};
      } else {
        assert NoncesSince(entries, start) == NoncesSince(front, start);
      }
    }
  }

  lemma SubsetIsNoLarger(a: set<string>, b: set<string>)
    requires a <= b
    ensures |a| <= |b|
  {
    assert b == a + (b - a);
  }

  lemma LiveNoncesAreRecent(seen: map<string, int>, entries: seq<Entry>, window: int, now: int)
    requires Represents(seen, entries, window, now)
    requires forall n :: n in seen ==> now - seen[n] <= window
    ensures seen.Keys <= NoncesSince(entries, now - 2 * window)
  {
    forall n | n in seen ensures n in NoncesSince(entries, now - 2 * window) {
      assert Logged(n, seen[n], entries);
      var i :| 0 <= i < |entries| && entries[i].nonce == n && entries[i].ts == seen[n];
      assert InWindow(window, entries[i].ts, entries[i].at);
    }
  }

  lemma AcceptLeavesLive(c: Cache, window: int, nonce: string, ts: int, now: int, writeOk: bool)
    requires InWindow(window, ts, now) && WellFormedNonce(nonce)
    ensures var seen := AcceptStep(c, window, nonce, ts, now, writeOk).0.seen;
            forall n :: n in seen ==> now - seen[n] <= window
  {
  }

  // When memory was last pruned, and when the prune that disk holds was made.
  datatype Marks = Marks(memory: int, disk: int)

  function MarksAfter(c: Cache, window: int, events: seq<Event>, k: Marks): Marks
    decreases events
  {
    if events == [] then k else
    match events[0]
    case Restart => MarksAfter(c.(seen := c.disk), window, events[1..], Marks(k.disk, k.disk))
    case Try(nonce, ts, now, writeOk) =>
      var (c', r) := AcceptStep(c, window, nonce, ts, now, writeOk);
      var k' := if !InWindow(window, ts, now) || !WellFormedNonce(nonce) then k
                else Marks(now, if r.Accepted? then now else k.disk);
      MarksAfter(c', window, events[1..], k')
  }

  ghost predicate Recent(c: Cache, l: Log, window: int, k: Marks) {
    && c.seen.Keys <= NoncesSince(l.entries, k.memory - 2 * window)
    && c.disk.Keys <= NoncesSince(l.saved, k.disk - 2 * window)
  }

  lemma AcceptKeepsRecent(c: Cache, l: Log, window: int, clock: int, nonce: string, ts: int, now: int, writeOk: bool, k: Marks)
    requires Refines(c, l, window, clock) && clock <= now && Recent(c, l, window, k)
    ensures var (c', r) := AcceptStep(c, window, nonce, ts, now, writeOk);
            var l' := LogStep(l, window, nonce, ts, now, writeOk).0;
            if !InWindow(window, ts, now) || !WellFormedNonce(nonce) then Recent(c', l', window, k)
            else Recent(c', l', window, Marks(now, if r.Accepted? then now else k.disk))
  {
    AcceptRefinesLog(c, l, window, clock, nonce, ts, now, writeOk);
    if InWindow(window, ts, now) && WellFormedNonce(nonce) {
      AcceptLeavesLive(c, window, nonce, ts, now, writeOk);
      LiveNoncesAreRecent(AcceptStep(c, window, nonce, ts, now, writeOk).0.seen,
                          LogStep(l, window, nonce, ts, now, writeOk).0.entries, window, now);
    }
  }

  lemma {:induction false} RunKeepsRecent(c: Cache, l: Log, window: int, clock: int, events: seq<Event>, k: Marks)
    requires Refines(c, l, window, clock) && ClockRuns(events, clock) && Recent(c, l, window, k)
    ensures Recent(CacheRun(c, window, events).0, LogRun(l, window, events).0, window, MarksAfter(c, window, events, k))
    decreases events
  {
    if events != [] {
      match events[0]
      case Restart =>
        RunKeepsRecent(c.(seen := c.disk), l.(entries := l.saved), window, clock, events[1..], Marks(k.disk, k.disk));
      case Try(nonce, ts, now, writeOk) =>
        AcceptRefinesLog(c, l, window, clock, nonce, ts, now, writeOk);
        AcceptKeepsRecent(c, l, window, clock, nonce, ts, now, writeOk, k);
        var (c', r) := AcceptStep(c, window, nonce, ts, now, writeOk);
        var k' := if !InWindow(window, ts, now) || !WellFormedNonce(nonce) then k
                  else Marks(now, if r.Accepted? then now else k.disk);
        RunKeepsRecent(c', LogStep(l, window, nonce, ts, now, writeOk).0, window, now, events[1..], k');
    }
  }

  lemma RecentIsSmall(c: Cache, l: Log, window: int, k: Marks)
    requires Recent(c, l, window, k)
    ensures |c.seen| <= CountSince(l.entries, k.memory - 2 * window)
    ensures |c.disk| <= CountSince(l.saved, k.disk - 2 * window)
  {
    FewerNoncesThanEntries(l.entries, k.memory - 2 * window);
    FewerNoncesThanEntries(l.saved, k.disk - 2 * window);
    SubsetIsNoLarger(c.seen.Keys, NoncesSince(l.entries, k.memory - 2 * window));
    SubsetIsNoLarger(c.disk.Keys, NoncesSince(l.saved, k.disk - 2 * window));
  }

  /** At every point of every run, memory holds only nonces recorded within two windows of its
      last prune, and disk those within two windows of the prune it was written from; neither is
      larger than the number of recordings in that span. */
  lemma CacheBounded(window: int, clock: int, events: seq<Event>)
    requires ClockRuns(events, clock)
    ensures var c := CacheRun(Cache(map[], map[]), window, events).0;
            var l := LogRun(Log([], []), window, events).0;
            var k := MarksAfter(Cache(map[], map[]), window, events, Marks(clock, clock));
            && Recent(c, l, window, k)
            && |c.seen| <= CountSince(l.entries, k.memory - 2 * window)
            && |c.disk| <= CountSince(l.saved, k.disk - 2 * window)
  {
    var empty := Cache(map[], map[]);
    RunKeepsRecent(empty, Log([], []), window, clock, events, Marks(clock, clock));
    var c, l := CacheRun(empty, window, events).0, LogRun(Log([], []), window, events).0;
    var k := MarksAfter(empty, window, events, Marks(clock, clock));
    RecentIsSmall(c, l, window, k);
  }

  // ---------------------------------------------------------------------------
  // What an accepted command leaves behind: the facts admission builds on
  // ---------------------------------------------------------------------------

  ghost predicate Covers(c: Cache, window: int, now: int, nonce: string, ts: int) {
    now - ts <= window ==>
      && nonce in c.seen && c.seen[nonce] == ts
      && nonce in c.disk && c.disk[nonce] == ts
  }

  lemma CoverKept(c: Cache, window: int, clock: int, covered: string, coveredTs: int,
                  nonce: string, ts: int, now: int, writeOk: bool)
    requires Covers(c, window, clock, covered, coveredTs) && clock <= now
    ensures Covers(AcceptStep(c, window, nonce, ts, now, writeOk).0, window, now, covered, coveredTs)
    ensures AcceptStep(c, window, nonce, ts, now, writeOk).1.Accepted? && nonce == covered ==> now - coveredTs > window
  {
  }

  /** Why the clock must not run backwards: prune with a later clock, turn it back, and a
      command that was accepted is accepted again. */
  lemma ClockTurnedBackReplays(window: nat, t: int, nonce: string, other: string)
    requires WellFormedNonce(nonce) && WellFormedNonce(other) && nonce != other
    ensures var later := t + window + 1;
            var events := [Try(nonce, t, t, true), Try(other, later, later, true), Try(nonce, t, t, true)];
            CacheRun(Cache(map[], map[]), window, events).1 == [Accepted, Accepted, Accepted]
  {
    var later := t + window + 1;
    var e0, e1, e2 := Try(nonce, t, t, true), Try(other, later, later, true), Try(nonce, t, t, true);
    var empty := Cache(map[], map[]);
    var c1 := AcceptStep(empty, window, nonce, t, t, true).0;
    var c2 := AcceptStep(c1, window, other, later, later, true).0;
    assert c2.seen == map[other := later];
    assert nonce !in Live(c2.seen, window, t);
    assert [e0, e1, e2][1..] == [e1, e2] && [e1, e2][1..] == [e2] && [e2][1..] == [];
    assert CacheRun(c2, window, [e2]).1 == [Accepted];
    assert CacheRun(c1, window, [e1, e2]).1 == [Accepted, Accepted];
  }
}
