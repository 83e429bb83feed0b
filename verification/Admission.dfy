/** Signed command admission: identity, signature and replay guard acting together. */
module Admission {
  import opened Common
  import opened CanonicalRequest
  import Guard = ReplayGuard
  import Node = NodeIdentity

  // SHA-256, HMAC-SHA256 (section 2 of RFC 2104) and the integer parser, as arbitrary functions.
  datatype Env = Env(bodyHash: Bytes -> Line, mac: (Key, string) -> string, parseInt: string -> Option<int>)

  // The head of a request. Headers are empty when missing.
  datatype Head = Head(node: Line, timestamp: Line, nonce: Line, signature: Line, method_: Line, path: string)

  // 401, and the exceptions the handler does not turn into 401.
  datatype Outcome = Admitted | Unauthorized | ServerError

  predicate Ascii(s: string) {
    forall c :: c in s ==> c as int < 128
  }

  // What a signature covers.
  datatype Message = Message(method_: Line, path: string, timestamp: Line, nonce: Line, hash: Line)
  {
    function Text(): string {
      Canonical(method_, path, timestamp, nonce, hash)
    }

    predicate Same(m: Message) {
      Upper(method_) == Upper(m.method_) && this.(method_ := m.method_) == m
    }
  }

  function MessageOf(env: Env, head: Head, body: Bytes): Message {
    Message(head.method_, head.path, head.timestamp, head.nonce, env.bodyHash(body))
  }

  predicate HeadersPresent(head: Head) {
    head.node != "" && head.timestamp != "" && head.nonce != "" && head.signature != ""
  }

  // A request suspended until its body has arrived. It goes on with the key it has read.
  datatype Waiting = Waiting(head: Head, key: Key, ts: int)

  datatype Arrival = Answered(outcome: Outcome) | Awaits(waiting: Waiting)

  // The first segment, up to the await of the body.
  function ArriveStep(env: Env, cipherKey: Key, id: Node.Identity, head: Head): Arrival {
    if !HeadersPresent(head) then Answered(Unauthorized)
    else match Node.ReadKey(id, cipherKey)
      case Unusable => Answered(ServerError)
      case NoKey => Answered(Unauthorized)
      case HasKey(key) =>
        if head.node != id.nodeId then Answered(Unauthorized)
        else match env.parseInt(head.timestamp)
          case None => Answered(Unauthorized)
          case Some(ts) => Awaits(Waiting(head, key, ts))
  }

  // The second segment, from the body on.
  function CompleteStep(env: Env, cache: Guard.Cache, window: int, waiting: Waiting, body: Bytes,
                        now: int, writeOk: bool): (Guard.Cache, Outcome) {
    var head := waiting.head;
    // compare_digest raises TypeError on text that is not ASCII
    if !Ascii(head.signature) then (cache, ServerError)
    else if head.signature != env.mac(waiting.key, MessageOf(env, head, body).Text()) then (cache, Unauthorized)
    else
      var (cache', r) := Guard.AcceptStep(cache, window, head.nonce, waiting.ts, now, writeOk);
      (cache', match r
               case Accepted => Admitted
               case Rejected(_) => Unauthorized
               case WriteFailed => ServerError)
  }

  class ControlPlane {
    const env: Env
    const identity: Node.NodeIdentityStore
    const replays: Guard.ReplayGuard

    constructor (env: Env, identity: Node.NodeIdentityStore, replays: Guard.ReplayGuard)
      ensures this.env == env && this.identity == identity && this.replays == replays
    {
      this.env, this.identity, this.replays := env, identity, replays;
    }

    method Arrive(head: Head) returns (r: Arrival)
      ensures r == ArriveStep(env, identity.cipherKey, identity.file, head)
    {
      if head.node == "" || head.timestamp == "" || head.nonce == "" || head.signature == "" {
        return Answered(Unauthorized);
      }
      var key := identity.SigningKey();
      if key.Unusable? {
        return Answered(ServerError);
      }
      if key.NoKey? || head.node != identity.file.nodeId {
        return Answered(Unauthorized);
      }
      var timestamp := env.parseInt(head.timestamp);
      if timestamp.None? {
        return Answered(Unauthorized);
      }
      r := Awaits(Waiting(head, key.key, timestamp.value));
    }

    method Complete(waiting: Waiting, body: Bytes, now: int, writeOk: bool) returns (r: Outcome)
      modifies replays
      ensures (replays.State(), r) ==
              CompleteStep(env, old(replays.State()), replays.window, waiting, body, now, writeOk)
    {
      if !Ascii(waiting.head.signature) {
        return ServerError;
      }
      if waiting.head.signature != env.mac(waiting.key, MessageOf(env, waiting.head, body).Text()) {
        return Unauthorized;
      }
      var accepted := replays.Accept(waiting.head.nonce, waiting.ts, now, writeOk);
      r := if accepted.Accepted? then Admitted else if accepted.WriteFailed? then ServerError else Unauthorized;
    }
  }

  // ---------------------------------------------------------------------------
  // Which answer a request gets
  // ---------------------------------------------------------------------------

  // Both segments of one request: the pairing state is that of its arrival, the cache that of
  // its completion.
  function Answer(env: Env, cipherKey: Key, id: Node.Identity, cache: Guard.Cache, window: int,
                  head: Head, body: Bytes, now: int, writeOk: bool): Outcome {
    match ArriveStep(env, cipherKey, id, head)
    case Answered(outcome) => outcome
    case Awaits(waiting) => CompleteStep(env, cache, window, waiting, body, now, writeOk).1
  }

  // The head names a node that is paired, and a timestamp.
  predicate Addressed(env: Env, cipherKey: Key, id: Node.Identity, head: Head) {
    && HeadersPresent(head) && Node.ReadKey(id, cipherKey).HasKey? && head.node == id.nodeId
    && env.parseInt(head.timestamp).Some?
  }

  // Nothing is wrong with the request itself.
  predicate Acceptable(env: Env, cipherKey: Key, id: Node.Identity, cache: Guard.Cache, window: int,
                       head: Head, body: Bytes, now: int) {
    && Addressed(env, cipherKey, id, head) && Ascii(head.signature)
    && head.signature == env.mac(Node.ReadKey(id, cipherKey).key, MessageOf(env, head, body).Text())
    && Guard.InWindow(window, env.parseInt(head.timestamp).value, now) && Guard.WellFormedNonce(head.nonce)
    && head.nonce !in Guard.Live(cache.seen, window, now)
  }

  /** A request is admitted exactly when it is acceptable and the guard can record it. A refused
      request gets 401 unless its headers meet an unusable key, or its signature is not ASCII
      under an otherwise right address, or it is acceptable and the guard's write fails. */
  lemma RefusedWith401Exactly(env: Env, cipherKey: Key, id: Node.Identity, cache: Guard.Cache, window: int,
                              head: Head, body: Bytes, now: int, writeOk: bool)
    ensures var r := Answer(env, cipherKey, id, cache, window, head, body, now, writeOk);
            var acceptable := Acceptable(env, cipherKey, id, cache, window, head, body, now);
            && (r == Admitted <==> acceptable && writeOk)
            && (r != Admitted ==>
                  (r == Unauthorized <==>
                   && !(HeadersPresent(head) && Node.ReadKey(id, cipherKey).Unusable?)
                   && !(Addressed(env, cipherKey, id, head) && !Ascii(head.signature))
                   && !(acceptable && !writeOk)))
  {
  }

  /** Missing and wrong credentials do not always get the same answer: without its signature a
      request gets 401, and with a letter outside ASCII for a signature it does not, whatever the
      key, the body and the clock. */
  lemma WrongSignatureWithout401(env: Env, cipherKey: Key, id: Node.Identity, cache: Guard.Cache, window: int,
                                 head: Head, body: Bytes, now: int, writeOk: bool)
    requires Addressed(env, cipherKey, id, head)
    ensures Answer(env, cipherKey, id, cache, window, head.(signature := ""), body, now, writeOk) == Unauthorized
    ensures Answer(env, cipherKey, id, cache, window, head.(signature := [0xE9 as char]), body, now, writeOk) == ServerError
  {
    var wrong := [0xE9 as char];
    assert wrong[0] in wrong;
  }

  // ---------------------------------------------------------------------------
  // The two segments, written out
  // ---------------------------------------------------------------------------

  /** A head passes exactly when its four headers are there, the node's box opens to a 32-byte key,
      it names this node, and its timestamp is a number; it is then checked under that very key. A
      box that does not open is the one other thing that is not a 401. */
  lemma HeadPassesExactly(env: Env, cipherKey: Key, id: Node.Identity, head: Head)
    ensures var present := head.node != "" && head.timestamp != "" && head.nonce != "" && head.signature != "";
            var opens := id.keyEnc.Some? && id.keyEnc.value.cipherKey == cipherKey
                         && id.keyEnc.value.aad == "node-signing:" + id.nodeId && |id.keyEnc.value.payload| == 32;
            var r := ArriveStep(env, cipherKey, id, head);
            && (r.Awaits? <==> present && opens && head.node == id.nodeId && env.parseInt(head.timestamp).Some?)
            && (r.Awaits? ==> r.waiting == Waiting(head, id.keyEnc.value.payload, env.parseInt(head.timestamp).value))
            && (r == Answered(ServerError) <==> present && id.keyEnc.Some? && !opens)
            && r != Answered(Admitted)
  {
  }

  // The text a panel signs, with the method's letters raised.
  function SignedText(env: Env, head: Head, raised: string, body: Bytes): string {
    raised + "\n" + head.path + "\n" + head.timestamp + "\n" + head.nonce + "\n" + env.bodyHash(body)
  }

  predicate PlainText(s: string) {
    forall i :: 0 <= i < |s| ==> s[i] as int < 128
  }

  /** The signature covers the body. A completion is admitted only if the signature is the tag of
      method, path, timestamp, nonce and the hash of the very body that came; and it is admitted if
      it is, in time, with a plain nonce no live command carries, and the write succeeds. */
  lemma SignatureCoversBody(env: Env, cache: Guard.Cache, window: int, waiting: Waiting, body: Bytes, now: int,
                            writeOk: bool, raised: string)
    requires Raises(raised, waiting.head.method_)
    ensures var head, ts := waiting.head, waiting.ts;
            var tag := env.mac(waiting.key, SignedText(env, head, raised, body));
            var r := CompleteStep(env, cache, window, waiting, body, now, writeOk).1;
            && (r == Admitted ==> head.signature == tag && PlainText(tag) && ts - window <= now <= ts + window && writeOk)
            && (PlainText(head.signature) && head.signature != tag ==> r == Unauthorized)
            && (!PlainText(head.signature) ==> r == ServerError)
            && ((&& head.signature == tag && PlainText(tag) && ts - window <= now <= ts + window
                 && Guard.PlainNonce(head.nonce) && (head.nonce in cache.seen ==> now - cache.seen[head.nonce] > window)
                 && writeOk)
                ==> r == Admitted)
  {
    var head := waiting.head;
    CanonicalWrittenOut(head.method_, head.path, head.timestamp, head.nonce, env.bodyHash(body), raised);
    if PlainText(head.signature) {
      forall c | c in head.signature ensures c as int < 128 {
        var i :| 0 <= i < |head.signature| && head.signature[i] == c;
      }
    } else {
      var i :| 0 <= i < |head.signature| && head.signature[i] as int >= 128;
      assert head.signature[i] in head.signature;
    }
  }

  /** Under a key whose tags tell texts apart no signature admits two bodies: whatever the caches and
      the clocks, the hashes of the bodies agree. */
  lemma OneBodyPerSignature(env: Env, window: int, waiting: Waiting, cache: Guard.Cache, body: Bytes, now: int, writeOk: bool,
                            cache': Guard.Cache, body': Bytes, now': int, writeOk': bool)
    requires forall t, t' :: env.mac(waiting.key, t) == env.mac(waiting.key, t') ==> t == t'
    requires CompleteStep(env, cache, window, waiting, body, now, writeOk).1 == Admitted
    requires CompleteStep(env, cache', window, waiting, body', now', writeOk').1 == Admitted
    ensures env.bodyHash(body) == env.bodyHash(body')
  {
    var raised := Upper(waiting.head.method_);
    SignatureCoversBody(env, cache, window, waiting, body, now, writeOk, raised);
    SignatureCoversBody(env, cache', window, waiting, body', now', writeOk', raised);
    var text, text' := SignedText(env, waiting.head, raised, body), SignedText(env, waiting.head, raised, body');
    assert text == text';
    var n := |text| - |env.bodyHash(body)|;
    assert text[n..] == env.bodyHash(body) && text'[n..] == env.bodyHash(body');
  }

  // ---------------------------------------------------------------------------
  // The node in its world: a panel that signs, a network that delivers heads and
  // bodies, an operator who pairs and resets, and restarts. epoch counts the
  // pairings; a request keeps the epoch it arrived in.
  // ---------------------------------------------------------------------------

  datatype Signing = Signing(key: Key, msg: Message, epoch: nat)

  datatype Pending = Pending(waiting: Waiting, epoch: nat)

  datatype Command = Command(key: Key, msg: Message, ts: int, at: int, epoch: nat)

  datatype System = System(identity: Node.Identity, cache: Guard.Cache, clock: int, issued: set<Key>,
                           epoch: nat, signed: set<Signing>, pending: map<nat, Pending>, admitted: seq<Command>)

  datatype Event =
    | Sign(key: Key, msg: Message)
    | Arrive(request: nat, head: Head)
    | Complete(request: nat, body: Bytes, now: int, writeOk: bool)
    | Pair(change: Node.Event)
    | Restart(hash: string)

  datatype World = World(env: Env, cipherKey: Key, window: int)

  function AfterArrive(w: World, s: System, request: nat, head: Head): System {
    match ArriveStep(w.env, w.cipherKey, s.identity, head)
    case Answered(_) => s.(pending := s.pending - {request})
    case Awaits(waiting) => s.(pending := s.pending[request := Pending(waiting, s.epoch)])
  }

  function CommandOf(w: World, p: Pending, body: Bytes, now: int): Command {
    Command(p.waiting.key, MessageOf(w.env, p.waiting.head, body), p.waiting.ts, now, p.epoch)
  }

  function AfterComplete(w: World, s: System, request: nat, body: Bytes, now: int, writeOk: bool): System {
    if request !in s.pending then s.(clock := now)
    else
      var p := s.pending[request];
      var (cache', r) := CompleteStep(w.env, s.cache, w.window, p.waiting, body, now, writeOk);
      s.(cache := cache', clock := now, pending := s.pending - {request},
         admitted := if r.Admitted? then s.admitted + [CommandOf(w, p, body, now)] else s.admitted)
  }

  function AfterPair(w: World, s: System, change: Node.Event): System {
    var s' := s.(identity := Node.Next(s.identity, w.cipherKey, change));
    if Node.Commits(s.identity, change) then s'.(issued := s.issued + {change.key}, epoch := s.epoch + 1) else s'
  }

  function Next(w: World, s: System, e: Event): System {
    match e
    case Sign(key, msg) => s.(signed := s.signed + {Signing(key, msg, s.epoch)})
    case Arrive(request, head) => AfterArrive(w, s, request, head)
    case Complete(request, body, now, writeOk) => AfterComplete(w, s, request, body, now, writeOk)
    case Pair(change) => AfterPair(w, s, change)
    case Restart(hash) =>
      s.(identity := Node.OpenFile(Some(s.identity), hash, ""), cache := s.cache.(seen := s.cache.disk), pending := map[])
  }

  function Run(w: World, s: System, events: seq<Event>): System {
    if events == [] then s else Next(w, Run(w, s, events[..|events| - 1]), events[|events| - 1])
  }

  function Start(id: Node.Identity, clock: int): System {
    System(id, Guard.Cache(map[], map[]), clock, {}, 0, {}, map[], [])
  }

  // ---------------------------------------------------------------------------
  // At most once: needs only that the clock does not run backwards
  // ---------------------------------------------------------------------------

  predicate InOrder(s: System, e: Event) {
    e.Complete? ==> s.clock <= e.now
  }

  predicate ClockRuns(w: World, s: System, events: seq<Event>) {
    events == [] ||
    var front := events[..|events| - 1];
    ClockRuns(w, s, front) && InOrder(Run(w, s, front), events[|events| - 1])
  }

  ghost predicate CommandOk(w: World, s: System, c: Command) {
    && c.at <= s.clock
    && w.env.parseInt(c.msg.timestamp) == Some(c.ts)
    && Guard.InWindow(w.window, c.ts, c.at)
    && Guard.Covers(s.cache, w.window, s.clock, c.msg.nonce, c.ts)
  }

  // A nonce is used again only after every command that used it before has left the window.
  ghost predicate NoncesSpaced(w: World, admitted: seq<Command>) {
    forall i, j :: 0 <= i < j < |admitted| && admitted[i].msg.nonce == admitted[j].msg.nonce ==>
      admitted[j].at - admitted[i].ts > w.window
  }

  ghost predicate PendingParsed(w: World, s: System) {
    forall request :: request in s.pending ==>
      w.env.parseInt(s.pending[request].waiting.head.timestamp) == Some(s.pending[request].waiting.ts)
  }

  ghost predicate Guarded(w: World, s: System) {
    && (forall i :: 0 <= i < |s.admitted| ==> CommandOk(w, s, s.admitted[i]))
    && NoncesSpaced(w, s.admitted)
    && PendingParsed(w, s)
  }

  lemma CompleteKeepsGuarded(w: World, s: System, request: nat, body: Bytes, now: int, writeOk: bool)
    requires Guarded(w, s) && s.clock <= now
    ensures Guarded(w, AfterComplete(w, s, request, body, now, writeOk))
  {
    var s' := AfterComplete(w, s, request, body, now, writeOk);
    if request in s.pending {
      var waiting := s.pending[request].waiting;
      forall i | 0 <= i < |s.admitted|
        ensures CommandOk(w, s', s.admitted[i])
        ensures |s'.admitted| > |s.admitted| && s.admitted[i].msg.nonce == waiting.head.nonce ==>
                  now - s.admitted[i].ts > w.window
      {
        var c := s.admitted[i];
        Guard.CoverKept(s.cache, w.window, s.clock, c.msg.nonce, c.ts, waiting.head.nonce, waiting.ts, now, writeOk);
      }
    }
  }

  lemma StepKeepsGuarded(w: World, s: System, e: Event)
    requires Guarded(w, s) && InOrder(s, e)
    ensures Guarded(w, Next(w, s, e))
  {
    if e.Complete? {
      CompleteKeepsGuarded(w, s, e.request, e.body, e.now, e.writeOk);
    } else {
      var s' := Next(w, s, e);
      forall i | 0 <= i < |s.admitted| ensures CommandOk(w, s', s.admitted[i]) {
        assert CommandOk(w, s, s.admitted[i]);
      }
    }
  }

  lemma {:induction false} RunKeepsGuarded(w: World, id: Node.Identity, clock: int, events: seq<Event>)
    requires ClockRuns(w, Start(id, clock), events)
    ensures Guarded(w, Run(w, Start(id, clock), events))
  {
    if events != [] {
      var front := events[..|events| - 1];
      RunKeepsGuarded(w, id, clock, front);
      StepKeepsGuarded(w, Run(w, Start(id, clock), front), events[|events| - 1]);
    }
  }

  /** No signed message is admitted twice, over every run of signing, arriving heads and bodies,
      pairing changes between them, failed writes and restarts, under a clock that does not run
      backwards. */
  lemma AdmittedAtMostOnce(w: World, id: Node.Identity, clock: int, events: seq<Event>)
    requires ClockRuns(w, Start(id, clock), events)
    ensures var admitted := Run(w, Start(id, clock), events).admitted;
            forall i, j :: 0 <= i < j < |admitted| ==> !admitted[i].msg.Same(admitted[j].msg)
  {
    RunKeepsGuarded(w, id, clock, events);
    var s := Run(w, Start(id, clock), events);
    forall i, j | 0 <= i < j < |s.admitted| ensures !s.admitted[i].msg.Same(s.admitted[j].msg) {
      assert CommandOk(w, s, s.admitted[i]) && CommandOk(w, s, s.admitted[j]);
    }
  }

  // ---------------------------------------------------------------------------
  // Only what was signed: needs that tags are not forged and keys are fresh
  // ---------------------------------------------------------------------------

  ghost predicate Signed(s: System, key: Key, text: string) {
    exists g :: g in s.signed && g.key == key && g.msg.Text() == text
  }

  // No one makes a tag under a key this node issued except by signing with it.
  ghost predicate Unforged(w: World, s: System, tag: string) {
    forall k, text :: k in s.issued && w.env.mac(k, text) == tag ==> Signed(s, k, text)
  }

  ghost predicate FreshKey(s: System, key: Key) {
    key !in s.issued && forall g :: g in s.signed ==> g.key != key
  }

  ghost predicate Honest(w: World, s: System, e: Event) {
    match e
    case Arrive(_, head) => Unforged(w, s, head.signature)
    case Pair(change) => change.Register? ==> FreshKey(s, change.key)
    case _ => true
  }

  ghost predicate HonestRun(w: World, s: System, events: seq<Event>) {
    events == [] ||
    var front := events[..|events| - 1];
    HonestRun(w, s, front) && Honest(w, Run(w, s, front), events[|events| - 1])
  }

  ghost predicate WasSigned(s: System, c: Command) {
    exists g :: g in s.signed && g.key == c.key && g.msg.Same(c.msg) && g.epoch == c.epoch
  }

  ghost predicate SignedIn(s: System, key: Key, text: string, epoch: nat) {
    exists g :: g in s.signed && g.key == key && g.msg.Text() == text && g.epoch == epoch
  }

  // Whatever body comes, a suspended request can only pass for what was signed in its epoch.
  ghost predicate PendingSigned(w: World, s: System, p: Pending) {
    forall text :: w.env.mac(p.waiting.key, text) == p.waiting.head.signature ==>
      SignedIn(s, p.waiting.key, text, p.epoch)
  }

  ghost predicate IdentityOk(w: World, s: System) {
    match s.identity.keyEnc
    case None => true
    case Some(box) =>
      && box.cipherKey == w.cipherKey && box.aad == Node.SigningAad(s.identity.nodeId) && |box.payload| == 32
      && box.payload in s.issued
      && forall g :: g in s.signed && g.key == box.payload ==> g.epoch == s.epoch
  }

  ghost predicate AllSigned(w: World, s: System) {
    && IdentityOk(w, s)
    && (forall i :: 0 <= i < |s.admitted| ==> WasSigned(s, s.admitted[i]))
    && (forall request :: request in s.pending ==> PendingSigned(w, s, s.pending[request]))
  }

  lemma SignedTextNamesMessage(m: Message, m': Message)
    ensures m.Text() == m'.Text() <==> m.Same(m')
  {
    CanonicalInjective(m.method_, m.path, m.timestamp, m.nonce, m.hash,
                       m'.method_, m'.path, m'.timestamp, m'.nonce, m'.hash);
  }

  lemma StaysSigned(s: System, s': System, c: Command)
    requires WasSigned(s, c) && s.signed <= s'.signed
    ensures WasSigned(s', c)
  {
    var g :| g in s.signed && g.key == c.key && g.msg.Same(c.msg) && g.epoch == c.epoch;
    assert g in s'.signed;
  }

  lemma PendingStaysSigned(w: World, s: System, s': System, p: Pending)
    requires PendingSigned(w, s, p) && s.signed <= s'.signed
    ensures PendingSigned(w, s', p)
  {
    forall text | w.env.mac(p.waiting.key, text) == p.waiting.head.signature
      ensures SignedIn(s', p.waiting.key, text, p.epoch)
    {
      assert SignedIn(s, p.waiting.key, text, p.epoch);
      var g :| g in s.signed && g.key == p.waiting.key && g.msg.Text() == text && g.epoch == p.epoch;
      assert g in s'.signed;
    }
  }

  lemma ArriveKeepsSigned(w: World, s: System, request: nat, head: Head)
    requires AllSigned(w, s) && Unforged(w, s, head.signature)
    ensures AllSigned(w, AfterArrive(w, s, request, head))
  {
    var s' := AfterArrive(w, s, request, head);
    assert s'.signed == s.signed && s'.admitted == s.admitted && s'.identity == s.identity;
    forall i | 0 <= i < |s.admitted| ensures WasSigned(s', s.admitted[i]) {
      StaysSigned(s, s', s.admitted[i]);
    }
    forall r | r in s'.pending ensures PendingSigned(w, s', s'.pending[r]) {
      if r == request {
        var p := s'.pending[r];
        assert p.waiting.key in s.issued;
        forall text | w.env.mac(p.waiting.key, text) == head.signature
          ensures SignedIn(s', p.waiting.key, text, p.epoch)
        {
          assert Signed(s, p.waiting.key, text);
          var g :| g in s.signed && g.key == p.waiting.key && g.msg.Text() == text;
          assert g.epoch == s.epoch && g in s'.signed;
        }
      } else {
        PendingStaysSigned(w, s, s', s.pending[r]);
      }
    }
  }

  lemma CompleteKeepsSigned(w: World, s: System, request: nat, body: Bytes, now: int, writeOk: bool)
    requires AllSigned(w, s)
    ensures AllSigned(w, AfterComplete(w, s, request, body, now, writeOk))
  {
    var s' := AfterComplete(w, s, request, body, now, writeOk);
    assert s'.signed == s.signed && s'.identity == s.identity;
    forall i | 0 <= i < |s.admitted| ensures WasSigned(s', s.admitted[i]) {
      StaysSigned(s, s', s.admitted[i]);
    }
    forall r | r in s'.pending ensures PendingSigned(w, s', s'.pending[r]) {
      PendingStaysSigned(w, s, s', s.pending[r]);
    }
    if |s'.admitted| > |s.admitted| {
      var p, c := s.pending[request], s'.admitted[|s.admitted|];
      assert PendingSigned(w, s, p) && w.env.mac(c.key, c.msg.Text()) == p.waiting.head.signature;
      assert SignedIn(s, c.key, c.msg.Text(), c.epoch);
      var g :| g in s.signed && g.key == c.key && g.msg.Text() == c.msg.Text() && g.epoch == c.epoch;
      SignedTextNamesMessage(g.msg, c.msg);
      assert WasSigned(s', c);
    }
  }

  lemma StepKeepsSigned(w: World, s: System, e: Event)
    requires AllSigned(w, s) && Honest(w, s, e)
    ensures AllSigned(w, Next(w, s, e))
  {
    if e.Arrive? {
      ArriveKeepsSigned(w, s, e.request, e.head);
    } else if e.Complete? {
      CompleteKeepsSigned(w, s, e.request, e.body, e.now, e.writeOk);
    } else {
      var s' := Next(w, s, e);
      forall i | 0 <= i < |s.admitted| ensures WasSigned(s', s.admitted[i]) {
        StaysSigned(s, s', s.admitted[i]);
      }
      forall r | r in s'.pending ensures PendingSigned(w, s', s'.pending[r]) {
        PendingStaysSigned(w, s, s', s.pending[r]);
      }
    }
  }

  lemma {:induction false} RunKeepsSigned(w: World, id: Node.Identity, clock: int, events: seq<Event>)
    requires id.keyEnc == None && HonestRun(w, Start(id, clock), events)
    ensures AllSigned(w, Run(w, Start(id, clock), events))
  {
    if events != [] {
      var front := events[..|events| - 1];
      RunKeepsSigned(w, id, clock, front);
      StepKeepsSigned(w, Run(w, Start(id, clock), front), events[|events| - 1]);
    }
  }

  /** Every admitted command was signed, with the very fields it was admitted with, under the key
      of the pairing that was in force when it arrived, and between that pairing and the next. */
  lemma AdmittedWasSigned(w: World, id: Node.Identity, clock: int, events: seq<Event>)
    requires id.keyEnc == None && HonestRun(w, Start(id, clock), events)
    ensures var s := Run(w, Start(id, clock), events);
            forall i :: 0 <= i < |s.admitted| ==> WasSigned(s, s.admitted[i])
  {
    RunKeepsSigned(w, id, clock, events);
  }

  // ---------------------------------------------------------------------------
  // Under which key
  // ---------------------------------------------------------------------------

  function PairingOf(e: Event): seq<Node.Event> {
    match e
    case Pair(change) => [change]
    case Restart(hash) => [Node.Reopen(hash)]
    case _ => []
  }

  // The pairing changes of a run, in order.
  function PairingEvents(events: seq<Event>): seq<Node.Event> {
    if events == [] then [] else PairingEvents(events[..|events| - 1]) + PairingOf(events[|events| - 1])
  }

  lemma StepPairs(w: World, s: System, e: Event)
    ensures Next(w, s, e).identity ==
            if PairingOf(e) == [] then s.identity else Node.Next(s.identity, w.cipherKey, PairingOf(e)[0])
  {
  }

  lemma PairingRunAppend(id: Node.Identity, cipherKey: Key, changes: seq<Node.Event>, more: seq<Node.Event>)
    requires |more| <= 1
    ensures Node.Run(id, cipherKey, changes + more) ==
            if more == [] then Node.Run(id, cipherKey, changes)
            else Node.Next(Node.Run(id, cipherKey, changes), cipherKey, more[0])
  {
    if more == [] {
      assert changes + more == changes;
    } else {
      assert (changes + more)[..|changes|] == changes;
    }
  }

  lemma {:induction false} IdentityFollowsPairingEvents(w: World, s: System, events: seq<Event>)
    ensures Run(w, s, events).identity == Node.Run(s.identity, w.cipherKey, PairingEvents(events))
  {
    if events != [] {
      var front, last := events[..|events| - 1], events[|events| - 1];
      IdentityFollowsPairingEvents(w, s, front);
      StepPairs(w, Run(w, s, front), last);
      PairingRunAppend(s.identity, w.cipherKey, PairingEvents(front), PairingOf(last));
    }
  }

  lemma {:induction false} RunConcat(w: World, s: System, a: seq<Event>, b: seq<Event>)
    ensures Run(w, s, a + b) == Run(w, Run(w, s, a), b)
  {
    if b == [] {
      assert a + b == a;
    } else {
      assert (a + b)[..|a + b| - 1] == a + b[..|b| - 1];
      RunConcat(w, s, a, b[..|b| - 1]);
    }
  }

  // Nothing but its own completion ends the wait of this request.
  predicate Undisturbed(e: Event, request: nat) {
    !e.Restart? && (e.Arrive? || e.Complete? ==> e.request != request)
  }

  ghost predicate AllUndisturbed(events: seq<Event>, request: nat) {
    forall e :: e in events ==> Undisturbed(e, request)
  }

  lemma {:induction false} StaysPending(w: World, s: System, events: seq<Event>, request: nat)
    requires AllUndisturbed(events, request)
    ensures var s' := Run(w, s, events);
            && (request in s'.pending <==> request in s.pending)
            && (request in s.pending ==> s'.pending[request] == s.pending[request])
  {
    if events != [] {
      StaysPending(w, s, events[..|events| - 1], request);
      assert Undisturbed(events[|events| - 1], request);
    }
  }

  // One request in a run: what came before its head, and what came between head and body.
  function Arrived(before: seq<Event>, request: nat, head: Head, between: seq<Event>): seq<Event> {
    before + [Arrive(request, head)] + between
  }

  function AtArrival(w: World, id: Node.Identity, clock: int, before: seq<Event>): System {
    Run(w, Start(id, clock), before)
  }

  function AtCompletion(w: World, id: Node.Identity, clock: int, before: seq<Event>, request: nat, head: Head,
                        between: seq<Event>): System {
    Run(w, Start(id, clock), Arrived(before, request, head, between))
  }

  lemma ArrivedRuns(w: World, id: Node.Identity, clock: int, before: seq<Event>, request: nat, head: Head,
                    between: seq<Event>)
    ensures AtCompletion(w, id, clock, before, request, head, between)
            == Run(w, AfterArrive(w, AtArrival(w, id, clock, before), request, head), between)
  {
    var first := before + [Arrive(request, head)];
    RunConcat(w, Start(id, clock), first, between);
    assert first[..|first| - 1] == before;
  }

  // The wait holds what was true when the head arrived.
  lemma WaitsWithArrivalKey(w: World, id: Node.Identity, clock: int, before: seq<Event>, request: nat, head: Head,
                            between: seq<Event>)
    requires Node.Shows(id, w.cipherKey, Node.Pairing.Unpaired) && AllUndisturbed(between, request)
    ensures var s0 := AtArrival(w, id, clock, before);
            var s := AtCompletion(w, id, clock, before, request, head, between);
            var latest := Node.Latest(id, w.cipherKey, PairingEvents(before));
            var ts := w.env.parseInt(head.timestamp);
            && s0.identity.nodeId == id.nodeId && Node.Shows(s0.identity, w.cipherKey, latest)
            && (request in s.pending <==>
                  HeadersPresent(head) && latest.Paired? && head.node == id.nodeId && ts.Some?)
            && (request in s.pending ==>
                  s.pending[request] == Pending(Waiting(head, latest.key, ts.value), s0.epoch))
  {
    ArrivedRuns(w, id, clock, before, request, head, between);
    IdentityFollowsPairingEvents(w, Start(id, clock), before);
    Node.RunShowsLatestPairing(id, w.cipherKey, PairingEvents(before));
    StaysPending(w, AfterArrive(w, AtArrival(w, id, clock, before), request, head), between, request);
  }

  /** Whatever happens between its head and its body, the key a command is admitted under is the
      key of the registration that was the latest in force when its head arrived. */
  lemma AdmittedUnderPairingAtArrival(w: World, id: Node.Identity, clock: int, before: seq<Event>, request: nat,
                                      head: Head, between: seq<Event>, body: Bytes, now: int, writeOk: bool)
    requires Node.Shows(id, w.cipherKey, Node.Pairing.Unpaired) && AllUndisturbed(between, request)
    ensures var s := AtCompletion(w, id, clock, before, request, head, between);
            var s' := AfterComplete(w, s, request, body, now, writeOk);
            var latest := Node.Latest(id, w.cipherKey, PairingEvents(before));
            |s'.admitted| > |s.admitted| ==>
              && latest.Paired? && head.node == id.nodeId
              && head.signature == w.env.mac(latest.key, MessageOf(w.env, head, body).Text())
              && s'.admitted == s.admitted + [Command(latest.key, MessageOf(w.env, head, body),
                                                      s'.admitted[|s.admitted|].ts, now,
                                                      AtArrival(w, id, clock, before).epoch)]
  {
    WaitsWithArrivalKey(w, id, clock, before, request, head, between);
  }

  /** In every run a request that is not admitted gets 401, except in two cases: it is addressed
      right under the pairing in force at its arrival and its signature is not ASCII; or it is
      acceptable at its completion and the guard's write fails. */
  lemma RunAnswersExactly(w: World, id: Node.Identity, clock: int, before: seq<Event>, request: nat, head: Head,
                          between: seq<Event>, body: Bytes, now: int, writeOk: bool)
    requires Node.Shows(id, w.cipherKey, Node.Pairing.Unpaired) && AllUndisturbed(between, request)
    ensures var id0 := AtArrival(w, id, clock, before).identity;
            var s := AtCompletion(w, id, clock, before, request, head, between);
            var r := Answer(w.env, w.cipherKey, id0, s.cache, w.window, head, body, now, writeOk);
            && (r == Admitted <==> |AfterComplete(w, s, request, body, now, writeOk).admitted| > |s.admitted|)
            && (r == ServerError <==>
                  || (Addressed(w.env, w.cipherKey, id0, head) && !Ascii(head.signature))
                  || (Acceptable(w.env, w.cipherKey, id0, s.cache, w.window, head, body, now) && !writeOk))
  {
    WaitsWithArrivalKey(w, id, clock, before, request, head, between);
  }

  // A register, revoke or reset that takes effect.
  predicate Repairs(id: Node.Identity, e: Event) {
    e.Pair? && match e.change
               case Register(_, _, _, _, _, _) => Node.Commits(id, e.change)
               case Revoke(fault) => !fault.WriteFails?
               case Reset(_, fault) => !fault.WriteFails?
               case Reopen(_) => false
  }

  function PairingChanges(w: World, s: System, events: seq<Event>): nat {
    if events == [] then 0
    else
      var front, last := events[..|events| - 1], events[|events| - 1];
      PairingChanges(w, s, front) + if Repairs(Run(w, s, front).identity, last) then 1 else 0
  }

  // No registration draws a key that was issued before.
  ghost predicate FreshKeys(w: World, s: System, events: seq<Event>) {
    events == [] ||
    var front, last := events[..|events| - 1], events[|events| - 1];
    && FreshKeys(w, s, front)
    && (last.Pair? && last.change.Register? ==> last.change.key !in Run(w, s, front).issued)
  }

  ghost predicate KeyIssued(w: World, s: System) {
    var key := Node.ReadKey(s.identity, w.cipherKey);
    key.HasKey? ==> key.key in s.issued
  }

  lemma {:induction false} RunKeepsKeyIssued(w: World, s: System, events: seq<Event>)
    requires KeyIssued(w, s)
    ensures KeyIssued(w, Run(w, s, events))
  {
    if events != [] {
      var front := events[..|events| - 1];
      RunKeepsKeyIssued(w, s, front);
      StepMovesKey(w, Run(w, s, front), events[|events| - 1]);
    }
  }

  // Only an effective change moves the key, and to nothing or to the key it registers.
  lemma StepMovesKey(w: World, s: System, e: Event)
    ensures var before, after := Node.ReadKey(s.identity, w.cipherKey), Node.ReadKey(Next(w, s, e).identity, w.cipherKey);
            if !Repairs(s.identity, e) then after == before
            else after == if e.change.Register? then Node.HasKey(e.change.key) else Node.NoKey
    ensures s.issued <= Next(w, s, e).issued
  {
  }

  /** With fresh keys a key stays the node's until the first change of the pairing, and is never
      the node's again after it. */
  lemma {:induction false} KeyLastsUntilChange(w: World, s: System, events: seq<Event>, key: Key)
    requires Node.ReadKey(s.identity, w.cipherKey) == Node.HasKey(key) && key in s.issued
    requires FreshKeys(w, s, events)
    ensures var s' := Run(w, s, events);
            && key in s'.issued
            && (Node.ReadKey(s'.identity, w.cipherKey) == Node.HasKey(key) <==> PairingChanges(w, s, events) == 0)
  {
    if events != [] {
      var front := events[..|events| - 1];
      KeyLastsUntilChange(w, s, front, key);
      StepMovesKey(w, Run(w, s, front), events[|events| - 1]);
    }
  }

  /** The key a command is admitted under is that of the latest pairing at its admission exactly
      when no register, revoke or reset took effect between its head and its body. */
  lemma AdmittedUnderLatestPairingExactly(w: World, id: Node.Identity, clock: int, before: seq<Event>, request: nat,
                                          head: Head, between: seq<Event>, body: Bytes, now: int, writeOk: bool)
    requires Node.Shows(id, w.cipherKey, Node.Pairing.Unpaired) && AllUndisturbed(between, request)
    requires FreshKeys(w, AfterArrive(w, AtArrival(w, id, clock, before), request, head), between)
    requires var s := AtCompletion(w, id, clock, before, request, head, between);
             |AfterComplete(w, s, request, body, now, writeOk).admitted| > |s.admitted|
    ensures var s := AtCompletion(w, id, clock, before, request, head, between);
            var c := AfterComplete(w, s, request, body, now, writeOk).admitted[|s.admitted|];
            var latest := Node.Latest(id, w.cipherKey, PairingEvents(Arrived(before, request, head, between)));
            latest.Paired? && latest.key == c.key <==>
            PairingChanges(w, AfterArrive(w, AtArrival(w, id, clock, before), request, head), between) == 0
  {
    var s0 := AtArrival(w, id, clock, before);
    var s1, events := AfterArrive(w, s0, request, head), Arrived(before, request, head, between);
    WaitsWithArrivalKey(w, id, clock, before, request, head, between);
    ArrivedRuns(w, id, clock, before, request, head, between);
    RunKeepsKeyIssued(w, Start(id, clock), before);
    KeyLastsUntilChange(w, s1, between, Node.ReadKey(s0.identity, w.cipherKey).key);
    IdentityFollowsPairingEvents(w, Start(id, clock), events);
    Node.RunShowsLatestPairing(id, w.cipherKey, PairingEvents(events));
  }

  // The old panel's head arrives, the node is reset and paired with a new panel, the body follows.
  function Overtaken(hash: string, hash': string, panel: string, panel': string, key: Key, key': Key,
                     msg: Message, head: Head): seq<Event> {
    [Pair(Node.Register(hash, panel, key, 0, 0, Node.NoFault)), Sign(key, msg), Arrive(0, head),
     Pair(Node.Reset(hash', Node.NoFault)), Pair(Node.Register(hash', panel', key', 1, 0, Node.NoFault))]
  }

  lemma RunSnoc(w: World, s: System, events: seq<Event>, e: Event)
    ensures Run(w, s, events + [e]) == Next(w, Run(w, s, events), e)
    ensures HonestRun(w, s, events + [e]) <==> HonestRun(w, s, events) && Honest(w, Run(w, s, events), e)
  {
    assert (events + [e])[..|events|] == events;
  }

  // The state the overtaken request is completed in.
  ghost predicate IsOvertaken(w: World, s: System, panel': string, key: Key, key': Key, head: Head, ts: int) {
    && Node.ReadKey(s.identity, w.cipherKey) == Node.HasKey(key') && s.identity.panel == Some(panel')
    && s.cache == Guard.Cache(map[], map[]) && s.admitted == []
    && s.pending == map[0 := Pending(Waiting(head, key, ts), 1)]
  }

  lemma RegistersFirst(w: World, id: Node.Identity, clock: int, hash: string, panel: string, key: Key)
    requires id.keyEnc == None && id.tokenHash == hash != ""
    ensures var change := Node.Register(hash, panel, key, 0, 0, Node.NoFault);
            AfterPair(w, Start(id, clock), change) ==
            Start(Node.RegisterStep(id, w.cipherKey, hash, panel, key, 0, 0, Node.NoFault).0, clock)
            .(issued := {key}, epoch := 1)
  {
    assert Start(id, clock).issued + {key} == {key};
  }

  lemma FirstPanelRegisters(w: World, id: Node.Identity, clock: int, hash: string, panel: string, key: Key)
    requires id.keyEnc == None && id.tokenHash == hash != ""
    ensures var change := Node.Register(hash, panel, key, 0, 0, Node.NoFault);
            && HonestRun(w, Start(id, clock), [Pair(change)])
            && Run(w, Start(id, clock), [Pair(change)]) == AfterPair(w, Start(id, clock), change)
  {
    var e, s0 := Pair(Node.Register(hash, panel, key, 0, 0, Node.NoFault)), Start(id, clock);
    assert FreshKey(s0, key);
    assert [e][..0] == [] && [e][0] == e;
    assert Run(w, s0, []) == s0 && HonestRun(w, s0, []);
  }

  lemma FirstPanelSigns(w: World, id: Node.Identity, clock: int, hash: string, panel: string, key: Key, msg: Message)
    requires id.keyEnc == None && id.tokenHash == hash != ""
    ensures var first := [Pair(Node.Register(hash, panel, key, 0, 0, Node.NoFault)), Sign(key, msg)];
            && HonestRun(w, Start(id, clock), first)
            && Run(w, Start(id, clock), first) ==
               Start(Node.RegisterStep(id, w.cipherKey, hash, panel, key, 0, 0, Node.NoFault).0, clock)
               .(issued := {key}, epoch := 1, signed := {Signing(key, msg, 1)})
  {
    var register, s0 := Pair(Node.Register(hash, panel, key, 0, 0, Node.NoFault)), Start(id, clock);
    FirstPanelRegisters(w, id, clock, hash, panel, key);
    RegistersFirst(w, id, clock, hash, panel, key);
    RunSnoc(w, s0, [register], Sign(key, msg));
    assert [register] + [Sign(key, msg)] == [register, Sign(key, msg)];
    var s1 := Run(w, s0, [register]);
    assert s1.signed + {Signing(key, msg, s1.epoch)} == {Signing(key, msg, 1)};
  }

  lemma OvertakenRun(w: World, id: Node.Identity, clock: int, hash: string, hash': string, panel: string,
                     panel': string, key: Key, key': Key, head: Head, msg: Message)
    requires id.keyEnc == None && id.tokenHash == hash != "" && hash' != "" && key != key'
    requires HeadersPresent(head) && head.node == id.nodeId && w.env.parseInt(head.timestamp).Some?
    requires forall text :: w.env.mac(key, text) == head.signature <==> text == msg.Text()
    ensures var events := Overtaken(hash, hash', panel, panel', key, key', msg, head);
            && HonestRun(w, Start(id, clock), events)
            && IsOvertaken(w, Run(w, Start(id, clock), events), panel', key, key', head,
                           w.env.parseInt(head.timestamp).value)
  {
    var events, s0 := Overtaken(hash, hash', panel, panel', key, key', msg, head), Start(id, clock);
    FirstPanelSigns(w, id, clock, hash, panel, key, msg);
    var first := [events[0], events[1]];
    assert Signing(key, msg, 1) in Run(w, s0, first).signed;
    assert Signed(Run(w, s0, first), key, msg.Text());
    RunSnoc(w, s0, first, events[2]);
    RunSnoc(w, s0, first + [events[2]], events[3]);
    RunSnoc(w, s0, first + [events[2]] + [events[3]], events[4]);
    assert first + [events[2]] + [events[3]] + [events[4]] == events;
  }

  /** A key that has been reset away can still admit a command: its head arrived before the reset
      and its body after the next registration. */
  lemma OldKeyStillAdmits(w: World, id: Node.Identity, clock: int, hash: string, hash': string, panel: string,
                          panel': string, key: Key, key': Key, head: Head, body: Bytes, now: int)
    requires id.keyEnc == None && id.tokenHash == hash != "" && hash' != "" && key != key'
    requires HeadersPresent(head) && head.node == id.nodeId && Ascii(head.signature) && Guard.WellFormedNonce(head.nonce)
    requires w.env.parseInt(head.timestamp).Some? && Guard.InWindow(w.window, w.env.parseInt(head.timestamp).value, now)
    // head.signature is the tag of this command, and of nothing else under this key
    requires forall text :: w.env.mac(key, text) == head.signature <==> text == MessageOf(w.env, head, body).Text()
    ensures var msg := MessageOf(w.env, head, body);
            var events := Overtaken(hash, hash', panel, panel', key, key', msg, head);
            var s := Run(w, Start(id, clock), events);
            && HonestRun(w, Start(id, clock), events)
            && Node.ReadKey(s.identity, w.cipherKey) == Node.HasKey(key') && s.identity.panel == Some(panel')
            && AfterComplete(w, s, 0, body, now, true).admitted
               == [Command(key, msg, w.env.parseInt(head.timestamp).value, now, 1)]
  {
    OvertakenRun(w, id, clock, hash, hash', panel, panel', key, key', head, MessageOf(w.env, head, body));
  }

  // ---------------------------------------------------------------------------
  // Exactly which requests are admitted
  // ---------------------------------------------------------------------------

  ghost predicate WritesSucceed(events: seq<Event>) {
    forall e :: e in events && e.Complete? ==> e.writeOk
  }

  ghost predicate Recorded(admitted: seq<Command>, nonce: string, ts: int) {
    exists i :: 0 <= i < |admitted| && admitted[i].msg.nonce == nonce && admitted[i].ts == ts
  }

  // Every cached nonce is that of an admitted command.
  ghost predicate CacheIsAdmitted(s: System) {
    && (forall n :: n in s.cache.seen ==> Recorded(s.admitted, n, s.cache.seen[n]))
    && (forall n :: n in s.cache.disk ==> Recorded(s.admitted, n, s.cache.disk[n]))
  }

  lemma RecordedAppend(admitted: seq<Command>, c: Command, nonce: string, ts: int)
    requires Recorded(admitted, nonce, ts) || (c.msg.nonce == nonce && c.ts == ts)
    ensures Recorded(admitted + [c], nonce, ts)
  {
    var more := admitted + [c];
    if Recorded(admitted, nonce, ts) {
      var i :| 0 <= i < |admitted| && admitted[i].msg.nonce == nonce && admitted[i].ts == ts;
      assert more[i] == admitted[i];
    } else {
      assert more[|admitted|] == c;
    }
  }

  lemma StepKeepsCacheAdmitted(w: World, s: System, e: Event)
    requires CacheIsAdmitted(s) && (e.Complete? ==> e.writeOk)
    ensures CacheIsAdmitted(Next(w, s, e))
  {
    var s' := Next(w, s, e);
    if |s'.admitted| > |s.admitted| {
      var c := s'.admitted[|s.admitted|];
      forall n, ts | Recorded(s.admitted, n, ts) || (c.msg.nonce == n && c.ts == ts)
        ensures Recorded(s'.admitted, n, ts)
      {
        RecordedAppend(s.admitted, c, n, ts);
      }
    }
  }

  lemma {:induction false} RunKeepsCacheAdmitted(w: World, id: Node.Identity, clock: int, events: seq<Event>)
    requires WritesSucceed(events)
    ensures CacheIsAdmitted(Run(w, Start(id, clock), events))
  {
    if events != [] {
      var front := events[..|events| - 1];
      RunKeepsCacheAdmitted(w, id, clock, front);
      StepKeepsCacheAdmitted(w, Run(w, Start(id, clock), front), events[|events| - 1]);
    }
  }

  ghost predicate NonceInUse(w: World, admitted: seq<Command>, nonce: string, now: int) {
    exists i :: 0 <= i < |admitted| && admitted[i].msg.nonce == nonce && now - admitted[i].ts <= w.window
  }

  // The pruned cache blocks a nonce exactly while an admitted command that used it is in the window.
  lemma LiveIsInUse(w: World, s: System, nonce: string, now: int)
    requires Guarded(w, s) && CacheIsAdmitted(s) && s.clock <= now
    ensures nonce in Guard.Live(s.cache.seen, w.window, now) <==> NonceInUse(w, s.admitted, nonce, now)
  {
    if nonce in Guard.Live(s.cache.seen, w.window, now) {
      assert Recorded(s.admitted, nonce, s.cache.seen[nonce]);
    }
    if NonceInUse(w, s.admitted, nonce, now) {
      var i :| 0 <= i < |s.admitted| && s.admitted[i].msg.nonce == nonce && now - s.admitted[i].ts <= w.window;
      assert CommandOk(w, s, s.admitted[i]);
    }
  }

  /** While writes succeed, a request is admitted exactly when its headers are there, it is for
      this node, its signature is the tag of its own fields under the key of the pairing that was
      the latest when its head arrived, its timestamp is in the window at its completion, its
      nonce is well formed, and no command admitted by then with that nonce is in the window. */
  lemma AdmitsExactly(w: World, id: Node.Identity, clock: int, before: seq<Event>, request: nat, head: Head,
                      between: seq<Event>, body: Bytes, now: int)
    requires Node.Shows(id, w.cipherKey, Node.Pairing.Unpaired) && AllUndisturbed(between, request)
    requires var events := Arrived(before, request, head, between);
             ClockRuns(w, Start(id, clock), events) && WritesSucceed(events)
    requires AtCompletion(w, id, clock, before, request, head, between).clock <= now
    ensures var s := AtCompletion(w, id, clock, before, request, head, between);
            var latest := Node.Latest(id, w.cipherKey, PairingEvents(before));
            var ts := w.env.parseInt(head.timestamp);
            |AfterComplete(w, s, request, body, now, true).admitted| > |s.admitted| <==>
            && HeadersPresent(head) && latest.Paired? && head.node == id.nodeId
            && ts.Some? && Guard.InWindow(w.window, ts.value, now)
            && Ascii(head.signature) && head.signature == w.env.mac(latest.key, MessageOf(w.env, head, body).Text())
            && Guard.WellFormedNonce(head.nonce) && !NonceInUse(w, s.admitted, head.nonce, now)
  {
    var events, s := Arrived(before, request, head, between), AtCompletion(w, id, clock, before, request, head, between);
    RunKeepsGuarded(w, id, clock, events);
    RunKeepsCacheAdmitted(w, id, clock, events);
    LiveIsInUse(w, s, head.nonce, now);
    WaitsWithArrivalKey(w, id, clock, before, request, head, between);
  }
}
