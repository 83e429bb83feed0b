/** The pairing state of the node: one-time tokens, the sealed signing key, and its panel. */
module NodeIdentity {
  import opened Common

  function SigningAad(nodeId: string): string {
    "node-signing:" + nodeId
  }

  // identity.json. An empty tokenHash means no token is pending.
  datatype Identity = Identity(nodeId: string, tokenHash: string, keyEnc: Option<Sealed<Bytes>>,
                               panel: Option<string>, registeredAt: Option<int>)

  // The write of identity.json can fail, and so can the audit line appended after it.
  datatype Fault = NoFault | WriteFails | AuditFails

  datatype RegisterResult = Registered(key: Key) | BadToken | StorageError

  datatype KeyResult = NoKey | HasKey(key: Key) | Unusable

  function OpenFile(file: Option<Identity>, hash: string, freshId: string): Identity {
    match file
    case None => Identity(freshId, hash, None, None, None)
    case Some(id) => if hash != "" && id.tokenHash != hash then id.(tokenHash := hash) else id
  }

  function ReadKey(id: Identity, cipherKey: Key): KeyResult {
    match id.keyEnc
    case None => NoKey
    case Some(box) =>
      match Unseal(box, cipherKey, SigningAad(id.nodeId))
      case None => Unusable
      case Some(k) => if |k| == 32 then HasKey(k) else Unusable
  }

  // token has been hashed by the caller; key, salt and now are drawn from the system.
  function Claims(id: Identity, tokenHash: string): bool {
    id.tokenHash != "" && id.tokenHash == tokenHash
  }

  function RegisterStep(id: Identity, cipherKey: Key, tokenHash: string, panel: string,
                        key: Key, salt: nat, now: int, fault: Fault): (Identity, RegisterResult) {
    if !Claims(id, tokenHash) then (id, BadToken)
    else if fault.WriteFails? then (id, StorageError)
    else
      (id.(tokenHash := "", keyEnc := Some(Sealed(cipherKey, salt, key, SigningAad(id.nodeId))),
           panel := Some(panel), registeredAt := Some(now)),
       if fault.AuditFails? then StorageError else Registered(key))
  }

  function ClearPairing(id: Identity): Identity {
    id.(keyEnc := None, panel := None, registeredAt := None)
  }

  class NodeIdentityStore {
    const cipherKey: Key
    var file: Identity

    constructor (cipherKey: Key, file: Option<Identity>, hash: string, freshId: string)
      ensures this.cipherKey == cipherKey && this.file == OpenFile(file, hash, freshId)
    {
      this.cipherKey := cipherKey;
      match file {
        case None =>
          this.file := Identity(freshId, hash, None, None, None);
        case Some(id) =>
          this.file := if hash != "" && id.tokenHash != hash then id.(tokenHash := hash) else id;
      }
    }

    method SigningKey() returns (r: KeyResult)
      ensures r == ReadKey(file, cipherKey)
    {
      if file.keyEnc.None? {
        return NoKey;
      }
      var unsealed := Unseal(file.keyEnc.value, cipherKey, SigningAad(file.nodeId));
      if unsealed.None? || |unsealed.value| != 32 {
        return Unusable;
      }
      r := HasKey(unsealed.value);
    }

    // Replaces the file whole, or raises and leaves it alone.
    method Write(state: Identity, fault: Fault) returns (ok: bool)
      modifies this
      ensures ok == !fault.WriteFails? && file == if ok then state else old(file)
    {
      ok := !fault.WriteFails?;
      if ok {
        file := state;
      }
    }

    method Register(tokenHash: string, panel: string, key: Key, salt: nat, now: int, fault: Fault)
      returns (r: RegisterResult)
      modifies this
      ensures (file, r) == RegisterStep(old(file), cipherKey, tokenHash, panel, key, salt, now, fault)
    {
      var state := file;
      if state.tokenHash == "" || state.tokenHash != tokenHash {
        return BadToken;
      }
      state := state.(tokenHash := "");
      state := state.(keyEnc := Some(Sealed(cipherKey, salt, key, SigningAad(state.nodeId))));
      state := state.(panel := Some(panel));
      state := state.(registeredAt := Some(now));
      var ok := Write(state, fault);
      r := if !ok || fault.AuditFails? then StorageError else Registered(key);
    }

    method Revoke(fault: Fault) returns (ok: bool)
      modifies this
      ensures ok == fault.NoFault?
      ensures file == if fault.WriteFails? then old(file) else ClearPairing(old(file))
    {
      ok := Write(ClearPairing(file), fault);
      ok := ok && !fault.AuditFails?;
    }

    method ResetRegistration(hash: string, fault: Fault) returns (ok: bool)
      modifies this
      ensures ok == fault.NoFault?
      ensures file == if fault.WriteFails? then old(file) else ClearPairing(old(file)).(tokenHash := hash)
    {
      var state := ClearPairing(file);
      state := state.(tokenHash := hash);
      ok := Write(state, fault);
      ok := ok && !fault.AuditFails?;
    }
  }

  // ---------------------------------------------------------------------------
  // What a panel and an operator see, written out
  // ---------------------------------------------------------------------------

  /** A box opens under its own key and for its own node only; anything else in its place is refused. */
  lemma KeyOpensExactly(id: Identity, cipherKey: Key, key: Key)
    ensures ReadKey(id, cipherKey) == HasKey(key) <==>
            && id.keyEnc.Some? && id.keyEnc.value.cipherKey == cipherKey
            && id.keyEnc.value.aad == "node-signing:" + id.nodeId && id.keyEnc.value.payload == key
    ensures ReadKey(id, cipherKey) == NoKey <==> id.keyEnc == None
  {
  }

  /** A registration succeeds exactly with the token that is pending, and with both writes. From the
      first write on the token is spent, and the key the panel was given is the node's. */
  lemma RegisterAnswersExactly(id: Identity, cipherKey: Key, hash: string, panel: string, key: Key, salt: nat,
                               now: int, fault: Fault)
    ensures var (id', r) := RegisterStep(id, cipherKey, hash, panel, key, salt, now, fault);
            var right := hash != "" && id.tokenHash == hash;
            && (right && fault == NoFault <==> r == Registered(key))
            && (!right <==> r == BadToken)
            && (!right || fault == WriteFails ==> id' == id)
            && (right && fault != WriteFails ==>
                  && id'.nodeId == id.nodeId && id'.tokenHash == ""
                  && id'.panel == Some(panel) && id'.registeredAt == Some(now)
                  && ReadKey(id', cipherKey) == HasKey(key) && id'.keyEnc.value.salt == salt)
  {
  }

  /** The first start makes a node with the id drawn for it and no pairing, and arms exactly the hash
      it was given: that token registers, another does not, and with no hash none does. */
  lemma FirstStartArmsItsHash(cipherKey: Key, hash: string, freshId: string, offered: string, panel: string, key: Key,
                              salt: nat, now: int)
    ensures var id := OpenFile(None, hash, freshId);
            && id.nodeId == freshId && Shows(id, cipherKey, Pairing.Unpaired)
            && (RegisterStep(id, cipherKey, offered, panel, key, salt, now, NoFault).1 == Registered(key) <==>
                  offered == hash && hash != "")
  {
  }

  /** What the other commands do to a node: a revoke keeps the token, a reset arms the new one, and
      both end the pairing; a later start changes at most the token, and nothing when it names none. */
  lemma OtherCommandsWrittenOut(id: Identity, cipherKey: Key, hash: string, fault: Fault)
    ensures var revoked, reset := Next(id, cipherKey, Revoke(fault)), Next(id, cipherKey, Reset(hash, fault));
            if fault == WriteFails then revoked == id && reset == id
            else
              && revoked == Identity(id.nodeId, id.tokenHash, None, None, None)
              && reset == Identity(id.nodeId, hash, None, None, None)
    ensures Next(id, cipherKey, Reopen(hash))
            == Identity(id.nodeId, if hash == "" then id.tokenHash else hash, id.keyEnc, id.panel, id.registeredAt)
  {
  }

  // ---------------------------------------------------------------------------
  // Runs
  // ---------------------------------------------------------------------------

  datatype Event =
    | Register(tokenHash: string, panel: string, key: Key, salt: nat, now: int, fault: Fault)
    | Revoke(fault: Fault)
    | Reset(hash: string, fault: Fault)
    | Reopen(hash: string)

  function Next(id: Identity, cipherKey: Key, e: Event): Identity {
    match e
    case Register(t, p, k, s, now, fault) => RegisterStep(id, cipherKey, t, p, k, s, now, fault).0
    case Revoke(fault) => if fault.WriteFails? then id else ClearPairing(id)
    case Reset(hash, fault) => if fault.WriteFails? then id else ClearPairing(id).(tokenHash := hash)
    case Reopen(hash) => OpenFile(Some(id), hash, "")
  }

  function Run(id: Identity, cipherKey: Key, events: seq<Event>): Identity {
    if events == [] then id
    else Next(Run(id, cipherKey, events[..|events| - 1]), cipherKey, events[|events| - 1])
  }

  // The token is burned and the key sealed. A later audit failure hides the key from the
  // panel but does not undo this.
  predicate Commits(id: Identity, e: Event) {
    e.Register? && Claims(id, e.tokenHash) && !e.fault.WriteFails?
  }

  // Who should be paired, read off the history: the latest register that took effect, unless
  // a revoke or a reset took effect after it.
  datatype Pairing = Unpaired | Paired(key: Key, panel: string, at: int)

  function Latest(id: Identity, cipherKey: Key, events: seq<Event>): Pairing {
    if events == [] then Pairing.Unpaired
    else
      var front, last := events[..|events| - 1], events[|events| - 1];
      match last
      case Register(_, p, k, _, now, _) =>
        if Commits(Run(id, cipherKey, front), last) then Paired(k, p, now) else Latest(id, cipherKey, front)
      case Reopen(_) => Latest(id, cipherKey, front)
      case _ => if last.fault.WriteFails? then Latest(id, cipherKey, front) else Pairing.Unpaired
  }

  ghost predicate Shows(id: Identity, cipherKey: Key, p: Pairing) {
    match p
    case Unpaired => ReadKey(id, cipherKey) == NoKey && id.panel == None && id.registeredAt == None
    case Paired(k, panel, at) =>
      ReadKey(id, cipherKey) == HasKey(k) && id.panel == Some(panel) && id.registeredAt == Some(at)
  }

  /** In every state a run from a new node reaches, the key, panel and time are those of the
      latest effective registration or all absent, unsealing never fails, and the node id is
      the one it was born with. */
  lemma {:induction false} RunShowsLatestPairing(id0: Identity, cipherKey: Key, events: seq<Event>)
    requires Shows(id0, cipherKey, Pairing.Unpaired)
    ensures var id := Run(id0, cipherKey, events);
            id.nodeId == id0.nodeId && Shows(id, cipherKey, Latest(id0, cipherKey, events))
  {
    if events != [] {
      RunShowsLatestPairing(id0, cipherKey, events[..|events| - 1]);
    }
  }

  // ---------------------------------------------------------------------------
  // One token, one registration, per arming
  // ---------------------------------------------------------------------------

  function Registrations(id: Identity, cipherKey: Key, events: seq<Event>, hash: string): nat {
    if events == [] then 0
    else
      var front, last := events[..|events| - 1], events[|events| - 1];
      Registrations(id, cipherKey, front, hash)
      + if last.Register? && last.tokenHash == hash && Commits(Run(id, cipherKey, front), last) then 1 else 0
  }

  // An arming puts the hash into the file where another one, or none, was.
  predicate Arms(id: Identity, e: Event, hash: string) {
    && id.tokenHash != hash
    && match e
       case Reset(h, fault) => h == hash && !fault.WriteFails?
       case Reopen(h) => h == hash
       case _ => false
  }

  function Armings(id: Identity, cipherKey: Key, events: seq<Event>, hash: string): nat {
    if events == [] then 0
    else
      var front, last := events[..|events| - 1], events[|events| - 1];
      Armings(id, cipherKey, front, hash) + if Arms(Run(id, cipherKey, front), last, hash) then 1 else 0
  }

  function Pending(id: Identity, hash: string): nat {
    if id.tokenHash == hash then 1 else 0
  }

  // Another hash, or none, replaces a token nobody has used.
  predicate Displaces(id: Identity, e: Event, hash: string) {
    && id.tokenHash == hash
    && match e
       case Reset(h, fault) => h != hash && !fault.WriteFails?
       case Reopen(h) => h != "" && h != hash
       case _ => false
  }

  function Displacements(id: Identity, cipherKey: Key, events: seq<Event>, hash: string): nat {
    if events == [] then 0
    else
      var front, last := events[..|events| - 1], events[|events| - 1];
      Displacements(id, cipherKey, front, hash) + if Displaces(Run(id, cipherKey, front), last, hash) then 1 else 0
  }

  /** Tokens are conserved: over every stretch of a run, what was pending and what was armed is
      used once, displaced, or still pending. So registrations never exceed armings. */
  lemma {:induction false} OneRegistrationPerArming(id: Identity, cipherKey: Key, events: seq<Event>, hash: string)
    requires hash != ""
    ensures Registrations(id, cipherKey, events, hash) + Pending(Run(id, cipherKey, events), hash)
            + Displacements(id, cipherKey, events, hash)
            == Armings(id, cipherKey, events, hash) + Pending(id, hash)
  {
    if events != [] {
      OneRegistrationPerArming(id, cipherKey, events[..|events| - 1], hash);
    }
  }

  lemma OnlyArmingSets(id: Identity, cipherKey: Key, e: Event, hash: string)
    requires hash != "" && id.tokenHash != hash && !Arms(id, e, hash)
    ensures Next(id, cipherKey, e).tokenHash != hash
  {
  }

  /** Once burned or displaced, a token is worthless until something arms it. */
  lemma {:induction false} SpentTokenNeedsArming(id: Identity, cipherKey: Key, events: seq<Event>, hash: string)
    requires hash != "" && id.tokenHash != hash
    requires forall i :: 0 <= i < |events| ==>
               !Arms(Run(id, cipherKey, events[..i]), events[i], hash)
    ensures !Claims(Run(id, cipherKey, events), hash)
  {
    if events != [] {
      var front := events[..|events| - 1];
      forall i | 0 <= i < |front| ensures !Arms(Run(id, cipherKey, front[..i]), front[i], hash) {
        assert front[..i] == events[..i];
      }
      SpentTokenNeedsArming(id, cipherKey, front, hash);
      assert events[..|events| - 1] == front;
      OnlyArmingSets(Run(id, cipherKey, front), cipherKey, events[|events| - 1], hash);
    }
  }

  /** The agent passes its configured hash at every start, so a restart arms a burned token:
      any token registers once more after a reopen that names its hash. */
  lemma ReopenRearmsBurnedToken(id: Identity, cipherKey: Key, hash: string, panel: string,
                                k1: Key, k2: Key, now: int)
    requires hash != "" && id.tokenHash == hash
    ensures var first := Register(hash, panel, k1, 0, now, NoFault);
            var again := Register(hash, panel, k2, 1, now, NoFault);
            && Registrations(id, cipherKey, [first, again], hash) == 1
            && Registrations(id, cipherKey, [first, Reopen(hash), again], hash) == 2
  {
    var first, again := Register(hash, panel, k1, 0, now, NoFault), Register(hash, panel, k2, 1, now, NoFault);
    var s1, s2, s3 := [first], [first, Reopen(hash)], [first, Reopen(hash), again];
    assert s1[..0] == [] && s2[..1] == s1 && s3[..2] == s2 && [first, again][..1] == s1;
    assert Run(id, cipherKey, []) == id;
    assert Run(id, cipherKey, s1).tokenHash == "";
    assert Registrations(id, cipherKey, s1, hash) == 1;
    assert Registrations(id, cipherKey, s2, hash) == 1;
    assert Claims(Run(id, cipherKey, s2), hash);
  }
}
