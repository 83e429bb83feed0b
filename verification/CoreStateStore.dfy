/** The sealed store of core lifecycle state, as a refinement of a plain map. */
module CoreStateStore {
  import opened Common

  type Settings = map<string, string>

  datatype CoreRecord = CoreRecord(state: string, enabled: bool, settings: Settings)

  // The value under "settings_enc": an empty text is treated as absent.
  datatype SealedText = Blank | Box(box: Sealed<Settings>)

  // One value of cores.json; None is a missing member.
  datatype RawRecord =
    | NotAnObject
    | Record(state: Option<string>, enabled: Option<bool>, settingsEnc: Option<SealedText>, settings: Option<Settings>)

  // Garbage is text json.loads rejects.
  datatype Content = Missing | Garbage | NotADict | Cores(records: map<string, RawRecord>)

  datatype ReadError = BadJson | CannotUnseal

  datatype Files = Files(main: Content, part: Content)

  const INSTALLED := "installed"

  function CoreAad(core: string): string {
    "node-core:" + core
  }

  predicate IsSealed(r: RawRecord) {
    r.Record? && r.settingsEnc.Some? && r.settingsEnc.value.Box?
  }

  predicate Opens(cipherKey: Key, core: string, r: RawRecord) {
    IsSealed(r) ==> Unseal(r.settingsEnc.value.box, cipherKey, CoreAad(core)).Some?
  }

  function Decode(r: RawRecord): CoreRecord
    requires r.Record?
  {
    CoreRecord(
      if r.state.Some? then r.state.value else INSTALLED,
      if r.enabled.Some? then r.enabled.value else true,
      if IsSealed(r) then r.settingsEnc.value.box.payload
      else if r.settings.Some? then r.settings.value else map[])
  }

  function Read(c: Content, cipherKey: Key): Result<map<string, CoreRecord>, ReadError> {
    match c
    case Missing => Ok(map[])
    case Garbage => Err(BadJson)
    case NotADict => Ok(map[])
    case Cores(records) =>
      if forall core :: core in records ==> Opens(cipherKey, core, records[core])
      then Ok(map core | core in records && records[core].Record? :: Decode(records[core]))
      else Err(CannotUnseal)
  }

  function Seal(cipherKey: Key, salt: nat, core: string, r: CoreRecord): RawRecord {
    Record(Some(r.state), Some(r.enabled), Some(Box(Sealed(cipherKey, salt, r.settings, CoreAad(core)))), None)
  }

  function Encode(cipherKey: Key, salt: nat, value: map<string, CoreRecord>): Content {
    Cores(map core | core in value :: Seal(cipherKey, salt, core, value[core]))
  }

  // Where a write can stop: before it begins, inside the part file, or before the replace.
  datatype Stop = Completes | BeforePart | InPart | BeforeReplace

  function WriteStep(f: Files, content: Content, stop: Stop): Files {
    match stop
    case Completes => Files(content, Missing)
    case BeforePart => f
    case InPart => f.(part := Garbage)
    case BeforeReplace => f.(part := content)
  }

  predicate HasPlaintext(r: RawRecord) {
    r.Record? && r.settings.Some?
  }

  predicate NeedsMigration(c: Content) {
    c.Cores? && exists core :: core in c.records && HasPlaintext(c.records[core]) && c.records[core].settingsEnc.None?
  }

  datatype Op =
    | Load
    | Save(core: string, state: string, enabled: bool, settings: Option<Settings>)
    | Remove(core: string)

  // What the operation means on a plain map.
  function Apply(m: map<string, CoreRecord>, op: Op): map<string, CoreRecord> {
    match op
    case Load => m
    case Save(core, state, enabled, settings) =>
      var kept := if core in m then m[core].settings else map[];
      m[core := CoreRecord(state, enabled, if settings.Some? then settings.value else kept)]
    case Remove(core) => m - {core}
  }

  function OpStep(f: Files, cipherKey: Key, salt: nat, op: Op, stop: Stop): (Files, Result<map<string, CoreRecord>, ReadError>) {
    match Read(f.main, cipherKey)
    case Err(e) => (f, Err(e))
    case Ok(m) =>
      (if op.Load? && !NeedsMigration(f.main) then f
       else WriteStep(f, Encode(cipherKey, salt, Apply(m, op)), stop),
       Ok(Apply(m, op)))
  }

  class NodeCoreStateStore {
    const cipherKey: Key
    var files: Files

    constructor (cipherKey: Key, files: Files)
      ensures this.cipherKey == cipherKey && this.files == files
    {
      this.cipherKey, this.files := cipherKey, files;
    }

    method ReadCores() returns (r: Result<map<string, CoreRecord>, ReadError>)
      ensures r == Read(files.main, cipherKey)
    {
      match files.main {
        case Missing => return Ok(map[]);
        case Garbage => return Err(BadJson);
        case NotADict => return Ok(map[]);
        case Cores(records) => r := ReadRecords(records);
      }
    }

    method ReadRecords(records: map<string, RawRecord>) returns (r: Result<map<string, CoreRecord>, ReadError>)
      ensures r == Read(Cores(records), cipherKey)
    {
      var value: map<string, CoreRecord> := map[];
      var todo := records.Keys;
      while todo != {}
        invariant todo <= records.Keys
        invariant forall core :: core in records.Keys - todo ==> Opens(cipherKey, core, records[core])
        invariant value == map core | core in records.Keys - todo && records[core].Record? :: Decode(records[core])
      {
        var core :| core in todo;
        todo := todo - {core};
        var record := records[core];
        if record.NotAnObject? {
          continue;
        }
        var settings := map[];
        if IsSealed(record) {
          var unsealed := Unseal(record.settingsEnc.value.box, cipherKey, CoreAad(core));
          if unsealed.None? {
            assert !Opens(cipherKey, core, record);
            return Err(CannotUnseal);
          }
          settings := unsealed.value;
        } else if record.settings.Some? {
          settings := record.settings.value;
        }
        value := value[core := CoreRecord(
          if record.state.Some? then record.state.value else INSTALLED,
          if record.enabled.Some? then record.enabled.value else true,
          settings)];
      }
      assert value == map core | core in records && records[core].Record? :: Decode(records[core]);
      r := Ok(value);
    }

    method WriteCores(value: map<string, CoreRecord>, salt: nat, stop: Stop)
      modifies this
      ensures files == WriteStep(old(files), Encode(cipherKey, salt, value), stop)
    {
      if stop.BeforePart? {
        return;
      }
      if stop.InPart? {
        files := files.(part := Garbage);
        return;
      }
      files := files.(part := Encode(cipherKey, salt, value));
      if stop.BeforeReplace? {
        return;
      }
      files := Files(files.part, Missing);
    }

    method LoadCores(salt: nat, stop: Stop) returns (r: Result<map<string, CoreRecord>, ReadError>)
      modifies this
      ensures (files, r) == OpStep(old(files), cipherKey, salt, Load, stop)
    {
      r := ReadCores();
      if r.Ok? && NeedsMigration(files.main) {
        WriteCores(r.value, salt, stop);
      }
    }

    method SaveState(core: string, state: string, enabled: bool, settings: Option<Settings>, salt: nat, stop: Stop)
      returns (r: Result<map<string, CoreRecord>, ReadError>)
      modifies this
      ensures (files, r) == OpStep(old(files), cipherKey, salt, Save(core, state, enabled, settings), stop)
    {
      r := ReadCores();
      if r.Err? {
        return;
      }
      var value := r.value;
      var kept := map[];
      if core in value {
        kept := value[core].settings;
      }
      value := value[core := CoreRecord(state, enabled, if settings.Some? then settings.value else kept)];
      WriteCores(value, salt, stop);
      r := Ok(value);
    }

    method RemoveCore(core: string, salt: nat, stop: Stop) returns (r: Result<map<string, CoreRecord>, ReadError>)
      modifies this
      ensures (files, r) == OpStep(old(files), cipherKey, salt, Remove(core), stop)
    {
      r := ReadCores();
      if r.Err? {
        return;
      }
      var value := r.value - {core};
      WriteCores(value, salt, stop);
      r := Ok(value);
    }
  }

  // ---------------------------------------------------------------------------
  // Properties
  // ---------------------------------------------------------------------------

  /** What is sealed and written reads back whole. */
  lemma SealedRoundTrip(cipherKey: Key, salt: nat, value: map<string, CoreRecord>)
    ensures Read(Encode(cipherKey, salt, value), cipherKey) == Ok(value)
  {
    var records := Encode(cipherKey, salt, value).records;
    var decoded := map core | core in records && records[core].Record? :: Decode(records[core]);
    assert forall core :: core in decoded <==> core in value;
    assert decoded == value;
  }

  /** One operation on a readable store: it answers as the plain map does, and however far the
      write gets, the file reads as exactly the old map or exactly the new one. */
  lemma OpRefinesMap(f: Files, cipherKey: Key, salt: nat, op: Op, stop: Stop, m: map<string, CoreRecord>)
    requires Read(f.main, cipherKey) == Ok(m)
    ensures OpStep(f, cipherKey, salt, op, stop).1 == Ok(Apply(m, op))
    ensures Read(OpStep(f, cipherKey, salt, op, stop).0.main, cipherKey) ==
            Ok(if stop.Completes? then Apply(m, op) else m)
  {
    SealedRoundTrip(cipherKey, salt, Apply(m, op));
  }

  datatype Step = Step(op: Op, salt: nat, stop: Stop)

  function RunFiles(f: Files, cipherKey: Key, steps: seq<Step>): Files {
    if steps == [] then f
    else
      var s := steps[|steps| - 1];
      OpStep(RunFiles(f, cipherKey, steps[..|steps| - 1]), cipherKey, s.salt, s.op, s.stop).0
  }

  function RunMap(m: map<string, CoreRecord>, steps: seq<Step>): map<string, CoreRecord> {
    if steps == [] then m
    else
      var s := steps[|steps| - 1];
      var before := RunMap(m, steps[..|steps| - 1]);
      if s.stop.Completes? then Apply(before, s.op) else before
  }

  /** Over every run of loads, saves and removes with writes stopping anywhere, the store is the
      plain map that took the completed operations. */
  lemma {:induction false} RunRefinesMap(f: Files, cipherKey: Key, steps: seq<Step>, m: map<string, CoreRecord>)
    requires Read(f.main, cipherKey) == Ok(m)
    ensures Read(RunFiles(f, cipherKey, steps).main, cipherKey) == Ok(RunMap(m, steps))
  {
    if steps != [] {
      var front, s := steps[..|steps| - 1], steps[|steps| - 1];
      RunRefinesMap(f, cipherKey, front, m);
      OpRefinesMap(RunFiles(f, cipherKey, front), cipherKey, s.salt, s.op, s.stop, RunMap(m, front));
    }
  }

  /** What each operation means for a core: a save sets its state and switch, and its settings when
      any are given, keeping the old ones otherwise; a remove drops it; no other core changes. */
  lemma OperationsWrittenOut(m: map<string, CoreRecord>, core: string, state: string, enabled: bool,
                             settings: Option<Settings>, other: string)
    requires other != core
    ensures var saved := Apply(m, Save(core, state, enabled, settings));
            && core in saved && saved[core].state == state && saved[core].enabled == enabled
            && saved[core].settings == (if settings.Some? then settings.value
                                        else if core in m then m[core].settings else map[])
            && (other in saved <==> other in m) && (other in m ==> saved[other] == m[other])
    ensures var removed := Apply(m, Remove(core));
            core !in removed && (other in removed <==> other in m) && (other in m ==> removed[other] == m[other])
    ensures Apply(m, Load) == m
  {
  }

  // A sealed box under this core that this node's key does not open.
  predicate Shut(cipherKey: Key, core: string, r: RawRecord) {
    && r.Record? && r.settingsEnc.Some? && r.settingsEnc.value.Box?
    && (r.settingsEnc.value.box.cipherKey != cipherKey || r.settingsEnc.value.box.aad != "node-core:" + core)
  }

  /** What a file reads as. Text that is no JSON is refused, and so is a file with a box that does not
      open; otherwise each object is a core, installed and enabled unless it says otherwise, with the
      settings of its box, or else its plaintext ones, or else none. */
  lemma ReadsAsWrittenOut(c: Content, cipherKey: Key)
    ensures var r := Read(c, cipherKey);
            && (r == Err(BadJson) <==> c == Garbage)
            && (r == Err(CannotUnseal) <==> c.Cores? && exists core :: core in c.records && Shut(cipherKey, core, c.records[core]))
            && (c == Missing || c == NotADict ==> r == Ok(map[]))
            && (r.Ok? && c.Cores? ==>
                  forall core ::
                    && (core in r.value <==> core in c.records && c.records[core].Record?)
                    && (core in r.value ==> ReadsRecord(c.records[core], r.value[core])))
  {
    if c.Cores? && Read(c, cipherKey) == Err(CannotUnseal) {
      var core :| core in c.records && !Opens(cipherKey, core, c.records[core]);
      assert Shut(cipherKey, core, c.records[core]);
    }
  }

  predicate ReadsRecord(raw: RawRecord, r: CoreRecord) {
    && raw.Record?
    && r.state == (match raw.state case Some(state) => state case None => "installed")
    && r.enabled == (raw.enabled != Some(false))
    && r.settings == match raw.settingsEnc
                     case Some(Box(box)) => box.payload
                     case _ => match raw.settings case Some(settings) => settings case None => map[]
  }

  /** What a write puts on disk: every core with its state and switch, its settings only inside a box
      sealed for that core under this node's key. */
  lemma WritesSealedOnly(cipherKey: Key, salt: nat, value: map<string, CoreRecord>, core: string)
    ensures var c := Encode(cipherKey, salt, value);
            && c.Cores? && (core in c.records <==> core in value)
            && (core in value ==>
                  c.records[core] == Record(Some(value[core].state), Some(value[core].enabled),
                                            Some(Box(Sealed(cipherKey, salt, value[core].settings, "node-core:" + core))), None))
  {
  }

  predicate NoPlaintext(c: Content) {
    c.Cores? ==> forall core :: core in c.records ==> !HasPlaintext(c.records[core])
  }

  /** A load leaves plaintext settings on disk exactly when every record that has them also has a
      settings_enc member (a blank one, or one that shadows them) and so none asks for migration. */
  lemma LoadLeavesPlaintextExactly(f: Files, cipherKey: Key, salt: nat)
    requires Read(f.main, cipherKey).Ok?
    ensures NoPlaintext(OpStep(f, cipherKey, salt, Load, Completes).0.main) <==>
            NoPlaintext(f.main) || NeedsMigration(f.main)
  {
  }

  /** A record with plaintext settings beside a blank settings_enc: a completed load returns the
      settings and leaves the file, plaintext and all, as it was. */
  lemma PlaintextSurvivesLoad(part: Content, cipherKey: Key, salt: nat, core: string, settings: Settings)
    ensures var f := Files(Cores(map[core := Record(None, None, Some(Blank), Some(settings))]), part);
            && OpStep(f, cipherKey, salt, Load, Completes)
               == (f, Ok(map[core := CoreRecord(INSTALLED, true, settings)]))
            && !NoPlaintext(OpStep(f, cipherKey, salt, Load, Completes).0.main)
  {
    var f := Files(Cores(map[core := Record(None, None, Some(Blank), Some(settings))]), part);
    var m := Read(f.main, cipherKey).value;
    assert HasPlaintext(f.main.records[core]) && !NeedsMigration(f.main);
    assert forall k :: k in m <==> k == core;
    assert m == map[core := CoreRecord(INSTALLED, true, settings)];
    LoadLeavesPlaintextExactly(f, cipherKey, salt);
  }

  lemma AadNamesCore(core: string, other: string)
    ensures CoreAad(core) == CoreAad(other) <==> core == other
  {
    assert CoreAad(core)[|"node-core:"|..] == core && CoreAad(other)[|"node-core:"|..] == other;
  }

  /** A box moved to another core's record is refused, and the refusal stops every operation
      before it writes. */
  lemma MovedBoxIsRefused(f: Files, cipherKey: Key, salt: nat, core: string, other: string, r: CoreRecord, op: Op, stop: Stop)
    requires f.main.Cores? && other in f.main.records && core != other
    requires f.main.records[other] == Seal(cipherKey, salt, core, r)
    ensures OpStep(f, cipherKey, salt, op, stop) == (f, Err(CannotUnseal))
  {
    AadNamesCore(core, other);
    assert !Opens(cipherKey, other, f.main.records[other]);
  }
}
