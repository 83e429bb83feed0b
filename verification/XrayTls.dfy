/** Rewriting an Xray document so that its uploaded TLS pairs live in this node's certificate directory. */
module XrayTls {
  import opened Common

  // ---------------------------------------------------------------------------
  // Documents
  // ---------------------------------------------------------------------------

  // body stands for every member this code does not read.
  datatype Cert = OtherCert(body: string) | Pair(certificateFile: Option<string>, keyFile: Option<string>, body: string)

  datatype Certs = NotAList(body: string) | List(certs: seq<Cert>)

  datatype Inbound = OtherInbound(body: string) | Inbound(certs: Certs, body: string)

  datatype Document = Document(inbounds: seq<Inbound>, body: string)

  // Path components of two resolved absolute paths, and the PEM validator.
  datatype Host = Host(root: seq<string>, certDir: seq<string>, validPair: (string, string) -> bool)

  datatype FileNode = FileNode(text: string, mode: nat)

  type Files = map<string, FileNode>

  const PREFIX := "zagros-material://"
  const FILE_LIMIT := 32
  const ITEM_BYTES := 128 * 1024
  const TOTAL_BYTES := 2 * 1024 * 1024
  const CERT_MODE := 420  // 0o644
  const KEY_MODE := 384   // 0o600

  // ---------------------------------------------------------------------------
  // Uploads
  // ---------------------------------------------------------------------------

  predicate Alnum(c: char) {
    'A' <= c <= 'Z' || 'a' <= c <= 'z' || '0' <= c <= '9'
  }

  predicate ValidName(s: string) {
    1 <= |s| <= 96 && Alnum(s[0]) && forall c :: c in s ==> Alnum(c) || c in {'_', '.', '-'}
  }

  function CharBytes(c: char): nat {
    if c as int < 0x80 then 1 else if c as int < 0x800 then 2 else if c as int < 0x10000 then 3 else 4
  }

  function Utf8Size(s: string): nat {
    if s == "" then 0 else CharBytes(s[0]) + Utf8Size(s[1..])
  }

  ghost function TotalSize(m: map<string, string>): nat
    decreases |m|
  {
    if m == map[] then 0
    else
      var k :| k in m;
      Utf8Size(m[k]) + TotalSize(m - {k})
  }

  lemma {:induction false} TotalSizeSplits(m: map<string, string>, k: string)
    requires k in m
    ensures TotalSize(m) == Utf8Size(m[k]) + TotalSize(m - {k})
    decreases |m|
  {
    var k' :| k' in m && TotalSize(m) == Utf8Size(m[k']) + TotalSize(m - {k'});
    if k' != k {
      TotalSizeSplits(m - {k'}, k);
      TotalSizeSplits(m - {k}, k');
      assert m - {k'} - {k} == m - {k} - {k'};
    }
  }

  ghost predicate MaterialOk(m: map<string, string>) {
    && |m| <= FILE_LIMIT
    && (forall name :: name in m ==> ValidName(name) && Utf8Size(m[name]) <= ITEM_BYTES)
    && TotalSize(m) <= TOTAL_BYTES
  }

  method CheckMaterial(m: map<string, string>) returns (ok: bool)
    ensures ok <==> MaterialOk(m)
  {
    if |m| > FILE_LIMIT {
      return false;
    }
    var total, rest := 0, m;
    while rest != map[]
      invariant rest.Keys <= m.Keys && forall k :: k in rest ==> rest[k] == m[k]
      invariant forall k :: k in m && k !in rest ==> ValidName(k) && Utf8Size(m[k]) <= ITEM_BYTES
      invariant total + TotalSize(rest) == TotalSize(m)
      decreases |rest|
    {
      var name :| name in rest;
      TotalSizeSplits(rest, name);
      var size := Utf8Size(m[name]);
      if !ValidName(name) || size > ITEM_BYTES {
        return false;
      }
      total := total + size;
      rest := rest - {name};
    }
    ok := total <= TOTAL_BYTES;
  }

  // ---------------------------------------------------------------------------
  // One certificate entry
  // ---------------------------------------------------------------------------

  function Ref(o: Option<string>): string {
    if o.Some? then o.value else ""
  }

  predicate Remote(ref: string) {
    PREFIX <= ref
  }

  predicate EndsWith(s: string, end: string) {
    |end| <= |s| && s[|s| - |end|..] == end
  }

  predicate PairedNames(cert: string, key: string) {
    && ValidName(cert) && ValidName(key)
    && EndsWith(cert, ".crt") && EndsWith(key, ".key")
    && cert[..|cert| - 4] == key[..|key| - 4]
  }

  datatype Plan = Keep | Reject | Install(cert: string, key: string)

  function PlanFor(h: Host, m: map<string, string>, c: Cert): Plan {
    if c.OtherCert? then Keep
    else
      var certRef, keyRef := Ref(c.certificateFile), Ref(c.keyFile);
      if !Remote(certRef) && !Remote(keyRef) then Keep
      else if !Remote(certRef) || !Remote(keyRef) then Reject
      else
        var cert, key := certRef[|PREFIX|..], keyRef[|PREFIX|..];
        if !PairedNames(cert, key) then Reject
        else if cert !in m || key !in m then Reject
        else if !h.validPair(m[cert], m[key]) then Reject
        else Install(cert, key)
  }

  function PathText(parts: seq<string>): string {
    if parts == [] then "" else PathText(parts[..|parts| - 1]) + "/" + parts[|parts| - 1]
  }

  function Final(h: Host, name: string): string {
    PathText(h.certDir) + "/" + name
  }

  function Part(path: string): string {
    path + ".part"
  }

  // The part file is written, given its mode, and renamed over the final name.
  function Put(files: Files, path: string, text: string, mode: nat): Files {
    (files - {Part(path)})[path := FileNode(text, mode)]
  }

  function Rewrite(h: Host, m: map<string, string>, c: Cert): Cert {
    match PlanFor(h, m, c)
    case Install(cert, key) =>
      if c.Pair? then c.(certificateFile := Some(Final(h, cert)), keyFile := Some(Final(h, key))) else c
    case _ => c
  }

  datatype Progress = Progress(files: Files, consumed: set<string>)

  function Installed(h: Host, m: map<string, string>, s: Progress, cert: string, key: string): Progress
    requires cert in m && key in m
  {
    Progress(Put(Put(s.files, Final(h, cert), m[cert], CERT_MODE), Final(h, key), m[key], KEY_MODE),
             s.consumed + {cert, key})
  }

  // The entries in order, up to the first that is rejected.
  function Walk(h: Host, m: map<string, string>, certs: seq<Cert>, s: Progress): (Progress, bool)
    decreases certs
  {
    if certs == [] then (s, true)
    else match PlanFor(h, m, certs[0])
      case Keep => Walk(h, m, certs[1..], s)
      case Reject => (s, false)
      case Install(cert, key) => Walk(h, m, certs[1..], Installed(h, m, s, cert, key))
  }

  function RewriteAll(h: Host, m: map<string, string>, certs: seq<Cert>): seq<Cert> {
    seq(|certs|, i requires 0 <= i < |certs| => Rewrite(h, m, certs[i]))
  }

  // ---------------------------------------------------------------------------
  // Whole documents
  // ---------------------------------------------------------------------------

  function CertsOf(i: Inbound): seq<Cert> {
    if i.Inbound? && i.certs.List? then i.certs.certs else []
  }

  function Visited(inbounds: seq<Inbound>): seq<Cert> {
    if inbounds == [] then [] else CertsOf(inbounds[0]) + Visited(inbounds[1..])
  }

  function RewriteInbound(h: Host, m: map<string, string>, i: Inbound): Inbound {
    if i.Inbound? && i.certs.List? then i.(certs := List(RewriteAll(h, m, i.certs.certs))) else i
  }

  function RewriteInbounds(h: Host, m: map<string, string>, inbounds: seq<Inbound>): seq<Inbound> {
    seq(|inbounds|, i requires 0 <= i < |inbounds| => RewriteInbound(h, m, inbounds[i]))
  }

  predicate DirectoryOk(h: Host) {
    h.root <= h.certDir
  }

  // The entries of all inbounds from the i-th on.
  function WalkFrom(h: Host, m: map<string, string>, inbounds: seq<Inbound>, i: nat, s: Progress): (Progress, bool)
    requires i <= |inbounds|
  {
    Walk(h, m, Visited(inbounds[i..]), s)
  }

  ghost function Materialized(h: Host, m: map<string, string>, doc: Document, files: Files): (Files, Option<Document>) {
    if !MaterialOk(m) || !DirectoryOk(h) then (files, None)
    else
      var (s, ok) := WalkFrom(h, m, doc.inbounds, 0, Progress(files, {}));
      (s.files, if ok && m.Keys <= s.consumed then Some(doc.(inbounds := RewriteInbounds(h, m, doc.inbounds))) else None)
  }

  class XrayHost {
    const host: Host
    var files: Files

    constructor (host: Host, files: Files)
      ensures this.host == host && this.files == files
    {
      this.host, this.files := host, files;
    }

    method InstallFile(path: string, text: string, mode: nat)
      modifies this
      ensures files == Put(old(files), path, text, mode)
    {
      files := files[Part(path) := FileNode(text, mode)];
      files := (files - {Part(path)})[path := files[Part(path)]];
    }

    // The loop over one inbound's certificate entries; rewrites them in the copied document.
    method MaterializeCerts(m: map<string, string>, certs: seq<Cert>, consumed: set<string>)
      returns (certs': seq<Cert>, consumed': set<string>, ok: bool)
      modifies this
      ensures (Progress(files, consumed'), ok) == Walk(host, m, certs, Progress(old(files), consumed))
      ensures ok ==> certs' == RewriteAll(host, m, certs)
    {
      certs', consumed', ok := certs, consumed, true;
      for i := 0 to |certs|
        invariant |certs'| == |certs|
        invariant forall j :: 0 <= j < i ==> certs'[j] == Rewrite(host, m, certs[j])
        invariant forall j :: i <= j < |certs| ==> certs'[j] == certs[j]
        invariant Walk(host, m, certs[i..], Progress(files, consumed'))
                  == Walk(host, m, certs, Progress(old(files), consumed))
      {
        assert certs[i..][0] == certs[i] && certs[i..][1..] == certs[i + 1..];
        match PlanFor(host, m, certs[i]) {
          case Keep =>
          case Reject => ok := false; return;
          case Install(cert, key) =>
            InstallFile(Final(host, cert), m[cert], CERT_MODE);
            InstallFile(Final(host, key), m[key], KEY_MODE);
            certs' := certs'[i := Rewrite(host, m, certs[i])];
            consumed' := consumed' + {cert, key};
        }
      }
    }

    method MaterializeInbound(m: map<string, string>, inbound: Inbound, consumed: set<string>)
      returns (inbound': Inbound, consumed': set<string>, ok: bool)
      modifies this
      ensures (Progress(files, consumed'), ok) == Walk(host, m, CertsOf(inbound), Progress(old(files), consumed))
      ensures ok ==> inbound' == RewriteInbound(host, m, inbound)
    {
      inbound', consumed', ok := inbound, consumed, true;
      if inbound.OtherInbound? || inbound.certs.NotAList? {
        return;
      }
      var certs;
      certs, consumed', ok := MaterializeCerts(m, inbound.certs.certs, consumed);
      inbound' := inbound.(certs := List(certs));
    }

    method MaterializeInbounds(m: map<string, string>, given: seq<Inbound>)
      returns (inbounds: seq<Inbound>, consumed: set<string>, ok: bool)
      modifies this
      ensures (Progress(files, consumed), ok) == WalkFrom(host, m, given, 0, Progress(old(files), {}))
      ensures ok ==> inbounds == RewriteInbounds(host, m, given)
    {
      inbounds, consumed, ok := given, {}, true;
      for i := 0 to |given|
        invariant ok && |inbounds| == |given|
        invariant inbounds[..i] == RewriteInbounds(host, m, given[..i]) && inbounds[i..] == given[i..]
        invariant WalkFrom(host, m, given, i, Progress(files, consumed))
                  == WalkFrom(host, m, given, 0, Progress(old(files), {}))
      {
        WalkOneInbound(host, m, given, i, Progress(files, consumed));
        var inbound;
        inbound, consumed, ok := MaterializeInbound(m, inbounds[i], consumed);
        if !ok {
          return;
        }
        assert inbounds[i..][0] == given[i];
        RewriteOneMore(host, m, given, i);
        inbounds := inbounds[i := inbound];
      }
      WalkIsOver(host, m, given, Progress(files, consumed));
      assert given[..|given|] == given && inbounds[..|given|] == inbounds;
    }

    method Materialize(doc: Document, m: map<string, string>) returns (r: Option<Document>)
      modifies this
      ensures (files, r) == Materialized(host, m, doc, old(files))
    {
      var fine := CheckMaterial(m);
      if !fine || !(host.root <= host.certDir) {
        return None;
      }
      var inbounds, consumed, ok := MaterializeInbounds(m, doc.inbounds);
      r := if ok && m.Keys <= consumed then Some(doc.(inbounds := inbounds)) else None;
    }
  }

  lemma RewriteOneMore(h: Host, m: map<string, string>, inbounds: seq<Inbound>, i: nat)
    requires i < |inbounds|
    ensures RewriteInbounds(h, m, inbounds[..i + 1]) == RewriteInbounds(h, m, inbounds[..i]) + [RewriteInbound(h, m, inbounds[i])]
  {
  }

  // One inbound more: its own entries, then the rest, unless one of them is rejected.
  lemma WalkOneInbound(h: Host, m: map<string, string>, inbounds: seq<Inbound>, i: nat, s: Progress)
    requires i < |inbounds|
    ensures var (s', ok) := Walk(h, m, CertsOf(inbounds[i]), s);
            WalkFrom(h, m, inbounds, i, s) == if ok then WalkFrom(h, m, inbounds, i + 1, s') else (s', false)
  {
    VisitedSplits(inbounds, i);
    WalkConcat(h, m, CertsOf(inbounds[i]), Visited(inbounds[i + 1..]), s);
  }

  lemma WalkIsOver(h: Host, m: map<string, string>, inbounds: seq<Inbound>, s: Progress)
    ensures WalkFrom(h, m, inbounds, |inbounds|, s) == (s, true)
  {
  }

  lemma VisitedSplits(inbounds: seq<Inbound>, i: nat)
    requires i < |inbounds|
    ensures Visited(inbounds[i..]) == CertsOf(inbounds[i]) + Visited(inbounds[i + 1..])
  {
    assert inbounds[i..][1..] == inbounds[i + 1..];
  }

  lemma {:induction false} WalkConcat(h: Host, m: map<string, string>, a: seq<Cert>, b: seq<Cert>, s: Progress)
    ensures var (s', ok) := Walk(h, m, a, s);
            Walk(h, m, a + b, s) == if ok then Walk(h, m, b, s') else (s', false)
    decreases a
  {
    if a == [] {
      assert a + b == b;
    } else {
      assert (a + b)[0] == a[0] && (a + b)[1..] == a[1..] + b;
      match PlanFor(h, m, a[0])
      case Keep => WalkConcat(h, m, a[1..], b, s);
      case Reject =>
      case Install(cert, key) => WalkConcat(h, m, a[1..], b, Installed(h, m, s, cert, key));
    }
  }

  // ---------------------------------------------------------------------------
  // What a materialisation did
  // ---------------------------------------------------------------------------

  // The entry names this material.
  predicate Refers(c: Cert, name: string) {
    c.Pair? && (Ref(c.certificateFile) == PREFIX + name || Ref(c.keyFile) == PREFIX + name)
  }

  ghost predicate Referenced(certs: seq<Cert>, name: string) {
    exists c :: c in certs && Refers(c, name)
  }

  ghost predicate AllAcceptable(h: Host, m: map<string, string>, certs: seq<Cert>) {
    forall c :: c in certs ==> !PlanFor(h, m, c).Reject?
  }

  lemma RefersMeansInstalled(h: Host, m: map<string, string>, c: Cert, name: string)
    requires !PlanFor(h, m, c).Reject?
    ensures Refers(c, name) <==> var plan := PlanFor(h, m, c); plan.Install? && name in {plan.cert, plan.key}
  {
    assert (PREFIX + name)[|PREFIX|..] == name;
    if PlanFor(h, m, c).Install? {
      assert Ref(c.certificateFile) == PREFIX + PlanFor(h, m, c).cert;
      assert Ref(c.keyFile) == PREFIX + PlanFor(h, m, c).key;
    } else if c.Pair? {
      assert PREFIX <= PREFIX + name;
    }
  }

  lemma ReferencedOneMore(c: Cert, rest: seq<Cert>, name: string)
    ensures Referenced([c] + rest, name) <==> Refers(c, name) || Referenced(rest, name)
  {
    assert c in [c] + rest && forall x :: x in rest ==> x in [c] + rest;
  }

  lemma {:induction false} WalkOutcome(h: Host, m: map<string, string>, certs: seq<Cert>, s: Progress)
    ensures var (s', ok) := Walk(h, m, certs, s);
            && (ok <==> AllAcceptable(h, m, certs))
            && (ok ==> forall name :: name in s'.consumed <==> name in s.consumed || Referenced(certs, name))
    decreases certs
  {
    if certs != [] {
      var c, rest := certs[0], certs[1..];
      assert certs == [c] + rest;
      var plan := PlanFor(h, m, c);
      if plan.Reject? {
        assert c in certs;
      } else {
        WalkOutcome(h, m, rest, if plan.Install? then Installed(h, m, s, plan.cert, plan.key) else s);
        forall name ensures Referenced(certs, name) <==>
                              (plan.Install? && name in {plan.cert, plan.key}) || Referenced(rest, name) {
          RefersMeansInstalled(h, m, c, name);
          ReferencedOneMore(c, rest, name);
        }
        assert AllAcceptable(h, m, certs) <==> AllAcceptable(h, m, rest);
      }
    }
  }

  // ---------------------------------------------------------------------------
  // Files
  // ---------------------------------------------------------------------------

  predicate PemName(name: string) {
    EndsWith(name, ".crt") || EndsWith(name, ".key")
  }

  /** The final names of two uploads differ, and neither is the other's part file. */
  lemma NamesApart(h: Host, a: string, b: string)
    requires PemName(a)
    ensures Final(h, a) == Final(h, b) ==> a == b
    ensures Final(h, a) != Part(Final(h, b))
    ensures Part(Final(h, a)) == Part(Final(h, b)) ==> a == b
  {
    var dir := PathText(h.certDir) + "/";
    assert Final(h, a)[|dir|..] == a && Final(h, b)[|dir|..] == b;
    var fa, pb := Final(h, a), Part(Final(h, b));
    assert fa[|fa| - 3] == a[|a| - 3] && a[|a| - 3] == a[|a| - 4..][1];
    assert fa[|fa| - 3] in {'c', 'k'};
    assert pb[|pb| - 3] == 'a';
    assert Part(fa)[..|Part(fa)| - 5] == fa && pb[..|pb| - 5] == Final(h, b);
  }

  // Every consumed upload is in its file with its own text and mode, no part file of one is
  // left, and every other path is as before.
  ghost predicate Holds(h: Host, m: map<string, string>, consumed: set<string>, before: Files, files: Files) {
    && (forall n :: n in consumed ==> InPlace(h, m, files, n))
    && (forall p :: Elsewhere(h, consumed, p) ==>
          (p in files <==> p in before) && (p in files ==> files[p] == before[p]))
  }

  ghost predicate Elsewhere(h: Host, consumed: set<string>, p: string) {
    forall n :: n in consumed ==> p != Final(h, n) && p != Part(Final(h, n))
  }

  function ModeOf(name: string): nat {
    if EndsWith(name, ".key") then KEY_MODE else CERT_MODE
  }

  // An upload is in its own file, and no part file of it is left.
  ghost predicate InPlace(h: Host, m: map<string, string>, files: Files, n: string) {
    && n in m && PemName(n)
    && Final(h, n) in files && files[Final(h, n)] == FileNode(m[n], ModeOf(n))
    && Part(Final(h, n)) !in files
  }

  lemma PutKeepsInPlace(h: Host, m: map<string, string>, files: Files, n: string, k: string)
    requires n in m && PemName(n) && (k == n || InPlace(h, m, files, k))
    ensures InPlace(h, m, Put(files, Final(h, n), m[n], ModeOf(n)), k)
  {
    NamesApart(h, k, n);
    NamesApart(h, n, k);
  }

  lemma PutHolds(h: Host, m: map<string, string>, consumed: set<string>, before: Files, files: Files, n: string)
    requires Holds(h, m, consumed, before, files) && n in m && PemName(n)
    ensures Holds(h, m, consumed + {n}, before, Put(files, Final(h, n), m[n], ModeOf(n)))
  {
    var files' := Put(files, Final(h, n), m[n], ModeOf(n));
    forall k | k in consumed + {n} ensures InPlace(h, m, files', k) {
      PutKeepsInPlace(h, m, files, n, k);
    }
    forall p | Elsewhere(h, consumed + {n}, p)
      ensures (p in files' <==> p in before) && (p in files' ==> files'[p] == before[p])
    {
      assert n in consumed + {n};
      assert Elsewhere(h, consumed, p);
    }
  }

  lemma {:induction false} WalkHolds(h: Host, m: map<string, string>, certs: seq<Cert>, s: Progress, before: Files)
    requires Holds(h, m, s.consumed, before, s.files)
    ensures var s' := Walk(h, m, certs, s).0; Holds(h, m, s'.consumed, before, s'.files)
    decreases certs
  {
    if certs != [] {
      match PlanFor(h, m, certs[0])
      case Keep => WalkHolds(h, m, certs[1..], s, before);
      case Reject =>
      case Install(cert, key) =>
        SuffixesApart(cert);
        PutHolds(h, m, s.consumed, before, s.files, cert);
        PutHolds(h, m, s.consumed + {cert}, before, Put(s.files, Final(h, cert), m[cert], CERT_MODE), key);
        assert s.consumed + {cert} + {key} == s.consumed + {cert, key};
        WalkHolds(h, m, certs[1..], Installed(h, m, s, cert, key), before);
    }
  }

  lemma SuffixesApart(name: string)
    requires EndsWith(name, ".crt")
    ensures !EndsWith(name, ".key")
  {
    assert name[|name| - 4..][1] == 'c';
  }

  /** Success, exactly: the upload is within its limits, the directory under the root, every
      visited entry is a complete valid pair or names no upload, and every upload is named. */
  lemma SucceedsExactly(h: Host, m: map<string, string>, doc: Document, files: Files)
    ensures var visited := Visited(doc.inbounds);
            Materialized(h, m, doc, files).1.Some? <==>
            && MaterialOk(m) && DirectoryOk(h)
            && AllAcceptable(h, m, visited)
            && forall name :: name in m ==> Referenced(visited, name)
  {
    WalkOutcome(h, m, Visited(doc.inbounds), Progress(files, {}));
  }

  lemma ConsumedIsMaterial(h: Host, m: map<string, string>, doc: Document, files: Files)
    requires Materialized(h, m, doc, files).1.Some?
    ensures Walk(h, m, Visited(doc.inbounds), Progress(files, {})).0.consumed == m.Keys
    ensures forall name :: name in m <==> Referenced(Visited(doc.inbounds), name)
  {
    var start := Progress(files, {});
    var visited := Visited(doc.inbounds);
    WalkOutcome(h, m, visited, start);
    var consumed := Walk(h, m, visited, start).0.consumed;
    assert forall name :: name in consumed <==> Referenced(visited, name);
    WalkHolds(h, m, visited, start, files);
    assert consumed == m.Keys;
  }

  /** A success consumes exactly the uploads: what the document names is what was sent, each in
      its own file in the certificate directory, and nothing else on disk has changed. */
  lemma ConsumesExactlyMaterial(h: Host, m: map<string, string>, doc: Document, files: Files)
    requires Materialized(h, m, doc, files).1.Some?
    ensures forall name :: name in m <==> Referenced(Visited(doc.inbounds), name)
    ensures Holds(h, m, m.Keys, files, Materialized(h, m, doc, files).0)
    ensures forall name :: name in m ==> '/' !in name
  {
    ConsumedIsMaterial(h, m, doc, files);
    MaterializedFiles(h, m, doc, files);
    WalkHolds(h, m, Visited(doc.inbounds), Progress(files, {}), files);
    NamesHoldNoSlash(m);
  }

  lemma MaterializedFiles(h: Host, m: map<string, string>, doc: Document, files: Files)
    requires Materialized(h, m, doc, files).1.Some?
    ensures Materialized(h, m, doc, files).0 == Walk(h, m, Visited(doc.inbounds), Progress(files, {})).0.files
    ensures MaterialOk(m)
  {
    assert doc.inbounds[0..] == doc.inbounds;
  }

  lemma NamesHoldNoSlash(m: map<string, string>)
    requires MaterialOk(m)
    ensures forall name :: name in m ==> '/' !in name
  {
    forall name | name in m ensures '/' !in name {
      assert ValidName(name);
    }
  }

  // ---------------------------------------------------------------------------
  // Documents
  // ---------------------------------------------------------------------------

  lemma RewriteConcat(h: Host, m: map<string, string>, a: seq<Cert>, b: seq<Cert>)
    ensures RewriteAll(h, m, a + b) == RewriteAll(h, m, a) + RewriteAll(h, m, b)
  {
  }

  lemma {:induction false} VisitedOfRewritten(h: Host, m: map<string, string>, inbounds: seq<Inbound>)
    ensures Visited(RewriteInbounds(h, m, inbounds)) == RewriteAll(h, m, Visited(inbounds))
  {
    if inbounds != [] {
      VisitedOfRewritten(h, m, inbounds[1..]);
      var rewritten := RewriteInbounds(h, m, inbounds);
      assert rewritten[1..] == RewriteInbounds(h, m, inbounds[1..]);
      assert CertsOf(rewritten[0]) == RewriteAll(h, m, CertsOf(inbounds[0]));
      RewriteConcat(h, m, CertsOf(inbounds[0]), Visited(inbounds[1..]));
    }
  }

  lemma {:induction false} PathIsAbsolute(parts: seq<string>)
    requires parts != []
    ensures PathText(parts) != "" && PathText(parts)[0] == '/'
  {
    if |parts| > 1 {
      PathIsAbsolute(parts[..|parts| - 1]);
    } else {
      assert PathText(parts[..0]) == "";
    }
  }

  lemma FinalIsLocal(h: Host, name: string)
    ensures !Remote(Final(h, name))
  {
    if h.certDir != [] {
      PathIsAbsolute(h.certDir);
    }
    assert Final(h, name)[0] == '/';
  }

  predicate LocalCert(c: Cert) {
    c.Pair? ==> !Remote(Ref(c.certificateFile)) && !Remote(Ref(c.keyFile))
  }

  lemma RewriteIsLocal(h: Host, m: map<string, string>, c: Cert)
    requires !PlanFor(h, m, c).Reject?
    ensures LocalCert(Rewrite(h, m, c))
  {
    var plan := PlanFor(h, m, c);
    if plan.Install? {
      FinalIsLocal(h, plan.cert);
      FinalIsLocal(h, plan.key);
    }
  }

  /** No visited entry of the result still names an upload. */
  lemma NoReferenceLeft(h: Host, m: map<string, string>, doc: Document, files: Files)
    requires Materialized(h, m, doc, files).1.Some?
    ensures forall c :: c in Visited(Materialized(h, m, doc, files).1.value.inbounds) ==> LocalCert(c)
  {
    var visited := Visited(doc.inbounds);
    SucceedsExactly(h, m, doc, files);
    VisitedOfRewritten(h, m, doc.inbounds);
    forall c | c in RewriteAll(h, m, visited) ensures LocalCert(c) {
      var i :| 0 <= i < |visited| && RewriteAll(h, m, visited)[i] == c;
      assert visited[i] in visited;
      RewriteIsLocal(h, m, visited[i]);
    }
  }

  // c' is c, or c is a pair naming two uploads and only its two references have changed, to
  // the files of those uploads.
  ghost predicate OnlyReferences(h: Host, c: Cert, c': Cert) {
    c' == c ||
    exists cert, key ::
      && c.Pair? && Refers(c, cert) && Refers(c, key) && PairedNames(cert, key)
      && c' == c.(certificateFile := Some(Final(h, cert)), keyFile := Some(Final(h, key)))
  }

  ghost predicate SameBut(h: Host, a: Inbound, b: Inbound) {
    if a.Inbound? && a.certs.List? then
      && b.Inbound? && b.body == a.body && b.certs.List? && |b.certs.certs| == |a.certs.certs|
      && forall j :: 0 <= j < |a.certs.certs| ==> OnlyReferences(h, a.certs.certs[j], b.certs.certs[j])
    else b == a
  }

  lemma RewriteOnlyReferences(h: Host, m: map<string, string>, c: Cert)
    ensures OnlyReferences(h, c, Rewrite(h, m, c))
  {
    var plan := PlanFor(h, m, c);
    if plan.Install? {
      RefersMeansInstalled(h, m, c, plan.cert);
      RefersMeansInstalled(h, m, c, plan.key);
    }
  }

  lemma InboundOnlyReferences(h: Host, m: map<string, string>, inbound: Inbound)
    ensures SameBut(h, inbound, RewriteInbound(h, m, inbound))
  {
    forall j | 0 <= j < |CertsOf(inbound)|
      ensures OnlyReferences(h, CertsOf(inbound)[j], Rewrite(h, m, CertsOf(inbound)[j]))
    {
      RewriteOnlyReferences(h, m, CertsOf(inbound)[j]);
    }
  }

  /** The result is the document with the references of matched pairs changed, and no other
      member, entry or inbound. */
  lemma ChangesOnlyReferences(h: Host, m: map<string, string>, doc: Document, files: Files)
    requires Materialized(h, m, doc, files).1.Some?
    ensures var doc' := Materialized(h, m, doc, files).1.value;
            && doc'.body == doc.body && |doc'.inbounds| == |doc.inbounds|
            && forall i :: 0 <= i < |doc.inbounds| ==> SameBut(h, doc.inbounds[i], doc'.inbounds[i])
  {
    forall i | 0 <= i < |doc.inbounds| ensures SameBut(h, doc.inbounds[i], RewriteInbound(h, m, doc.inbounds[i])) {
      InboundOnlyReferences(h, m, doc.inbounds[i]);
    }
  }

  lemma {:induction false} WalkKeepsLocal(h: Host, m: map<string, string>, certs: seq<Cert>, s: Progress)
    requires forall c :: c in certs ==> LocalCert(c)
    ensures Walk(h, m, certs, s) == (s, true)
    decreases certs
  {
    if certs != [] {
      assert certs[0] in certs;
      WalkKeepsLocal(h, m, certs[1..], s);
    }
  }

  lemma RewriteKeepsLocal(h: Host, m: map<string, string>, inbounds: seq<Inbound>)
    requires forall c :: c in Visited(inbounds) ==> LocalCert(c)
    ensures RewriteInbounds(h, m, inbounds) == inbounds
  {
    forall i | 0 <= i < |inbounds| ensures RewriteInbound(h, m, inbounds[i]) == inbounds[i] {
      VisitedContains(inbounds, i);
      var certs := CertsOf(inbounds[i]);
      forall j | 0 <= j < |certs| ensures Rewrite(h, m, certs[j]) == certs[j] {
        assert certs[j] in certs;
      }
      assert RewriteAll(h, m, CertsOf(inbounds[i])) == CertsOf(inbounds[i]);
    }
  }

  lemma {:induction false} VisitedContains(inbounds: seq<Inbound>, i: nat)
    requires i < |inbounds|
    ensures forall c :: c in CertsOf(inbounds[i]) ==> c in Visited(inbounds)
  {
    if i > 0 {
      VisitedContains(inbounds[1..], i - 1);
    }
  }

  /** Sending the result again, with nothing uploaded, gives it back and touches no file. */
  lemma ResultIsFixpoint(h: Host, m: map<string, string>, doc: Document, files: Files, files': Files)
    requires Materialized(h, m, doc, files).1.Some?
    ensures var doc' := Materialized(h, m, doc, files).1.value;
            Materialized(h, map[], doc', files') == (files', Some(doc'))
  {
    var doc' := Materialized(h, m, doc, files).1.value;
    NoReferenceLeft(h, m, doc, files);
    WalkKeepsLocal(h, map[], Visited(doc'.inbounds), Progress(files', {}));
    RewriteKeepsLocal(h, map[], doc'.inbounds);
    assert TotalSize(map[]) == 0;
  }

  // ---------------------------------------------------------------------------
  // Success, written out
  // ---------------------------------------------------------------------------

  predicate LetterOrDigit(c: char) {
    var n := c as int; 48 <= n <= 57 || 65 <= n <= 90 || 97 <= n <= 122
  }

  // Up to 96 letters, digits, underscores, dots and dashes, the first a letter or a digit.
  predicate IsMaterialName(s: string) {
    1 <= |s| <= 96 && LetterOrDigit(s[0]) &&
    forall i :: 0 <= i < |s| ==> LetterOrDigit(s[i]) || s[i] == '_' || s[i] == '.' || s[i] == '-'
  }

  lemma MaterialNames(s: string)
    ensures IsMaterialName(s) <==> ValidName(s)
  {
    if ValidName(s) {
      forall i | 0 <= i < |s| ensures LetterOrDigit(s[i]) || s[i] == '_' || s[i] == '.' || s[i] == '-' {
        assert s[i] in s;
      }
    }
  }

  /** How long a text is on the wire: a character takes one byte below U+0080, two below U+0800,
      three below U+10000, and four from there on. */
  lemma Utf8SizeWrittenOut(c: char, s: string)
    ensures Utf8Size("") == 0
    ensures Utf8Size([c] + s) == Utf8Size(s) +
            var n := c as int; if n <= 127 then 1 else if n <= 2047 then 2 else if n <= 65535 then 3 else 4
  {
    assert ([c] + s)[1..] == s;
  }

  predicate NamesUpload(ref: Option<string>) {
    ref.Some? && |ref.value| >= 18 && ref.value[..18] == "zagros-material://"
  }

  // Both references name an upload: one stem, as certificate and as key, both sent, and valid together.
  ghost predicate NamesValidPair(h: Host, m: map<string, string>, c: Cert, stem: string) {
    && c.Pair?
    && c.certificateFile == Some("zagros-material://" + stem + ".crt") && c.keyFile == Some("zagros-material://" + stem + ".key")
    && IsMaterialName(stem + ".crt") && IsMaterialName(stem + ".key")
    && stem + ".crt" in m && stem + ".key" in m
    && h.validPair(m[stem + ".crt"], m[stem + ".key"])
  }

  // The entry is no object, names no upload, or names a valid pair.
  ghost predicate IsRight(h: Host, m: map<string, string>, c: Cert) {
    || c.OtherCert?
    || (!NamesUpload(c.certificateFile) && !NamesUpload(c.keyFile))
    || exists stem :: NamesValidPair(h, m, c, stem)
  }

  lemma RemoteNamesUpload(ref: Option<string>)
    ensures Remote(Ref(ref)) <==> NamesUpload(ref)
  {
  }

  lemma StemAndEnd(name: string, end: string)
    requires EndsWith(name, end)
    ensures name == name[..|name| - |end|] + end
  {
  }

  lemma ReferenceIs(ref: Option<string>, stem: string, end: string)
    requires Remote(Ref(ref)) && Ref(ref)[|PREFIX|..] == stem + end
    ensures ref == Some("zagros-material://" + stem + end)
  {
    assert PREFIX != "" && ref.Some?;
    assert ref.value == PREFIX + (stem + end) == PREFIX + stem + end;
  }

  lemma InstalledIsValidPair(h: Host, m: map<string, string>, c: Cert)
    requires PlanFor(h, m, c).Install?
    ensures var plan := PlanFor(h, m, c);
            var stem := plan.cert[..|plan.cert| - 4];
            NamesValidPair(h, m, c, stem) && plan == Install(stem + ".crt", stem + ".key")
  {
    var plan := PlanFor(h, m, c);
    var stem := plan.cert[..|plan.cert| - 4];
    StemAndEnd(plan.cert, ".crt");
    StemAndEnd(plan.key, ".key");
    MaterialNames(plan.cert);
    MaterialNames(plan.key);
    ReferenceIs(c.certificateFile, stem, ".crt");
    ReferenceIs(c.keyFile, stem, ".key");
  }

  lemma StemIsPaired(stem: string)
    requires IsMaterialName(stem + ".crt") && IsMaterialName(stem + ".key")
    ensures PairedNames(stem + ".crt", stem + ".key")
  {
    var cert, key := stem + ".crt", stem + ".key";
    MaterialNames(cert);
    MaterialNames(key);
    assert cert[|stem|..] == ".crt" && key[|stem|..] == ".key";
    assert cert[..|stem|] == stem && key[..|stem|] == stem;
  }

  lemma ValidPairIsInstalled(h: Host, m: map<string, string>, c: Cert, stem: string)
    requires NamesValidPair(h, m, c, stem)
    ensures PlanFor(h, m, c) == Install(stem + ".crt", stem + ".key")
  {
    var cert, key := stem + ".crt", stem + ".key";
    var certRef, keyRef := Ref(c.certificateFile), Ref(c.keyFile);
    assert certRef == PREFIX + cert && keyRef == PREFIX + key;
    assert Remote(certRef) && Remote(keyRef);
    assert certRef[|PREFIX|..] == cert && keyRef[|PREFIX|..] == key;
    StemIsPaired(stem);
  }

  /** An entry is accepted exactly when it is right, and installed exactly when it names a valid pair. */
  lemma AcceptedExactlyIfRight(h: Host, m: map<string, string>, c: Cert)
    ensures !PlanFor(h, m, c).Reject? <==> IsRight(h, m, c)
  {
    if exists stem :: NamesValidPair(h, m, c, stem) {
      var stem :| NamesValidPair(h, m, c, stem);
      ValidPairIsInstalled(h, m, c, stem);
    }
    if PlanFor(h, m, c).Install? {
      InstalledIsValidPair(h, m, c);
    }
    if c.Pair? {
      RemoteNamesUpload(c.certificateFile);
      RemoteNamesUpload(c.keyFile);
    }
  }

  // The document has this certificate entry.
  ghost predicate HasEntry(doc: Document, c: Cert) {
    exists i :: 0 <= i < |doc.inbounds| && HoldsEntry(doc.inbounds[i], c)
  }

  predicate HoldsEntry(inbound: Inbound, c: Cert) {
    inbound.Inbound? && inbound.certs.List? && c in inbound.certs.certs
  }

  lemma {:induction false} VisitedHolds(inbounds: seq<Inbound>, c: Cert)
    ensures c in Visited(inbounds) <==> exists i :: 0 <= i < |inbounds| && HoldsEntry(inbounds[i], c)
  {
    if inbounds != [] {
      VisitedHolds(inbounds[1..], c);
      if i :| 0 <= i < |inbounds[1..]| && HoldsEntry(inbounds[1..][i], c) {
        assert HoldsEntry(inbounds[i + 1], c);
      }
      if i :| 0 <= i < |inbounds| && HoldsEntry(inbounds[i], c) {
        assert i > 0 ==> HoldsEntry(inbounds[1..][i - 1], c);
      }
    }
  }

  // Some entry names this upload, as certificate or as key.
  ghost predicate IsNamed(doc: Document, name: string) {
    exists c :: HasEntry(doc, c) && c.Pair? &&
      (c.certificateFile == Some("zagros-material://" + name) || c.keyFile == Some("zagros-material://" + name))
  }

  // At most 32 files, each well named and of at most 128 KiB, and 2 MiB in all.
  ghost predicate WithinLimits(m: map<string, string>) {
    && |m| <= 32 && TotalSize(m) <= 2_097_152
    && forall name :: name in m ==> IsMaterialName(name) && Utf8Size(m[name]) <= 131_072
  }

  lemma LimitsWrittenOut(m: map<string, string>)
    ensures MaterialOk(m) <==> WithinLimits(m)
  {
    forall name | name in m ensures IsMaterialName(name) <==> ValidName(name) {
      MaterialNames(name);
    }
  }

  lemma NamedIsReferenced(doc: Document, name: string)
    ensures IsNamed(doc, name) <==> Referenced(Visited(doc.inbounds), name)
  {
    if IsNamed(doc, name) {
      var c :| HasEntry(doc, c) && c.Pair? &&
        (c.certificateFile == Some("zagros-material://" + name) || c.keyFile == Some("zagros-material://" + name));
      VisitedHolds(doc.inbounds, c);
      assert Refers(c, name);
    }
    if Referenced(Visited(doc.inbounds), name) {
      var c :| c in Visited(doc.inbounds) && Refers(c, name);
      VisitedHolds(doc.inbounds, c);
      assert |PREFIX + name| > 0;
    }
  }

  /** Success with every condition written out: the upload is within its limits, the directory is the
      root or under it, every certificate entry of the document is right, and every upload is named
      by one. */
  lemma SucceedsWrittenOut(h: Host, m: map<string, string>, doc: Document, files: Files)
    ensures Materialized(h, m, doc, files).1.Some? <==>
            && WithinLimits(m) && |h.root| <= |h.certDir| && h.certDir[..|h.root|] == h.root
            && (forall c :: HasEntry(doc, c) ==> IsRight(h, m, c))
            && (forall name :: name in m ==> IsNamed(doc, name))
  {
    SucceedsExactly(h, m, doc, files);
    LimitsWrittenOut(m);
    forall c ensures c in Visited(doc.inbounds) <==> HasEntry(doc, c) {
      VisitedHolds(doc.inbounds, c);
    }
    forall c ensures !PlanFor(h, m, c).Reject? <==> IsRight(h, m, c) {
      AcceptedExactlyIfRight(h, m, c);
    }
    forall name ensures IsNamed(doc, name) <==> Referenced(Visited(doc.inbounds), name) {
      NamedIsReferenced(doc, name);
    }
  }

  /** Where a file goes: the directory's components, each after a slash, and the name after another. */
  lemma PathsWrittenOut(parts: seq<string>, last: string, h: Host, name: string)
    ensures PathText([]) == "" && PathText(parts + [last]) == PathText(parts) + "/" + last
    ensures Final(h, name) == PathText(h.certDir + [name])
  {
    assert (parts + [last])[..|parts|] == parts && (h.certDir + [name])[..|h.certDir|] == h.certDir;
  }

  /** What a success installs was validated: an entry that names uploads names one stem, whose two
      texts the validator accepted together, and those very texts are in its two files, the
      certificate with mode 0o644 and the key with mode 0o600. */
  lemma InstalledWereValidated(h: Host, m: map<string, string>, doc: Document, files: Files, c: Cert)
    requires Materialized(h, m, doc, files).1.Some?
    requires HasEntry(doc, c) && c.Pair? && (NamesUpload(c.certificateFile) || NamesUpload(c.keyFile))
    ensures exists stem :: NamesValidPair(h, m, c, stem)
    ensures forall stem :: NamesValidPair(h, m, c, stem) ==>
              var after := Materialized(h, m, doc, files).0;
              var cert, key := PathText(h.certDir + [stem + ".crt"]), PathText(h.certDir + [stem + ".key"]);
              && cert in after && after[cert] == FileNode(m[stem + ".crt"], 420)
              && key in after && after[key] == FileNode(m[stem + ".key"], 384)
  {
    SucceedsWrittenOut(h, m, doc, files);
    assert IsRight(h, m, c);
    ConsumesExactlyMaterial(h, m, doc, files);
    forall stem | NamesValidPair(h, m, c, stem)
      ensures var after := Materialized(h, m, doc, files).0;
              var cert, key := PathText(h.certDir + [stem + ".crt"]), PathText(h.certDir + [stem + ".key"]);
              && cert in after && after[cert] == FileNode(m[stem + ".crt"], 420)
              && key in after && after[key] == FileNode(m[stem + ".key"], 384)
    {
      PathsWrittenOut([], "", h, stem + ".crt");
      PathsWrittenOut([], "", h, stem + ".key");
      assert EndsWith(stem + ".crt", ".crt") && EndsWith(stem + ".key", ".key");
      SuffixesApart(stem + ".crt");
    }
  }
}
