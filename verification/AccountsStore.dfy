/** The per-core account snapshot: full pushes overwrite it, increments merge into it. */
module AccountsStore {
  import opened Ordering

  // One JSON object; id is the text of its account_id, empty when it has none.
  datatype Account = Account(id: string, body: string)

  // What a list may hold. Everything that is not an object is filtered out.
  datatype Json = Object(account: Account) | Scalar

  const UNSEEN := 1_000_000

  function Objects(items: seq<Json>): seq<Account> {
    if items == [] then []
    else (if items[0].Object? then [items[0].account] else []) + Objects(items[1..])
  }

  function AsJson(accounts: seq<Account>): seq<Json> {
    seq(|accounts|, i requires 0 <= i < |accounts| => Object(accounts[i]))
  }

  /** What the filter keeps of two lists in a row is what it keeps of each. */
  lemma {:induction false} ObjectsConcat(a: seq<Json>, b: seq<Json>)
    ensures Objects(a + b) == Objects(a) + Objects(b)
  {
    if a == [] {
      assert a + b == b;
    } else {
      ObjectsConcat(a[1..], b);
      assert (a + b)[0] == a[0] && (a + b)[1..] == a[1..] + b;
      var head := if a[0].Object? then [a[0].account] else [];
      assert Objects(a + b) == head + Objects(a[1..] + b);
      assert Objects(a) == head + Objects(a[1..]);
    }
  }

  /** An account is kept exactly when its object is in the list. */
  lemma {:induction false} KeptExactly(items: seq<Json>, x: Account)
    ensures x in Objects(items) <==> Object(x) in items
  {
    if items != [] {
      KeptExactly(items[1..], x);
      assert items == [items[0]] + items[1..];
    }
  }

  /** A list of objects is kept whole, in its order. */
  lemma {:induction false} ObjectsAreKeptWhole(accounts: seq<Account>)
    ensures Objects(AsJson(accounts)) == accounts && Objects([Scalar]) == []
  {
    if accounts != [] {
      ObjectsAreKeptWhole(accounts[1..]);
      assert AsJson(accounts)[1..] == AsJson(accounts[1..]);
    }
  }

  // known[key] = item on an insertion-ordered dict: an old key keeps its place.
  function Put(known: seq<Account>, a: Account): seq<Account> {
    if known == [] then [a]
    else if known[0].id == a.id then [a] + known[1..]
    else [known[0]] + Put(known[1..], a)
  }

  function PutAll(known: seq<Account>, items: seq<Account>): seq<Account>
    decreases items
  {
    if items == [] then known
    else PutAll(if items[0].id == "" then known else Put(known, items[0]), items[1..])
  }

  function Keyless(items: seq<Account>): seq<Account> {
    if items == [] then [] else (if items[0].id == "" then [items[0]] else []) + Keyless(items[1..])
  }

  lemma KeylessSplits(items: seq<Account>)
    requires items != []
    ensures items[0].id != "" ==> Keyless(items) == Keyless(items[1..])
    ensures items[0].id == "" ==> Keyless(items) == [items[0]] + Keyless(items[1..])
  {
  }

  // {account_id: n for n, item in enumerate(stored)}
  function Positions(stored: seq<Account>): map<string, int> {
    if stored == [] then map[]
    else Positions(stored[..|stored| - 1])[stored[|stored| - 1].id := |stored| - 1]
  }

  function Rank(order: map<string, int>, a: Account): int {
    if a.id in order then order[a.id] else UNSEEN
  }

  function ByRank(order: map<string, int>): (Account, Account) -> bool {
    (x, y) => Rank(order, x) <= Rank(order, y)
  }

  function Merge(stored: seq<Account>, incoming: seq<Account>): seq<Account> {
    Sort(PutAll(PutAll([], stored), incoming), ByRank(Positions(stored + Keyless(incoming))))
  }

  function Pushed(file: seq<Account>, accounts: seq<Account>, replace: bool): seq<Account> {
    if replace then accounts else Merge(file, accounts)
  }

  class AccountsStore {
    // The snapshot of one core; a missing file reads as the empty list.
    var file: seq<Account>

    constructor ()
      ensures file == []
    {
      file := [];
    }

    // The file is replaced whole; a failed write is only logged.
    method Store(accounts: seq<Json>, replace: bool, writeOk: bool) returns (result: seq<Account>)
      modifies this
      ensures result == Pushed(old(file), Objects(accounts), replace)
      ensures file == if writeOk then result else old(file)
    {
      var incoming := Filter(accounts);
      if replace {
        result := incoming;
      } else {
        result := MergeIncoming(file, incoming);
      }
      if writeOk {
        file := result;
      }
    }

    static method Filter(items: seq<Json>) returns (objects: seq<Account>)
      ensures objects == Objects(items)
    {
      objects := [];
      for i := 0 to |items|
        invariant objects + Objects(items[i..]) == Objects(items)
      {
        if items[i].Object? {
          objects := objects + [items[i].account];
        }
      }
    }

    static method Load(stored: seq<Account>) returns (known: seq<Account>)
      ensures known == PutAll([], stored)
    {
      known := [];
      for i := 0 to |stored|
        invariant PutAll(known, stored[i..]) == PutAll([], stored)
      {
        assert stored[i..][1..] == stored[i + 1..];
        if stored[i].id != "" {
          known := Put(known, stored[i]);
        }
      }
    }

    static method Add(loaded: seq<Account>, file: seq<Account>, incoming: seq<Account>)
      returns (known: seq<Account>, stored: seq<Account>)
      ensures known == PutAll(loaded, incoming)
      ensures stored == file + Keyless(incoming)
    {
      known, stored := loaded, file;
      for i := 0 to |incoming|
        invariant PutAll(known, incoming[i..]) == PutAll(loaded, incoming)
        invariant stored + Keyless(incoming[i..]) == file + Keyless(incoming)
      {
        KeylessSplits(incoming[i..]);
        assert incoming[i..][0] == incoming[i] && incoming[i..][1..] == incoming[i + 1..];
        if incoming[i].id != "" {
          known := Put(known, incoming[i]);
        } else {
          stored := stored + [incoming[i]];
        }
      }
    }

    static method Enumerate(stored: seq<Account>) returns (order: map<string, int>)
      ensures order == Positions(stored)
    {
      order := map[];
      for n := 0 to |stored|
        invariant order == Positions(stored[..n])
      {
        assert stored[..n + 1][..n] == stored[..n];
        order := order[stored[n].id := n];
      }
      assert stored[..|stored|] == stored;
    }

    static method MergeIncoming(file: seq<Account>, incoming: seq<Account>) returns (merged: seq<Account>)
      ensures merged == Merge(file, incoming)
    {
      var loaded := Load(file);
      var known, stored := Add(loaded, file, incoming);
      var order := Enumerate(stored);
      merged := Sort(known, ByRank(order));
    }
  }

  // ---------------------------------------------------------------------------
  // The specification: who is listed, in which order, with which value
  // ---------------------------------------------------------------------------

  ghost function Ids(items: seq<Account>): set<string> {
    set a | a in items && a.id != "" :: a.id
  }

  // Ids in the order of their last occurrence.
  ghost function ByLast(items: seq<Account>): seq<string> {
    if items == [] then []
    else if items[0].id == "" || items[0].id in Ids(items[1..]) then ByLast(items[1..])
    else [items[0].id] + ByLast(items[1..])
  }

  // Ids not in known, in the order of their first occurrence.
  ghost function ByFirst(items: seq<Account>, known: set<string>): seq<string> {
    if items == [] then []
    else if items[0].id == "" || items[0].id in known then ByFirst(items[1..], known)
    else [items[0].id] + ByFirst(items[1..], known + {items[0].id})
  }

  // The last record with an id.
  ghost function Last(items: seq<Account>, id: string): Account
    requires id in Ids(items)
  {
    if items[|items| - 1].id == id then items[|items| - 1] else Last(items[..|items| - 1], id)
  }

  ghost function Lookup(ids: seq<string>, items: seq<Account>): seq<Account>
    requires forall id :: id in ids ==> id in Ids(items)
  {
    seq(|ids|, i requires 0 <= i < |ids| => Last(items, ids[i]))
  }

  ghost function MergedIds(stored: seq<Account>, incoming: seq<Account>): seq<string> {
    ByLast(stored) + ByFirst(incoming, Ids(stored))
  }

  ghost predicate Distinct<T(!new)>(s: seq<T>) {
    forall i, j :: 0 <= i < j < |s| ==> s[i] != s[j]
  }

  lemma IdsHead(items: seq<Account>)
    requires items != []
    ensures Ids(items) == Ids(items[1..]) + (if items[0].id == "" then {} else {items[0].id})
  {
    assert items == [items[0]] + items[1..];
  }

  lemma {:induction false} ByLastIds(items: seq<Account>)
    ensures Distinct(ByLast(items))
    ensures forall id :: id in ByLast(items) <==> id in Ids(items)
  {
    if items != [] {
      ByLastIds(items[1..]);
      IdsHead(items);
    }
  }

  lemma {:induction false} ByFirstIds(items: seq<Account>, known: set<string>)
    ensures Distinct(ByFirst(items, known))
    ensures forall id :: id in ByFirst(items, known) <==> id in Ids(items) && id !in known
  {
    if items != [] {
      IdsHead(items);
      if items[0].id == "" || items[0].id in known {
        ByFirstIds(items[1..], known);
      } else {
        ByFirstIds(items[1..], known + {items[0].id});
      }
    }
  }

  lemma IdsConcat(a: seq<Account>, b: seq<Account>)
    ensures Ids(a + b) == Ids(a) + Ids(b)
  {
    forall id | id in Ids(a) + Ids(b) ensures id in Ids(a + b) {
      var x :| (x in a || x in b) && x.id != "" && x.id == id;
      assert x in a + b;
    }
  }

  lemma MergedIdsAreAll(stored: seq<Account>, incoming: seq<Account>)
    ensures Distinct(MergedIds(stored, incoming))
    ensures forall id :: id in MergedIds(stored, incoming) <==> id in Ids(stored + incoming)
  {
    ByLastIds(stored);
    ByFirstIds(incoming, Ids(stored));
    IdsConcat(stored, incoming);
    var front, tail, all := ByLast(stored), ByFirst(incoming, Ids(stored)), MergedIds(stored, incoming);
    forall i, j | 0 <= i < j < |all| ensures all[i] != all[j] {
      if i < |front| <= j {
        assert all[i] in front && all[j] in tail;
      }
    }
  }

  ghost function MergeSpec(stored: seq<Account>, incoming: seq<Account>): (r: seq<Account>) {
    MergedIdsAreAll(stored, incoming);
    Lookup(MergedIds(stored, incoming), stored + incoming)
  }

  // ---------------------------------------------------------------------------
  // The dict: first arrivals in order, each with its latest record
  // ---------------------------------------------------------------------------

  lemma {:induction false} PutAllConcat(known: seq<Account>, a: seq<Account>, b: seq<Account>)
    ensures PutAll(known, a + b) == PutAll(PutAll(known, a), b)
    decreases a
  {
    if a == [] {
      assert a + b == b;
    } else {
      assert (a + b)[1..] == a[1..] + b;
      PutAllConcat(if a[0].id == "" then known else Put(known, a[0]), a[1..], b);
    }
  }

  lemma {:induction false} ByFirstConcat(a: seq<Account>, b: seq<Account>, known: set<string>)
    ensures ByFirst(a + b, known) == ByFirst(a, known) + ByFirst(b, known + Ids(a))
    decreases a
  {
    if a == [] {
      assert a + b == b && known + Ids(a) == known;
    } else {
      var known' := if a[0].id == "" || a[0].id in known then known else known + {a[0].id};
      IdsHead(a);
      assert known' + Ids(a[1..]) == known + Ids(a);
      assert (a + b)[0] == a[0] && (a + b)[1..] == a[1..] + b;
      ByFirstConcat(a[1..], b, known');
    }
  }

  lemma {:induction false} LastConcat(a: seq<Account>, b: seq<Account>, id: string)
    requires id in Ids(a + b)
    ensures id in Ids(b) ==> Last(a + b, id) == Last(b, id)
    ensures id !in Ids(b) ==> id in Ids(a) && Last(a + b, id) == Last(a, id)
    decreases b
  {
    IdsConcat(a, b);
    if b == [] {
      assert a + b == a;
    } else {
      var front := b[..|b| - 1];
      assert (a + b)[..|a + b| - 1] == a + front;
      assert b == front + [b[|b| - 1]];
      IdsConcat(front, [b[|b| - 1]]);
      if b[|b| - 1].id != id {
        IdsConcat(a, front);
        LastConcat(a, front, id);
      }
    }
  }

  lemma {:induction false} LastHasId(items: seq<Account>, id: string)
    requires id in Ids(items)
    ensures Last(items, id) in items && Last(items, id).id == id
  {
    if items[|items| - 1].id != id {
      LastHasId(items[..|items| - 1], id);
    }
  }

  lemma {:induction false} PutReplaces(known: seq<Account>, a: Account, k: nat)
    requires k < |known| && known[k].id == a.id
    requires forall i :: 0 <= i < k ==> known[i].id != a.id
    ensures Put(known, a) == known[k := a]
  {
    if k > 0 {
      PutReplaces(known[1..], a, k - 1);
    }
  }

  lemma {:induction false} PutAppends(known: seq<Account>, a: Account)
    requires forall i :: 0 <= i < |known| ==> known[i].id != a.id
    ensures Put(known, a) == known + [a]
  {
    if known != [] {
      PutAppends(known[1..], a);
    }
  }

  lemma LookupHasIds(ids: seq<string>, items: seq<Account>)
    requires forall id :: id in ids ==> id in Ids(items)
    ensures forall i :: 0 <= i < |ids| ==> Lookup(ids, items)[i].id == ids[i]
  {
    forall i | 0 <= i < |ids| ensures Lookup(ids, items)[i].id == ids[i] {
      LastHasId(items, ids[i]);
    }
  }

  lemma LookupAppend(ids: seq<string>, items: seq<Account>, a: Account)
    requires forall id :: id in ids ==> id in Ids(items)
    ensures forall id :: id in ids ==> id in Ids(items + [a])
    ensures forall i :: 0 <= i < |ids| ==>
              Lookup(ids, items + [a])[i] == if a.id == ids[i] then a else Lookup(ids, items)[i]
  {
    IdsConcat(items, [a]);
    assert (items + [a])[..|items|] == items;
    forall i | 0 <= i < |ids| ensures Last(items + [a], ids[i]) == if a.id == ids[i] then a else Last(items, ids[i]) {
      assert ids[i] in ids;
    }
  }

  lemma PutOld(ids: seq<string>, items: seq<Account>, a: Account)
    requires Distinct(ids) && a.id in ids && forall id :: id in ids ==> id in Ids(items)
    ensures forall id :: id in ids ==> id in Ids(items + [a])
    ensures Put(Lookup(ids, items), a) == Lookup(ids, items + [a])
  {
    LookupAppend(ids, items, a);
    LookupHasIds(ids, items);
    var k :| 0 <= k < |ids| && ids[k] == a.id;
    PutReplaces(Lookup(ids, items), a, k);
  }

  lemma PutNew(ids: seq<string>, items: seq<Account>, a: Account)
    requires a.id != "" && a.id !in ids && forall id :: id in ids ==> id in Ids(items)
    ensures forall id :: id in ids + [a.id] ==> id in Ids(items + [a])
    ensures Put(Lookup(ids, items), a) == Lookup(ids + [a.id], items + [a])
  {
    LookupAppend(ids, items, a);
    LookupHasIds(ids, items);
    PutAppends(Lookup(ids, items), a);
    IdsConcat(items, [a]);
    assert a in [a];
  }

  lemma {:induction false} DictIsLookup(items: seq<Account>)
    ensures forall id :: id in ByFirst(items, {}) <==> id in Ids(items)
    ensures PutAll([], items) == Lookup(ByFirst(items, {}), items)
  {
    ByFirstIds(items, {});
    if items != [] {
      var front, a := items[..|items| - 1], items[|items| - 1];
      var ids := ByFirst(front, {});
      assert items == front + [a];
      DictIsLookup(front);
      PutAllConcat([], front, [a]);
      ByFirstConcat(front, [a], {});
      assert {} + Ids(front) == Ids(front);
      ByFirstIds(front, {});
      if a.id in ids {
        PutOld(ids, front, a);
      } else if a.id != "" {
        PutNew(ids, front, a);
      } else {
        KeylessLeavesLookup(ids, front, a);
      }
    }
  }

  lemma KeylessLeavesLookup(ids: seq<string>, items: seq<Account>, a: Account)
    requires a.id == "" && forall id :: id in ids ==> id in Ids(items)
    ensures forall id :: id in ids ==> id in Ids(items + [a])
    ensures Lookup(ids, items + [a]) == Lookup(ids, items)
  {
    LookupAppend(ids, items, a);
    assert forall i :: 0 <= i < |ids| ==> ids[i] in ids;
  }

  // ---------------------------------------------------------------------------
  // The sort: existing accounts by last position, then the tail of new ones
  // ---------------------------------------------------------------------------

  ghost function LastIndex(items: seq<Account>, id: string): nat
    requires id in Ids(items)
    ensures LastIndex(items, id) < |items|
  {
    if items[|items| - 1].id == id then |items| - 1 else LastIndex(items[..|items| - 1], id)
  }

  lemma {:induction false} LastIndexConcat(a: seq<Account>, b: seq<Account>, id: string)
    requires id in Ids(a + b)
    ensures id in Ids(b) ==> LastIndex(a + b, id) == |a| + LastIndex(b, id)
    ensures id !in Ids(b) ==> id in Ids(a) && LastIndex(a + b, id) == LastIndex(a, id)
    decreases b
  {
    IdsConcat(a, b);
    if b == [] {
      assert a + b == a;
    } else {
      var front := b[..|b| - 1];
      assert (a + b)[..|a + b| - 1] == a + front;
      assert b == front + [b[|b| - 1]];
      IdsConcat(front, [b[|b| - 1]]);
      if b[|b| - 1].id != id {
        IdsConcat(a, front);
        LastIndexConcat(a, front, id);
      }
    }
  }

  lemma {:induction false} PositionsAreLastIndexes(items: seq<Account>)
    ensures forall id :: id in Ids(items) ==> id in Positions(items) && Positions(items)[id] == LastIndex(items, id)
    ensures forall id :: id in Positions(items) && id != "" ==> id in Ids(items)
  {
    if items != [] {
      var front, a := items[..|items| - 1], items[|items| - 1];
      assert items == front + [a];
      IdsConcat(front, [a]);
      PositionsAreLastIndexes(front);
    }
  }

  lemma {:induction false} ByLastIncreases(items: seq<Account>)
    ensures forall id :: id in ByLast(items) <==> id in Ids(items)
    ensures forall i, j :: 0 <= i < j < |ByLast(items)| ==>
              LastIndex(items, ByLast(items)[i]) < LastIndex(items, ByLast(items)[j])
  {
    ByLastIds(items);
    if items != [] {
      var rest := items[1..];
      assert items == [items[0]] + rest;
      ByLastIncreases(rest);
      forall id | id in Ids(rest) ensures id in Ids(items) && LastIndex(items, id) == 1 + LastIndex(rest, id) {
        IdsConcat([items[0]], rest);
        LastIndexConcat([items[0]], rest, id);
      }
      if items[0].id != "" && items[0].id !in Ids(rest) {
        IdsConcat([items[0]], rest);
        LastIndexConcat([items[0]], rest, items[0].id);
        forall j | 0 < j < |ByLast(items)| ensures LastIndex(items, ByLast(items)[0]) < LastIndex(items, ByLast(items)[j]) {
          assert ByLast(items)[j] == ByLast(rest)[j - 1];
          assert ByLast(rest)[j - 1] in Ids(rest);
        }
      }
    }
  }

  lemma {:induction false} KeylessHaveNoIds(items: seq<Account>)
    ensures Ids(Keyless(items)) == {}
  {
    if items != [] {
      KeylessHaveNoIds(items[1..]);
      IdsConcat(if items[0].id == "" then [items[0]] else [], Keyless(items[1..]));
    }
  }

  // What the merge sorts by: the last position for an existing account, the sentinel for a new one.
  lemma RankIs(stored: seq<Account>, incoming: seq<Account>, a: Account)
    requires a.id != ""
    ensures Rank(Positions(stored + Keyless(incoming)), a) ==
            if a.id in Ids(stored) then LastIndex(stored, a.id) else UNSEEN
  {
    var listed := stored + Keyless(incoming);
    PositionsAreLastIndexes(listed);
    IdsConcat(stored, Keyless(incoming));
    KeylessHaveNoIds(incoming);
    if a.id in Ids(stored) {
      LastIndexConcat(stored, Keyless(incoming), a.id);
    }
  }

  // Nothing new arrives, or no existing account was last listed beyond the sentinel.
  ghost predicate OrderFits(stored: seq<Account>, incoming: seq<Account>) {
    ByFirst(incoming, Ids(stored)) == [] || forall id :: id in Ids(stored) ==> LastIndex(stored, id) <= UNSEEN
  }

  lemma {:induction false} DistinctCount<T(!new)>(s: seq<T>, x: T)
    requires Distinct(s)
    ensures multiset(s)[x] <= 1
  {
    if s != [] {
      assert s == [s[0]] + s[1..];
      DistinctCount(s[1..], x);
      if x == s[0] {
        assert x !in s[1..];
      }
    }
  }

  lemma TwiceCounted<T(!new)>(t: seq<T>, i: nat, j: nat)
    requires i < j < |t| && t[i] == t[j]
    ensures multiset(t)[t[i]] >= 2
  {
    assert t == t[..i] + [t[i]] + t[i + 1..j] + [t[j]] + t[j + 1..];
  }

  lemma PermutationDistinct<T(!new)>(s: seq<T>, t: seq<T>)
    requires Distinct(s) && multiset(s) == multiset(t)
    ensures Distinct(t)
  {
    forall i, j | 0 <= i < j < |t| ensures t[i] != t[j] {
      DistinctCount(s, t[i]);
      if t[i] == t[j] {
        TwiceCounted(t, i, j);
      }
    }
  }

  // Records of existing accounts: each is the latest with its id and ranks by last position.
  ghost predicate Ranked(order: map<string, int>, stored: seq<Account>, all: seq<Account>, s: seq<Account>) {
    forall a :: a in s ==>
      && a.id in Ids(stored) && a.id in Ids(all)
      && Rank(order, a) == LastIndex(stored, a.id)
      && a == Last(all, a.id)
  }

  lemma LookupIsRanked(stored: seq<Account>, incoming: seq<Account>, ids: seq<string>)
    requires forall id :: id in ids ==> id in Ids(stored) && id in Ids(stored + incoming)
    ensures Ranked(Positions(stored + Keyless(incoming)), stored, stored + incoming, Lookup(ids, stored + incoming))
  {
    var looked := Lookup(ids, stored + incoming);
    forall a | a in looked
      ensures a.id in Ids(stored) && a.id in Ids(stored + incoming)
      ensures a == Last(stored + incoming, a.id)
      ensures Rank(Positions(stored + Keyless(incoming)), a) == LastIndex(stored, a.id)
    {
      var i :| 0 <= i < |looked| && looked[i] == a;
      assert ids[i] in ids;
      LastHasId(stored + incoming, ids[i]);
      RankIs(stored, incoming, a);
    }
  }

  ghost predicate Rises(order: map<string, int>, s: seq<Account>) {
    forall i, j :: 0 <= i < j < |s| ==> Rank(order, s[i]) < Rank(order, s[j])
  }

  lemma RankedSortIsStrict(order: map<string, int>, stored: seq<Account>, all: seq<Account>, s: seq<Account>)
    requires Ranked(order, stored, all, s) && Distinct(s) && SortedBy(s, ByRank(order))
    ensures Rises(order, s)
  {
    forall i, j | 0 <= i < j < |s| ensures Rank(order, s[i]) < Rank(order, s[j]) {
      assert s[i] in s && s[j] in s && ByRank(order)(s[i], s[j]);
      LastIndexNames(stored, s[i].id);
      LastIndexNames(stored, s[j].id);
    }
  }

  lemma LookupDistinct(ids: seq<string>, items: seq<Account>)
    requires Distinct(ids) && forall id :: id in ids ==> id in Ids(items)
    ensures Distinct(Lookup(ids, items))
  {
    LookupHasIds(ids, items);
  }

  lemma SortedExistingRises(stored: seq<Account>, incoming: seq<Account>, ids: seq<string>)
    requires Distinct(ids) && forall id :: id in ids ==> id in Ids(stored) && id in Ids(stored + incoming)
    ensures var order := Positions(stored + Keyless(incoming));
            var sorted := Sort(Lookup(ids, stored + incoming), ByRank(order));
            Rises(order, sorted)
  {
    var all, order := stored + incoming, Positions(stored + Keyless(incoming));
    var existing := Lookup(ids, all);
    LookupDistinct(ids, all);
    LookupIsRanked(stored, incoming, ids);
    SortPermutes(existing, ByRank(order));
    SortSameElements(existing, ByRank(order));
    SortSorted(existing, ByRank(order));
    PermutationDistinct(existing, Sort(existing, ByRank(order)));
    RankedSortIsStrict(order, stored, all, Sort(existing, ByRank(order)));
  }

  lemma SortExisting(stored: seq<Account>, incoming: seq<Account>, ids: seq<string>)
    requires Distinct(ids) && forall id :: id in ids <==> id in Ids(stored)
    requires Ids(stored) <= Ids(stored + incoming)
    requires forall id :: id in ByLast(stored) <==> id in Ids(stored)
    ensures Sort(Lookup(ids, stored + incoming), ByRank(Positions(stored + Keyless(incoming))))
            == Lookup(ByLast(stored), stored + incoming)
  {
    var all, order := stored + incoming, Positions(stored + Keyless(incoming));
    var existing, byLast := Lookup(ids, all), Lookup(ByLast(stored), all);
    var sorted := Sort(existing, ByRank(order));
    SortSameElements(existing, ByRank(order));
    ByLastIds(stored);
    SameLookup(ids, ByLast(stored), all);
    SortedExistingRises(stored, incoming, ids);
    ByLastRises(stored, incoming);
    forall x ensures x in sorted <==> x in byLast {
      assert x in sorted <==> x in existing;
    }
    SameByRank(order, sorted, byLast);
  }

  lemma SameByRank(order: map<string, int>, a: seq<Account>, b: seq<Account>)
    requires Rises(order, a) && Rises(order, b)
    requires |a| == |b| && forall x :: x in a <==> x in b
    ensures a == b
  {
    var rank := (x: Account) => Rank(order, x);
    forall i, j | 0 <= i < j < |a| ensures rank(a[i]) < rank(a[j]) {}
    forall i, j | 0 <= i < j < |b| ensures rank(b[i]) < rank(b[j]) {}
    StrictlySortedUnique(a, b, rank);
  }

  lemma ByLastRises(stored: seq<Account>, incoming: seq<Account>)
    requires forall id :: id in ByLast(stored) ==> id in Ids(stored) && id in Ids(stored + incoming)
    ensures var order := Positions(stored + Keyless(incoming));
            var byLast := Lookup(ByLast(stored), stored + incoming);
            Rises(order, byLast)
  {
    var order := Positions(stored + Keyless(incoming));
    var byLast := Lookup(ByLast(stored), stored + incoming);
    LookupIsRanked(stored, incoming, ByLast(stored));
    LookupHasIds(ByLast(stored), stored + incoming);
    ByLastIncreases(stored);
    forall i, j | 0 <= i < j < |byLast| ensures Rank(order, byLast[i]) < Rank(order, byLast[j]) {
      assert byLast[i] in byLast && byLast[j] in byLast;
    }
  }

  lemma {:induction false} LastIndexNames(items: seq<Account>, id: string)
    requires id in Ids(items)
    ensures items[LastIndex(items, id)].id == id
  {
    if items[|items| - 1].id != id {
      LastIndexNames(items[..|items| - 1], id);
    }
  }

  // Two listings of the same ids look up the same records.
  lemma SameLookup(ids: seq<string>, ids': seq<string>, items: seq<Account>)
    requires Distinct(ids) && Distinct(ids')
    requires forall id :: id in ids <==> id in ids'
    requires forall id :: id in ids ==> id in Ids(items)
    ensures |ids| == |ids'|
    ensures forall a :: a in Lookup(ids, items) <==> a in Lookup(ids', items)
  {
    SameSize(ids, ids');
    forall a ensures a in Lookup(ids, items) <==> a in Lookup(ids', items) {
      if a in Lookup(ids, items) {
        var i :| 0 <= i < |ids| && Lookup(ids, items)[i] == a;
        assert ids[i] in ids;
        var j :| 0 <= j < |ids'| && ids'[j] == ids[i];
        assert Lookup(ids', items)[j] == a;
      }
      if a in Lookup(ids', items) {
        var i :| 0 <= i < |ids'| && Lookup(ids', items)[i] == a;
        assert ids'[i] in ids';
        var j :| 0 <= j < |ids| && ids[j] == ids'[i];
        assert Lookup(ids, items)[j] == a;
      }
    }
  }

  lemma SameSize<T(!new)>(s: seq<T>, t: seq<T>)
    requires Distinct(s) && Distinct(t) && forall x :: x in s <==> x in t
    ensures |s| == |t|
  {
    forall x ensures multiset(s)[x] == multiset(t)[x] {
      DistinctCount(s, x);
      DistinctCount(t, x);
      assert x in multiset(s) <==> x in s;
      assert x in multiset(t) <==> x in t;
    }
    assert multiset(s) == multiset(t);
    assert |multiset(s)| == |s| && |multiset(t)| == |t|;
  }

  // The dict before the sort, and the specification, both end in the new accounts.
  lemma SplitArrivals(stored: seq<Account>, incoming: seq<Account>)
    ensures forall id :: id in ByFirst(stored, {}) <==> id in Ids(stored)
    ensures forall id :: id in ByLast(stored) <==> id in Ids(stored)
    ensures forall id :: id in ByFirst(incoming, Ids(stored)) <==> id in Ids(incoming) && id !in Ids(stored)
    ensures Ids(stored + incoming) == Ids(stored) + Ids(incoming)
    ensures var all := stored + incoming;
            var arrivals := Lookup(ByFirst(incoming, Ids(stored)), all);
            && PutAll(PutAll([], stored), incoming) == Lookup(ByFirst(stored, {}), all) + arrivals
            && MergeSpec(stored, incoming) == Lookup(ByLast(stored), all) + arrivals
  {
    PutAllConcat([], stored, incoming);
    DictIsLookup(stored + incoming);
    ByFirstConcat(stored, incoming, {});
    assert {} + Ids(stored) == Ids(stored);
    ByFirstIds(stored, {});
    ByFirstIds(incoming, Ids(stored));
    ByLastIds(stored);
    IdsConcat(stored, incoming);
    LookupConcat(ByFirst(stored, {}), ByFirst(incoming, Ids(stored)), stored + incoming);
    LookupConcat(ByLast(stored), ByFirst(incoming, Ids(stored)), stored + incoming);
  }

  lemma LookupConcat(a: seq<string>, b: seq<string>, items: seq<Account>)
    requires forall id :: id in a + b ==> id in Ids(items)
    ensures Lookup(a + b, items) == Lookup(a, items) + Lookup(b, items)
  {
  }

  /** The dict and the stable sort together list existing accounts by last position and new
      ones by first arrival, each once and with its latest record, exactly when no existing
      account sits beyond the order sentinel or nothing new arrives. */
  lemma MergeMeetsSpec(stored: seq<Account>, incoming: seq<Account>)
    ensures Merge(stored, incoming) == MergeSpec(stored, incoming) <==> OrderFits(stored, incoming)
  {
    SplitArrivals(stored, incoming);
    ByFirstIds(stored, {});
    var order := Positions(stored + Keyless(incoming));
    var existing := Lookup(ByFirst(stored, {}), stored + incoming);
    var arrivals := Lookup(ByFirst(incoming, Ids(stored)), stored + incoming);
    SortExisting(stored, incoming, ByFirst(stored, {}));
    LookupIsRanked(stored, incoming, ByFirst(stored, {}));
    ArrivalsRankLast(stored, incoming);
    if OrderFits(stored, incoming) {
      forall x, y | x in existing + arrivals && y in arrivals ensures ByRank(order)(x, y) {
        assert x in existing || x in arrivals;
      }
      SortKeepsEqualTail(existing, arrivals, ByRank(order));
    } else {
      BeyondSentinelBreaksOrder(stored, incoming, Lookup(ByLast(stored), stored + incoming), arrivals);
    }
  }

  lemma ArrivalsRankLast(stored: seq<Account>, incoming: seq<Account>)
    requires forall id :: id in ByFirst(incoming, Ids(stored)) ==>
               id != "" && id !in Ids(stored) && id in Ids(stored + incoming)
    ensures forall a :: a in Lookup(ByFirst(incoming, Ids(stored)), stored + incoming) ==>
              Rank(Positions(stored + Keyless(incoming)), a) == UNSEEN
  {
    var ids := ByFirst(incoming, Ids(stored));
    var arrivals := Lookup(ids, stored + incoming);
    LookupHasIds(ids, stored + incoming);
    forall a | a in arrivals ensures Rank(Positions(stored + Keyless(incoming)), a) == UNSEEN {
      var i :| 0 <= i < |arrivals| && arrivals[i] == a;
      assert ids[i] in ids;
      RankIs(stored, incoming, a);
    }
  }

  lemma BeyondSentinelBreaksOrder(stored: seq<Account>, incoming: seq<Account>,
                                  byLast: seq<Account>, arrivals: seq<Account>)
    requires !OrderFits(stored, incoming)
    requires forall id :: id in ByLast(stored) <==> id in Ids(stored)
    requires Ids(stored) <= Ids(stored + incoming)
    requires byLast == Lookup(ByLast(stored), stored + incoming)
    requires |arrivals| > 0 && Rank(Positions(stored + Keyless(incoming)), arrivals[0]) == UNSEEN
    ensures Merge(stored, incoming) != byLast + arrivals
  {
    var order := Positions(stored + Keyless(incoming));
    var id :| id in Ids(stored) && LastIndex(stored, id) > UNSEEN;
    var i :| 0 <= i < |ByLast(stored)| && ByLast(stored)[i] == id;
    LookupHasIds(ByLast(stored), stored + incoming);
    RankIs(stored, incoming, byLast[i]);
    var spec := byLast + arrivals;
    assert !ByRank(order)(spec[i], spec[|byLast|]);
    SortSorted(PutAll(PutAll([], stored), incoming), ByRank(order));
  }

  // ---------------------------------------------------------------------------
  // Sequences of pushes
  // ---------------------------------------------------------------------------

  lemma {:induction false} ByLastOfDistinct(items: seq<Account>, ids: seq<string>)
    requires |items| == |ids| && Distinct(ids) && "" !in ids
    requires forall i :: 0 <= i < |ids| ==> items[i].id == ids[i]
    ensures ByLast(items) == ids
  {
    if items != [] {
      ByLastOfDistinct(items[1..], ids[1..]);
      ByLastIds(items[1..]);
    }
  }

  lemma {:induction false} LastOfLookup(ids: seq<string>, items: seq<Account>, id: string)
    requires Distinct(ids) && id in ids && forall x :: x in ids ==> x in Ids(items)
    ensures id in Ids(Lookup(ids, items)) && Last(Lookup(ids, items), id) == Last(items, id)
  {
    LookupHasIds(ids, items);
    LastHasId(items, id);
    var looked := Lookup(ids, items);
    var k :| 0 <= k < |ids| && ids[k] == id;
    assert looked[k] in looked && looked[k].id == id;
    LastHasId(looked, id);
    var m :| 0 <= m < |looked| && looked[m] == Last(looked, id);
  }

  // One merge, read back: the ids it lists, and its record for each.
  lemma MergeReadsBack(s: seq<Account>, a: seq<Account>)
    ensures ByLast(MergeSpec(s, a)) == MergedIds(s, a)
    ensures Ids(MergeSpec(s, a)) == Ids(s + a)
    ensures forall id :: id in Ids(s + a) ==> Last(MergeSpec(s, a), id) == Last(s + a, id)
  {
    var ids := MergedIds(s, a);
    MergedIdsAreAll(s, a);
    LookupHasIds(ids, s + a);
    assert "" !in ids;
    ByLastOfDistinct(MergeSpec(s, a), ids);
    ByLastIds(MergeSpec(s, a));
    forall id | id in Ids(s + a) ensures Last(MergeSpec(s, a), id) == Last(s + a, id) {
      LastOfLookup(ids, s + a, id);
    }
  }

  lemma LastOfAgreeing(x: seq<Account>, y: seq<Account>, b: seq<Account>, id: string)
    requires Ids(x) == Ids(y) && forall k :: k in Ids(y) ==> Last(x, k) == Last(y, k)
    requires id in Ids(y + b)
    ensures id in Ids(x + b) && Last(x + b, id) == Last(y + b, id)
  {
    IdsConcat(x, b);
    IdsConcat(y, b);
    LastConcat(x, b, id);
    LastConcat(y, b, id);
  }

  lemma MergedIdsConcat(s: seq<Account>, a: seq<Account>, b: seq<Account>)
    ensures MergedIds(MergeSpec(s, a), b) == MergedIds(s, a + b)
  {
    var once := MergeSpec(s, a);
    assert ByLast(once) == MergedIds(s, a) && Ids(once) == Ids(s) + Ids(a) by {
      MergeReadsBack(s, a);
      IdsConcat(s, a);
    }
    ByFirstConcat(a, b, Ids(s));
    var existing, first, second := ByLast(s), ByFirst(a, Ids(s)), ByFirst(b, Ids(s) + Ids(a));
    assert MergedIds(once, b) == (existing + first) + second;
    assert MergedIds(s, a + b) == existing + (first + second);
  }

  /** Two increments in a row amount to one: the merge of merges is the merge of the
      concatenation, in membership, order and values. */
  lemma MergeConcat(s: seq<Account>, a: seq<Account>, b: seq<Account>)
    ensures MergeSpec(MergeSpec(s, a), b) == MergeSpec(s, a + b)
  {
    MergedIdsConcat(s, a, b);
    MergedIdsAreAll(s, a + b);
    MergeReadsBack(s, a);
    LookupThroughMerge(MergeSpec(s, a), s + a, b, MergedIds(s, a + b), s + (a + b));
  }

  lemma LookupThroughMerge(x: seq<Account>, y: seq<Account>, b: seq<Account>, ids: seq<string>, all: seq<Account>)
    requires Ids(x) == Ids(y) && forall k :: k in Ids(y) ==> Last(x, k) == Last(y, k)
    requires all == y + b && forall id :: id in ids ==> id in Ids(all)
    ensures forall id :: id in ids ==> id in Ids(x + b)
    ensures Lookup(ids, x + b) == Lookup(ids, all)
  {
    forall id | id in ids ensures id in Ids(x + b) && Last(x + b, id) == Last(all, id) {
      LastOfAgreeing(x, y, b, id);
    }
    SameRecords(ids, x + b, all);
  }

  lemma SameRecords(ids: seq<string>, x: seq<Account>, y: seq<Account>)
    requires forall id :: id in ids ==> id in Ids(x) && id in Ids(y) && Last(x, id) == Last(y, id)
    ensures Lookup(ids, x) == Lookup(ids, y)
  {
    forall i | 0 <= i < |ids| ensures Lookup(ids, x)[i] == Lookup(ids, y)[i] {
      assert ids[i] in ids;
    }
  }

  lemma {:induction false} ByFirstOfKnown(items: seq<Account>, known: set<string>)
    requires Ids(items) <= known
    ensures ByFirst(items, known) == []
  {
    if items != [] {
      assert items == [items[0]] + items[1..];
      IdsConcat([items[0]], items[1..]);
      assert items[0].id != "" ==> items[0].id in Ids([items[0]]);
      ByFirstOfKnown(items[1..], known);
    }
  }

  /** A merge lists every account id once, with the latest record that carries it; records
      without an id are dropped. */
  lemma MergeListsLatest(s: seq<Account>, a: seq<Account>)
    ensures var r := MergeSpec(s, a);
            && (forall i, j :: 0 <= i < j < |r| ==> r[i].id != r[j].id)
            && (forall i :: 0 <= i < |r| ==> r[i].id in Ids(s + a) && r[i] == Last(s + a, r[i].id))
            && (forall id :: id in Ids(s + a) ==> exists i :: 0 <= i < |r| && r[i].id == id)
  {
    var ids, r := MergedIds(s, a), MergeSpec(s, a);
    MergedIdsAreAll(s, a);
    LookupHasIds(ids, s + a);
    forall i | 0 <= i < |r| ensures r[i].id in Ids(s + a) && r[i] == Last(s + a, r[i].id) {
      assert ids[i] in ids;
    }
    forall id | id in Ids(s + a) ensures exists i :: 0 <= i < |r| && r[i].id == id {
      var i :| 0 <= i < |ids| && ids[i] == id;
      assert r[i].id == id;
    }
  }

  /** Sending the same increment again changes nothing. */
  lemma MergeTwice(s: seq<Account>, a: seq<Account>)
    ensures MergeSpec(MergeSpec(s, a), a) == MergeSpec(s, a)
  {
    MergeConcat(s, a, a);
    ByFirstConcat(a, a, Ids(s));
    ByFirstOfKnown(a, Ids(s) + Ids(a));
    assert MergedIds(s, a + a) == MergedIds(s, a);
    MergedIdsAreAll(s, a);
    MergedIdsAreAll(s, a + a);
    assert s + (a + a) == s + a + a;
    forall id | id in Ids(s + a) ensures Last(s + (a + a), id) == Last(s + a, id) {
      IdsConcat(s, a);
      IdsConcat(s + a, a);
      LastConcat(s + a, a, id);
      LastConcat(s, a, id);
    }
    SameRecords(MergedIds(s, a), s + (a + a), s + a);
  }

  // One call of store; a write that fails leaves the file alone.
  datatype Push = Push(items: seq<Json>, replace: bool, written: bool)

  // The file after a run of pushes to a new store.
  function Snapshot(pushes: seq<Push>): seq<Account> {
    if pushes == [] then []
    else
      var before, last := Snapshot(pushes[..|pushes| - 1]), pushes[|pushes| - 1];
      if last.written then Pushed(before, Objects(last.items), last.replace) else before
  }

  // The last full push that was written, and everything written incrementally after it.
  ghost function Base(pushes: seq<Push>): seq<Account> {
    if pushes == [] then []
    else
      var last := pushes[|pushes| - 1];
      if last.written && last.replace then Objects(last.items) else Base(pushes[..|pushes| - 1])
  }

  ghost function Increments(pushes: seq<Push>): seq<Account> {
    if pushes == [] then []
    else
      var front, last := pushes[..|pushes| - 1], pushes[|pushes| - 1];
      if !last.written then Increments(front)
      else if last.replace then []
      else Increments(front) + Objects(last.items)
  }

  // An increment has been written since the last full push.
  predicate Incremented(pushes: seq<Push>) {
    pushes != [] &&
    var last := pushes[|pushes| - 1];
    if last.written then !last.replace else Incremented(pushes[..|pushes| - 1])
  }

  ghost predicate EveryMergeFits(pushes: seq<Push>) {
    pushes == [] ||
    var front, last := pushes[..|pushes| - 1], pushes[|pushes| - 1];
    EveryMergeFits(front) && (last.written && !last.replace ==> OrderFits(Snapshot(front), Objects(last.items)))
  }

  /** Snapshots small enough for the sentinel make every merge fit. */
  lemma {:induction false} SmallSnapshotsFit(pushes: seq<Push>)
    requires forall i :: 0 <= i < |pushes| ==> |Snapshot(pushes[..i])| <= 1_000_001
    ensures EveryMergeFits(pushes)
  {
    if pushes != [] {
      var front := pushes[..|pushes| - 1];
      forall i | 0 <= i < |front| ensures |Snapshot(front[..i])| <= 1_000_001 {
        assert front[..i] == pushes[..i];
      }
      SmallSnapshotsFit(front);
    }
  }

  /** Where the sentinel ends: an account last listed past position 10**6 is overtaken by a new one. */
  lemma MillionthAccountIsOvertaken(stored: seq<Account>, incoming: seq<Account>, k: nat, newcomer: Account)
    requires 1_000_000 < k < |stored| && stored[k].id != ""
    requires forall j :: k < j < |stored| ==> stored[j].id != stored[k].id
    requires newcomer in incoming && newcomer.id != "" && newcomer.id !in Ids(stored)
    ensures Merge(stored, incoming) != MergeSpec(stored, incoming)
  {
    MergeMeetsSpec(stored, incoming);
    ByFirstIds(incoming, Ids(stored));
    assert newcomer.id in ByFirst(incoming, Ids(stored));
    assert stored[k] in stored && stored[k].id in Ids(stored);
    LastIndexIs(stored, k);
  }

  lemma {:induction false} LastIndexIs(items: seq<Account>, k: nat)
    requires k < |items| && items[k].id in Ids(items)
    requires forall j :: k < j < |items| ==> items[j].id != items[k].id
    ensures LastIndex(items, items[k].id) == k
  {
    if k < |items| - 1 {
      var front := items[..|items| - 1];
      assert front[k] in front;
      LastIndexIs(front, k);
    }
  }

  /** After any sequence of pushes, failed writes among them, the file is the last full push that was
      written, merged once with the concatenation of the increments written after it, if any. */
  lemma {:induction false} SnapshotIsOneMerge(pushes: seq<Push>)
    requires EveryMergeFits(pushes)
    ensures Snapshot(pushes) == if Incremented(pushes) then MergeSpec(Base(pushes), Increments(pushes)) else Base(pushes)
    ensures !Incremented(pushes) ==> Increments(pushes) == []
  {
    if pushes != [] {
      var front, last := pushes[..|pushes| - 1], pushes[|pushes| - 1];
      SnapshotIsOneMerge(front);
      if last.written && !last.replace {
        MergeMeetsSpec(Snapshot(front), Objects(last.items));
        if Incremented(front) {
          MergeConcat(Base(front), Increments(front), Objects(last.items));
        } else {
          assert [] + Objects(last.items) == Objects(last.items);
        }
      }
    }
  }

  /** After a full push that was written the file is the pushed objects, in their order, whatever was
      there before and whatever failed to be written since. */
  lemma {:induction false} FullPushIsFile(before: seq<Push>, accounts: seq<Account>, after: seq<Push>)
    requires forall p :: p in after ==> !p.written
    ensures Snapshot(before + [Push(AsJson(accounts), true, true)] + after) == accounts
  {
    var pushes := before + [Push(AsJson(accounts), true, true)] + after;
    if after == [] {
      ObjectsAreKeptWhole(accounts);
      assert pushes == before + [Push(AsJson(accounts), true, true)];
    } else {
      var front := after[..|after| - 1];
      FullPushIsFile(before, accounts, front);
      assert pushes[..|pushes| - 1] == before + [Push(AsJson(accounts), true, true)] + front;
      assert pushes[|pushes| - 1] == after[|after| - 1];
    }
  }

  // The accounts endpoint rejects a push unless all its items are objects whose account_id has 1 to
  // 256 characters.
  predicate Validated(items: seq<Json>) {
    forall x :: x in items ==> x.Object? && 1 <= |x.account.id| <= 256
  }

  // The push was written, and no full push was after it.
  predicate Counts(pushes: seq<Push>, i: nat) {
    i < |pushes| && pushes[i].written && forall j :: i < j < |pushes| && pushes[j].written ==> !pushes[j].replace
  }

  ghost predicate PushedUnder(pushes: seq<Push>, i: nat, id: string) {
    Counts(pushes, i) && exists a :: Object(a) in pushes[i].items && a.id == id
  }

  ghost predicate HasAccount(items: seq<Account>, id: string) {
    exists a :: a in items && a.id == id
  }

  lemma CountsBefore(pushes: seq<Push>, i: nat)
    requires pushes != []
    ensures var front, last := pushes[..|pushes| - 1], pushes[|pushes| - 1];
            Counts(pushes, i) <==>
            if i == |pushes| - 1 then last.written else Counts(front, i) && !(last.written && last.replace)
  {
    var front := pushes[..|pushes| - 1];
    assert forall j :: 0 <= j < |front| ==> front[j] == pushes[j];
  }

  lemma KeptHasAccount(items: seq<Json>, id: string)
    ensures HasAccount(Objects(items), id) <==> exists a :: Object(a) in items && a.id == id
  {
    forall a ensures a in Objects(items) <==> Object(a) in items {
      KeptExactly(items, a);
    }
  }

  // What the last full push and the increments after it name is what the pushes that count hold.
  lemma {:induction false} NamedIsPushed(pushes: seq<Push>, id: string)
    ensures HasAccount(Base(pushes) + Increments(pushes), id) <==> exists i: nat :: PushedUnder(pushes, i, id)
  {
    if pushes != [] {
      var front, last := pushes[..|pushes| - 1], pushes[|pushes| - 1];
      NamedIsPushed(front, id);
      KeptHasAccount(last.items, id);
      forall i: nat ensures PushedUnder(pushes, i, id) <==>
          if i == |front| then last.written && HasAccount(Objects(last.items), id)
          else PushedUnder(front, i, id) && !(last.written && last.replace)
      {
        CountsBefore(pushes, i);
        assert i < |front| ==> front[i] == pushes[i];
      }
      var kept := Objects(last.items);
      if last.written && last.replace {
        assert Base(pushes) + Increments(pushes) == kept;
        assert HasAccount(kept, id) ==> PushedUnder(pushes, |front|, id);
      } else if last.written {
        assert Base(pushes) + Increments(pushes) == Base(front) + Increments(front) + kept;
        HasEither(Base(front) + Increments(front), kept, id);
        assert HasAccount(kept, id) ==> PushedUnder(pushes, |front|, id);
        if i: nat :| PushedUnder(front, i, id) {
          assert PushedUnder(pushes, i, id);
        }
      } else {
        if i: nat :| PushedUnder(front, i, id) {
          assert PushedUnder(pushes, i, id);
        }
      }
    } else {
      assert Base(pushes) + Increments(pushes) == [];
    }
  }

  lemma HasEither(a: seq<Account>, b: seq<Account>, id: string)
    ensures HasAccount(a + b, id) <==> HasAccount(a, id) || HasAccount(b, id)
  {
    forall x | x in a || x in b ensures x in a + b {}
  }

  lemma MergeHasAccount(s: seq<Account>, a: seq<Account>, id: string)
    ensures HasAccount(MergeSpec(s, a), id) <==> id in Ids(s + a)
  {
    MergeListsLatest(s, a);
    var r := MergeSpec(s, a);
    if id in Ids(s + a) {
      var i :| 0 <= i < |r| && r[i].id == id;
      assert r[i] in r;
    }
  }

  ghost predicate AllKeyed(items: seq<Account>) {
    forall a :: a in items ==> a.id != ""
  }

  lemma {:induction false} ValidatedParts(pushes: seq<Push>)
    requires forall p :: p in pushes ==> Validated(p.items)
    ensures AllKeyed(Base(pushes)) && AllKeyed(Increments(pushes))
  {
    if pushes != [] {
      var last := pushes[|pushes| - 1];
      assert last in pushes;
      ValidatedParts(pushes[..|pushes| - 1]);
      forall a | a in Objects(last.items) ensures a.id != "" {
        KeptExactly(last.items, a);
      }
    }
  }

  /** Through the endpoint no account is ever lost: the file names an account exactly when some push
      that counts, the last full one that was written or a written increment after it, has an object
      with its id. */
  lemma ValidatedPushesLoseNothing(pushes: seq<Push>, id: string)
    requires EveryMergeFits(pushes) && forall p :: p in pushes ==> Validated(p.items)
    ensures HasAccount(Snapshot(pushes), id) <==> exists i: nat :: PushedUnder(pushes, i, id)
  {
    ValidatedParts(pushes);
    SnapshotIsOneMerge(pushes);
    NamedIsPushed(pushes, id);
    var named := Base(pushes) + Increments(pushes);
    if Incremented(pushes) {
      MergeHasAccount(Base(pushes), Increments(pushes), id);
      assert HasAccount(named, id) <==> id in Ids(named);
    } else {
      assert named == Base(pushes);
    }
  }
}
