/** WireGuard's baselines: the tracker knows peers by public key, the file knows accounts. */
module WireguardUsage {
  import opened Common
  import opened UsageAccounting

  // The accounts a driver has been given, each with its public key, if it has one. They live in
  // memory only.
  type Accounts = map<string, Option<string>>

  // An empty key counts as none.
  function KeyOf(accounts: Accounts, account: string): Option<string> {
    if account in accounts && accounts[account].Some? && accounts[account].value != "" then accounts[account] else None
  }

  // No two accounts share a key.
  ghost predicate OwnKeys(accounts: Accounts) {
    forall a, b :: KeyOf(accounts, a).Some? && KeyOf(accounts, a) == KeyOf(accounts, b) ==> a == b
  }

  // The account's entry in a snapshot.
  function Carried(accounts: Accounts, raw: Baseline, account: string): Option<Totals> {
    if account in accounts && accounts[account].Some? && accounts[account].value in raw
    then Some(raw[accounts[account].value]) else None
  }

  ghost predicate Claims(accounts: Accounts, baselines: Baseline, account: string, key: string) {
    account in baselines && KeyOf(accounts, account) == Some(key)
  }

  ghost predicate Claimed(accounts: Accounts, baselines: Baseline, key: string) {
    exists a :: Claims(accounts, baselines, a, key)
  }

  ghost predicate ResumesAt(accounts: Accounts, baselines: Baseline, before: Baseline, after: Baseline, key: string) {
    if Claimed(accounts, baselines, key)
    then key in after && exists a :: Claims(accounts, baselines, a, key) && after[key] == baselines[a]
    else (key in after <==> key in before) && (key in after ==> after[key] == before[key])
  }

  // What a restore makes of a tracker: the keys of known accounts take over their totals, the
  // others stay.
  ghost predicate Resumes(accounts: Accounts, baselines: Baseline, before: Baseline, after: Baseline) {
    forall key :: ResumesAt(accounts, baselines, before, after, key)
  }

  // The same of the part of the baselines that has been translated.
  ghost predicate Translates(accounts: Accounts, baselines: Baseline, done: set<string>, translated: Baseline) {
    && (forall a :: a in done && KeyOf(accounts, a).Some? ==> KeyOf(accounts, a).value in translated)
    && (forall key :: key in translated ==>
          exists a :: a in done && Claims(accounts, baselines, a, key) && translated[key] == baselines[a])
  }

  lemma TranslateOneMore(accounts: Accounts, baselines: Baseline, done: set<string>, translated: Baseline, account: string)
    requires Translates(accounts, baselines, done, translated) && account in baselines
    ensures var key := KeyOf(accounts, account);
            Translates(accounts, baselines, done + {account},
                       if key.Some? then translated[key.value := baselines[account]] else translated)
  {
    var key := KeyOf(accounts, account);
    var more := if key.Some? then translated[key.value := baselines[account]] else translated;
    forall k | k in more
      ensures exists a :: a in done + {account} && Claims(accounts, baselines, a, k) && more[k] == baselines[a]
    {
      if key == Some(k) {
        assert Claims(accounts, baselines, account, k);
      } else {
        var a :| a in done && Claims(accounts, baselines, a, k) && translated[k] == baselines[a];
        assert a in done + {account};
      }
    }
  }

  lemma TranslatedResumes(accounts: Accounts, baselines: Baseline, translated: Baseline, before: Baseline)
    requires Translates(accounts, baselines, baselines.Keys, translated)
    ensures Resumes(accounts, baselines, before, before + translated)
  {
    forall key ensures ResumesAt(accounts, baselines, before, before + translated, key) {
      if Claimed(accounts, baselines, key) {
        var a :| Claims(accounts, baselines, a, key);
        assert a in baselines.Keys;
      }
    }
  }

  class WireguardDriver {
    const tracker: DeltaTracker
    var accounts: Accounts

    // A driver starts with no accounts and an empty tracker.
    constructor ()
      ensures accounts == map[] && fresh(tracker) && tracker.baseline == map[]
    {
      tracker := new DeltaTracker();
      accounts := map[];
    }

    method SyncAccounts(accounts: Accounts)
      modifies this
      ensures this.accounts == accounts
    {
      this.accounts := accounts;
    }

    method UsageTrackerSnapshot() returns (out: Baseline)
      ensures forall a :: (if a in out then Some(out[a]) else None) == Carried(accounts, tracker.baseline, a)
    {
      out := map[];
      var raw, left := tracker.baseline, accounts.Keys;
      while left != {}
        invariant left <= accounts.Keys
        invariant forall a ::
                    (if a in out then Some(out[a]) else None) == if a in left then None else Carried(accounts, raw, a)
      {
        var a :| a in left;
        left := left - {a};
        if accounts[a].Some? && accounts[a].value in raw {
          out := out[a := raw[accounts[a].value]];
        }
      }
    }

    method RestoreUsageBaselines(baselines: Baseline)
      modifies tracker
      ensures Resumes(accounts, baselines, old(tracker.baseline), tracker.baseline)
    {
      var translated: Baseline := map[];
      var left := baselines.Keys;
      while left != {}
        invariant tracker.baseline == old(tracker.baseline)
        invariant left <= baselines.Keys
        invariant Translates(accounts, baselines, baselines.Keys - left, translated)
      {
        var a :| a in left;
        TranslateOneMore(accounts, baselines, baselines.Keys - left, translated, a);
        assert baselines.Keys - left + {a} == baselines.Keys - (left - {a});
        left := left - {a};
        if a !in accounts {
          continue;
        }
        if accounts[a].Some? && accounts[a].value != "" {
          translated := translated[accounts[a].value := baselines[a]];
        }
      }
      assert baselines.Keys - left == baselines.Keys;
      ghost var before := tracker.baseline;
      TranslatedResumes(accounts, baselines, translated, before);
      tracker.Restore(translated);
      assert tracker.baseline == before + translated;
    }
  }

  /** A saved baseline survives a restart exactly when its account was known when the restore ran:
      then the first read bills the growth since the save, and otherwise the whole counter. */
  lemma SurvivesExactlyIfKnown(known: Accounts, later: Accounts, baselines: Baseline, after: Baseline,
                               account: string, shown: Totals)
    requires Resumes(known, baselines, map[], after) && OwnKeys(later)
    // accounts keep their keys
    requires forall a :: KeyOf(known, a).Some? ==> KeyOf(later, a) == KeyOf(known, a)
    requires account in baselines && KeyOf(later, account).Some?
    ensures var key := KeyOf(later, account).value;
            && (key in after <==> KeyOf(known, account).Some?)
            && (key in after ==> after[key] == baselines[account])
            && DeltaOf(after, Reading(key, shown))
               == if KeyOf(known, account).Some? then DeltaOf(baselines, Reading(account, shown)) else shown
  {
    var key := KeyOf(later, account).value;
    assert ResumesAt(known, baselines, map[], after, key);
    if KeyOf(known, account).Some? {
      assert Claims(known, baselines, account, key);
      var a :| Claims(known, baselines, a, key) && after[key] == baselines[a];
      assert KeyOf(later, a) == KeyOf(later, account);
    }
  }

  /** The boot restores baselines before accounts: every baseline is dropped, and the first read
      bills the whole counter of every peer. */
  lemma BootDropsEveryBaseline(baselines: Baseline, after: Baseline, key: string, shown: Totals)
    requires Resumes(map[], baselines, map[], after)
    ensures after == map[] && DeltaOf(after, Reading(key, shown)) == shown
  {
    forall k ensures k !in after {
      assert ResumesAt(map[], baselines, map[], after, k);
    }
  }

  /** With the accounts known at both ends, a snapshot restored into a new tracker gives back every
      total it listed; no read or restore ever puts an empty key into a tracker. */
  lemma SnapshotRestores(accounts: Accounts, raw: Baseline, out: Baseline, after: Baseline, account: string)
    requires OwnKeys(accounts) && "" !in raw
    requires forall a :: (if a in out then Some(out[a]) else None) == Carried(accounts, raw, a)
    requires Resumes(accounts, out, map[], after)
    ensures Carried(accounts, after, account) == Carried(accounts, raw, account)
  {
    var key := KeyOf(accounts, account);
    assert ResumesAt(accounts, out, map[], after, "");
    if key.Some? {
      assert ResumesAt(accounts, out, map[], after, key.value);
      if Claimed(accounts, out, key.value) {
        var b :| Claims(accounts, out, b, key.value) && after[key.value] == out[b];
        assert b == account;
      } else {
        assert !Claims(accounts, out, account, key.value);
        assert Carried(accounts, raw, account) == None;
      }
    }
  }

  // The account has this key, which is not empty.
  predicate HasKey(accounts: Accounts, account: string, key: string) {
    key != "" && account in accounts && accounts[account] == Some(key)
  }

  /** A restore, written out: a key takes over the total of a known account that has it, and a key that
      no known account of the baselines has stays as it was. */
  lemma ResumesWrittenOut(accounts: Accounts, baselines: Baseline, before: Baseline, after: Baseline, key: string)
    requires Resumes(accounts, baselines, before, after)
    ensures (exists a :: a in baselines && HasKey(accounts, a, key)) ==>
              key in after && exists a :: a in baselines && HasKey(accounts, a, key) && after[key] == baselines[a]
    ensures (forall a :: a in baselines ==> !HasKey(accounts, a, key)) ==>
              (key in after <==> key in before) && (key in after ==> after[key] == before[key])
  {
    assert ResumesAt(accounts, baselines, before, after, key);
    forall a ensures Claims(accounts, baselines, a, key) <==> a in baselines && HasKey(accounts, a, key) {}
  }

  /** A snapshot, written out: it lists a known account exactly when the tracker holds its key, with what
      the tracker holds. */
  lemma SnapshotWrittenOut(accounts: Accounts, raw: Baseline, out: Baseline, account: string)
    requires forall a :: (if a in out then Some(out[a]) else None) == Carried(accounts, raw, a)
    ensures account in out <==> account in accounts && accounts[account] != None && accounts[account].value in raw
    ensures account in out ==> out[account] == raw[accounts[account].value]
  {
    assert (if account in out then Some(out[account]) else None) == Carried(accounts, raw, account);
  }
}
