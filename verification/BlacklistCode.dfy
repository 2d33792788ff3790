/**
 The manager's blacklist methods over its fields, each proved to be an atomic step of the
 blacklist protocol, and the job goroutine with arbitrary activity of others in between.
 */
module BlacklistCode {
  import opened Common
  import opened Blacklist

  type Script = nat -> seq<Action>

  predicate IsJobStep(a: Action, j: nat) {
    (a.Announce? || a.Finish? || a.End?) && a.j == j
  }

  /** Others leave a job goroutine where it is. */
  lemma OthersKeepJob(s: State, a: Action, j: nat)
    requires Enabled(s, a) && j < |s.jobs| && !IsJobStep(a, j)
    ensures j < |Do(s, a).jobs| && Do(s, a).jobs[j] == s.jobs[j]
  {
  }

  class Manager {
    var blacklist: map<Host, Entry>
    var disk: map<Host, Entry>
    var test: Test
    /** The job goroutines and where they stand. */
    var jobs: seq<Job>
    var log: seq<Note>
    ghost const first: map<Host, Entry>
    ghost var run: seq<Action>

    function Now(): State reads this { State(blacklist, disk, test, jobs, log) }

    ghost predicate Valid() reads this { Exec(first, run) == Some(Now()) }

    constructor (loaded: map<Host, Entry>)
      ensures Valid() && first == loaded && Now() == Init(loaded)
    {
      blacklist, disk, test, jobs, log := loaded, loaded, Test(false, 0, 0, []), [], [];
      first, run := loaded, [];
    }

    /** The keys of the blacklist in order. */
    method SortedHosts() returns (hosts: seq<Host>)
      ensures IsListing(hosts, blacklist.Keys)
    {
      hosts := [];
      var left := blacklist.Keys;
      while left != {}
        invariant left <= blacklist.Keys && IsListing(hosts, blacklist.Keys - left)
        decreases left
      {
        var host :| host in left;
        hosts := Insert(hosts, host, blacklist.Keys - left);
        left := left - {host};
        assert blacklist.Keys - left == (blacklist.Keys - (left + {host})) + {host};
      }
    }

    method Insert(hosts: seq<Host>, host: Host, ghost all: set<Host>) returns (r: seq<Host>)
      requires IsListing(hosts, all) && host !in all
      ensures IsListing(r, all + {host})
    {
      var k := 0;
      while k < |hosts| && Below(hosts[k], host)
        invariant k <= |hosts| && forall i :: 0 <= i < k ==> Below(hosts[i], host)
      {
        k := k + 1;
      }
      r := hosts[..k] + [host] + hosts[k..];
      Inserted(hosts, host, k, all);
    }

    /** StartBlacklistTest: refused exactly while a job runs. */
    method StartBlacklistTest(known: set<Host>) returns (ok: bool, ghost listing: seq<Host>)
      requires Valid()
      modifies this
      ensures Valid() && ok == !old(test.running)
      ensures IsListing(listing, blacklist.Keys) && run == old(run) + [Start(listing, known)]
      ensures Now() == DoStart(old(Now()), listing, known)
    {
      var hosts := SortedHosts();
      listing := hosts;
      ExecStep(first, run, Start(hosts, known));
      run := run + [Start(hosts, known)];
      if test.running { ok := false; return; }
      var results := [];
      for i := 0 to |hosts|
        invariant results == PendingResults(hosts)[..i]
      {
        results := results + [Result(hosts[i], Pending)];
      }
      assert results == PendingResults(hosts);
      test := Test(true, |hosts|, 0, results);
      jobs := jobs + [Job(hosts, known, blacklist.Keys, 0, Announcing, [])];
      ok := true;
    }

    method SetBlacklistTestResult(index: nat, result: Result, completed: bool)
      modifies this`test
      ensures test == SetResult(old(test), index, result, completed)
    {
      if index >= |test.results| { return; }
      test := test.(results := test.results[index := result]);
      if completed { test := test.(completed := test.completed + 1); }
    }

    /** RestoreAvailableBlacklist under the lock. */
    method RestoreLocked(save: Save) returns (restored: nat, ok: bool)
      modifies this`blacklist, this`disk, this`log
      ensures Now() == DoRestore(old(Now()), save)
      ensures ok <==> !old(test.running) && (old(Restorable(Now())) == {} || save.Saved?)
      ensures restored == if ok then |old(Restorable(Now()))| else 0
    {
      if test.running { return 0, false; }
      var gone := Restorable(Now());
      var updated: map<Host, Entry>;
      updated, restored := WithoutPassed(blacklist, test.results);
      if restored == 0 { return 0, true; }
      disk := Stored(disk, updated, save);
      if !save.Saved? { return 0, false; }
      blacklist := updated;
      log := log + [Restored(gone)];
      ok := true;
    }

    method RestoreAvailableBlacklist(save: Save) returns (restored: nat, ok: bool)
      requires Valid()
      modifies this
      ensures Valid() && run == old(run) + [Restore(save)] && Now() == DoRestore(old(Now()), save)
      ensures ok <==> !old(test.running) && (old(Restorable(Now())) == {} || save.Saved?)
      ensures restored == if ok then |old(Restorable(Now()))| else 0
    {
      ExecStep(first, run, Restore(save));
      run := run + [Restore(save)];
      restored, ok := RestoreLocked(save);
    }

    /** markBlacklisted: a failing save is only logged. */
    method MarkBlacklisted(host: Host, reason: Entry, save: Save)
      requires Valid()
      modifies this
      ensures Valid() && run == old(run) + [Mark(host, reason, save)] && Now() == DoMark(old(Now()), host, reason, save)
    {
      ExecStep(first, run, Mark(host, reason, save));
      run := run + [Mark(host, reason, save)];
      blacklist := blacklist[host := reason];
      disk := Stored(disk, blacklist, save);
      log := log + [Marked(host)];
    }

    method IsBlacklisted(host: Host) returns (yes: bool)
      requires Valid()
      ensures yes <==> LastSays(first.Keys, log, host)
    {
      NoMarkIsLost(first, run, host);
      return host in blacklist;
    }

    // ---------- the job goroutine ----------

    /** The first half of a round: the entry is shown as running. */
    method AnnounceHost(j: nat)
      requires Valid() && Enabled(Now(), Announce(j))
      modifies this
      ensures Valid() && run == old(run) + [Announce(j)] && Now() == DoAnnounce(old(Now()), j)
    {
      ExecStep(first, run, Announce(j));
      run := run + [Announce(j)];
      var job := jobs[j];
      SetBlacklistTestResult(job.index, Result(job.hosts[job.index], Running), false);
      jobs := jobs[j := job.(phase := Verifying)];
    }

    /** The second half: the verdict, or skipped for a host that is not in the pool. */
    method FinishHost(j: nat, passed: bool)
      requires Valid() && Enabled(Now(), Finish(j, passed))
      modifies this
      ensures Valid() && run == old(run) + [Finish(j, passed)] && Now() == DoFinish(old(Now()), j, passed)
    {
      ExecStep(first, run, Finish(j, passed));
      run := run + [Finish(j, passed)];
      var job := jobs[j];
      var host := job.hosts[job.index];
      var result := Result(host, Running);
      if host !in job.known {
        result := result.(status := Skipped);
      } else if !passed {
        result := result.(status := Failed);
      } else {
        result := result.(status := Passed);
      }
      SetBlacklistTestResult(job.index, result, true);
      jobs := jobs[j := job.(phase := Announcing, index := job.index + 1, verdicts := job.verdicts + [passed])];
    }

    method EndJob(j: nat)
      requires Valid() && Enabled(Now(), End(j))
      modifies this
      ensures Valid() && run == old(run) + [End(j)] && Now() == DoEnd(old(Now()), j)
    {
      ExecStep(first, run, End(j));
      run := run + [End(j)];
      test := test.(running := false);
      jobs := jobs[j := jobs[j].(phase := Ended)];
    }

    method Perform(a: Action)
      requires Valid() && Enabled(Now(), a)
      modifies this
      ensures Valid() && run == old(run) + [a] && Now() == Do(old(Now()), a)
    {
      match a
      case Start(hosts, known) =>
        ghost var keys := blacklist.Keys;
        ghost var listing;
        var ok;
        ok, listing := StartBlacklistTest(known);
        ListingIsUnique(listing, hosts, keys);
      case Announce(j) => AnnounceHost(j);
      case Finish(j, passed) => FinishHost(j, passed);
      case End(j) => EndJob(j);
      case Mark(host, entry, save) => MarkBlacklisted(host, entry, save);
      case Restore(save) => var _, _ := RestoreAvailableBlacklist(save);
    }

    /** What callers, the supervisor and other jobs do before this job goes on; impossible steps are skipped. */
    method Others(acts: seq<Action>, j: nat)
      requires Valid() && j < |jobs|
      modifies this
      ensures Valid() && j < |jobs| && jobs[j] == old(jobs[j])
    {
      for i := 0 to |acts|
        invariant Valid() && j < |jobs| && jobs[j] == old(jobs[j])
      {
        if Enabled(Now(), acts[i]) && !IsJobStep(acts[i], j) {
          OthersKeepJob(Now(), acts[i], j);
          Perform(acts[i]);
        }
      }
    }

    /**
     runBlacklistTest. Whatever happens meanwhile, at its end the status shows this job, complete:
     every listed host with the verdict given for it, or skipped if it was not in the pool.
     */
    method RunBlacklistTest(j: nat, verdict: nat -> bool, script: Script)
      requires Valid() && JobAt(Now(), j, Announcing) && jobs[j].index == 0 && jobs[j].verdicts == []
      modifies this
      ensures Valid() && !test.running
      ensures var hosts, known := old(jobs[j].hosts), old(jobs[j].known);
        && test.completed == test.total == |test.results| == |hosts|
        && forall i :: 0 <= i < |hosts| ==>
             test.results[i] == Result(hosts[i], if hosts[i] !in known then Skipped else if verdict(i) then Passed else Failed)
    {
      var hosts := jobs[j].hosts;
      ghost var job := jobs[j];
      for i := 0 to |hosts|
        invariant Valid() && j < |jobs| && jobs[j] == job.(index := i, verdicts := jobs[j].verdicts)
        invariant |jobs[j].verdicts| == i && forall k :: 0 <= k < i ==> jobs[j].verdicts[k] == verdict(k)
      {
        Others(script(2 * i), j);
        AnnounceHost(j);
        Others(script(2 * i + 1), j);
        FinishHost(j, verdict(i));
      }
      Others(script(2 * |hosts|), j);
      EndJob(j);
      JobIsShown(first, run, j);
    }
  }

  lemma JobIsShown(first: map<Host, Entry>, run: seq<Action>, j: nat)
    requires |run| > 0 && run[|run| - 1] == End(j) && Exec(first, run).Some? && j < |Exec(first, run).value.jobs|
    ensures var s := Exec(first, run).value; Shows(s.test, s.jobs[j]) && !s.test.running && s.jobs[j].phase.Ended?
  {
    RunKeepsInv(first, run[..|run| - 1]);
    RunKeepsInv(first, run);
    var before := Exec(first, run[..|run| - 1]).value;
    assert before.jobs[j].phase.Announcing?;
    assert j == |before.jobs| - 1;
  }

  lemma Inserted(hosts: seq<Host>, host: Host, k: nat, all: set<Host>)
    requires IsListing(hosts, all) && host !in all && k <= |hosts|
    requires forall i :: 0 <= i < k ==> Below(hosts[i], host)
    requires k < |hosts| ==> !Below(hosts[k], host)
    ensures IsListing(hosts[..k] + [host] + hosts[k..], all + {host})
  {
    var r := hosts[..k] + [host] + hosts[k..];
    forall i | k <= i < |hosts| ensures Below(host, hosts[i]) {
      assert hosts[k] in hosts && hosts[k] != host;
      BelowIsStrictOrder(hosts[k], host, host);
      BelowIsStrictOrder(host, hosts[k], hosts[i]);
    }
    forall h | h in all + {host} ensures h in r {
      if h != host {
        assert h in hosts;
        var i :| 0 <= i < |hosts| && hosts[i] == h;
        assert r[if i < k then i else i + 1] == h;
      } else {
        assert r[k] == host;
      }
    }
  }

  lemma PassedStep(results: seq<Result>, i: nat)
    requires i < |results|
    ensures PassedHosts(results[..i + 1]) == PassedHosts(results[..i]) + if results[i].status.Passed? then {results[i].host} else {}
  {
    var shorter, longer := results[..i], results[..i + 1];
    forall h ensures h in PassedHosts(longer) <==> h in PassedHosts(shorter) || (results[i].status.Passed? && h == results[i].host) {
      if k :| 0 <= k < |longer| && longer[k].status.Passed? && longer[k].host == h { assert k < i ==> shorter[k] == longer[k]; }
      if k :| 0 <= k < |shorter| && shorter[k].status.Passed? && shorter[k].host == h { assert longer[k] == shorter[k]; }
      assert longer[i] == results[i];
    }
  }

  /** How far the loop of a restore has come: what is kept, and how many were taken out. */
  predicate Dropped(m: map<Host, Entry>, passed: set<Host>, updated: map<Host, Entry>, restored: nat) {
    updated == m - passed && restored == |passed * m.Keys|
  }

  lemma RemoveAlso(m: map<Host, Entry>, gone: set<Host>, host: Host)
    ensures m - (gone + {host}) == (m - gone) - {host}
  {
  }

  lemma RemoveAbsent(m: map<Host, Entry>, gone: set<Host>, host: Host)
    requires host !in m - gone
    ensures m - (gone + {host}) == m - gone
  {
  }

  lemma CountPresent(passed: set<Host>, keys: set<Host>, host: Host)
    requires host in keys && host !in passed
    ensures |(passed + {host}) * keys| == |passed * keys| + 1
  {
    assert (passed + {host}) * keys == passed * keys + {host};
  }

  lemma CountAbsent(passed: set<Host>, keys: set<Host>, host: Host)
    requires host !in keys || host in passed
    ensures (passed + {host}) * keys == passed * keys
  {
  }

  lemma DropOne(m: map<Host, Entry>, passed: set<Host>, updated: map<Host, Entry>, restored: nat, host: Host)
    requires Dropped(m, passed, updated, restored)
    ensures host in updated ==> Dropped(m, passed + {host}, updated - {host}, restored + 1)
    ensures host !in updated ==> Dropped(m, passed + {host}, updated, restored)
  {
    if host in updated {
      RemoveAlso(m, passed, host);
      CountPresent(passed, m.Keys, host);
    } else {
      RemoveAbsent(m, passed, host);
      CountAbsent(passed, m.Keys, host);
    }
  }

  lemma DropNext(m: map<Host, Entry>, results: seq<Result>, i: nat, updated: map<Host, Entry>, restored: nat)
    requires i < |results| && Dropped(m, PassedHosts(results[..i]), updated, restored)
    ensures if results[i].status.Passed? && results[i].host in updated
            then Dropped(m, PassedHosts(results[..i + 1]), updated - {results[i].host}, restored + 1)
            else Dropped(m, PassedHosts(results[..i + 1]), updated, restored)
  {
    PassedStep(results, i);
    if results[i].status.Passed? {
      DropOne(m, PassedHosts(results[..i]), updated, restored, results[i].host);
    } else {
      assert PassedHosts(results[..i]) + {} == PassedHosts(results[..i]);
    }
  }

  lemma DropNone(m: map<Host, Entry>)
    ensures Dropped(m, PassedHosts([]), m, 0)
  {
    assert PassedHosts([]) == {};
    assert m - {} == m;
  }

  lemma DropAll(m: map<Host, Entry>, gone: set<Host>, updated: map<Host, Entry>, restored: nat)
    requires Dropped(m, gone, updated, restored)
    ensures updated == m - gone * m.Keys && restored == |gone * m.Keys|
  {
  }

  /** The copy of the map without the hosts that passed, and how many of them were in it. */
  method WithoutPassed(m: map<Host, Entry>, results: seq<Result>) returns (updated: map<Host, Entry>, restored: nat)
    ensures updated == m - PassedHosts(results) * m.Keys && restored == |PassedHosts(results) * m.Keys|
  {
    updated, restored := m, 0;
    assert results[..0] == [];
    DropNone(m);
    for i := 0 to |results|
      invariant Dropped(m, PassedHosts(results[..i]), updated, restored)
    {
      DropNext(m, results, i, updated, restored);
      if results[i].status.Passed? && results[i].host in updated {
        updated := updated - {results[i].host};
        restored := restored + 1;
      }
    }
    assert results[..|results|] == results;
    DropAll(m, PassedHosts(results), updated, restored);
  }
}
