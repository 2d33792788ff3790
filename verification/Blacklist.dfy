/**
 The blacklist and its validation job. Every section under the manager's mutex is one atomic
 step; callers, the supervisor that marks nodes and any number of job goroutines interleave.
 */
module Blacklist {
  import opened Common

  type Host = string
  type Entry = string

  // ---------- sorted listings ----------

  /** The order of Go strings, on code points. */
  predicate Below(a: string, b: string) {
    b != "" && (a == "" || a[0] < b[0] || (a[0] == b[0] && Below(a[1..], b[1..])))
  }

  lemma {:induction false} BelowIsStrictOrder(a: string, b: string, c: string)
    ensures !Below(a, a)
    ensures Below(a, b) ==> !Below(b, a)
    ensures Below(a, b) || Below(b, a) || a == b
    ensures Below(a, b) && Below(b, c) ==> Below(a, c)
    decreases |a| + |b| + |c|
  {
    var x := if a == "" then a else a[1..];
    var y := if b == "" then b else b[1..];
    var z := if c == "" then c else c[1..];
    if a != "" || b != "" || c != "" { BelowIsStrictOrder(x, y, z); }
    if a != "" && b != "" && a[0] == b[0] && x == y { assert a == [a[0]] + x && b == [b[0]] + y; }
  }

  predicate Ascending(hosts: seq<Host>) { forall i, j :: 0 <= i < j < |hosts| ==> Below(hosts[i], hosts[j]) }

  /** The hosts of a set in order, each once. */
  predicate IsListing(hosts: seq<Host>, all: set<Host>) {
    Ascending(hosts) && (forall h :: h in hosts ==> h in all) && (forall h :: h in all ==> h in hosts)
  }

  /** There is only one such listing. */
  lemma {:induction false} ListingIsUnique(a: seq<Host>, b: seq<Host>, all: set<Host>)
    requires IsListing(a, all) && IsListing(b, all)
    ensures a == b
  {
    assert a != [] ==> a[0] in a;
    assert b != [] ==> b[0] in b;
    if a != [] && b != [] {
      assert a[0] in a && a[0] in b && b[0] in b && b[0] in a;
      var i :| 0 <= i < |b| && b[i] == a[0];
      var j :| 0 <= j < |a| && a[j] == b[0];
      BelowIsStrictOrder(a[0], b[0], a[0]);
      assert a[0] == b[0];
      TailListing(a, all);
      TailListing(b, all);
      ListingIsUnique(a[1..], b[1..], all - {a[0]});
    }
  }

  lemma TailListing(a: seq<Host>, all: set<Host>)
    requires IsListing(a, all) && a != []
    ensures IsListing(a[1..], all - {a[0]})
  {
    BelowIsStrictOrder(a[0], a[0], a[0]);
    forall h ensures h in a[1..] <==> h in all - {a[0]} {
      if h in a[1..] { var i :| 0 <= i < |a[1..]| && a[1..][i] == h; assert a[i + 1] == h; }
    }
  }

  // ---------- states and steps ----------

  datatype Status = Pending | Running | Passed | Failed | Skipped

  datatype Result = Result(host: Host, status: Status)

  datatype Test = Test(running: bool, total: nat, completed: nat, results: seq<Result>)

  datatype Phase = Announcing | Verifying | Ended

  /** A job goroutine; `listed` is the blacklist and `known` the node pool when it started. */
  datatype Job = Job(hosts: seq<Host>, known: set<Host>, listed: set<Host>, index: nat, phase: Phase, verdicts: seq<bool>)

  datatype Note = Marked(host: Host) | Restored(hosts: set<Host>)

  datatype State = State(
    blacklist: map<Host, Entry>, disk: map<Host, Entry>, test: Test, jobs: seq<Job>, log: seq<Note>
  )

  /** SaveBlacklist; a failed save may have installed the file all the same. */
  datatype Save = Saved | Unsaved(installed: bool)

  datatype Action =
    | Start(hosts: seq<Host>, known: set<Host>)
    | Announce(j: nat)
    | Finish(j: nat, passed: bool)
    | End(j: nat)
    | Mark(host: Host, entry: Entry, save: Save)
    | Restore(save: Save)

  function Init(blacklist: map<Host, Entry>): State {
    State(blacklist, blacklist, Test(false, 0, 0, []), [], [])
  }

  predicate JobAt(s: State, j: nat, phase: Phase) { j < |s.jobs| && s.jobs[j].phase == phase }

  predicate Enabled(s: State, a: Action) {
    match a
    case Start(hosts, _) => IsListing(hosts, s.blacklist.Keys)
    case Announce(j) => JobAt(s, j, Announcing) && s.jobs[j].index < |s.jobs[j].hosts|
    case Finish(j, _) => JobAt(s, j, Verifying) && s.jobs[j].index < |s.jobs[j].hosts|
    case End(j) => JobAt(s, j, Announcing) && s.jobs[j].index >= |s.jobs[j].hosts|
    case Mark(_, _, _) => true
    case Restore(_) => true
  }

  /** setBlacklistTestResult. */
  function SetResult(t: Test, index: nat, r: Result, completed: bool): Test {
    if index >= |t.results| then t
    else t.(results := t.results[index := r], completed := t.completed + if completed then 1 else 0)
  }

  function PendingResults(hosts: seq<Host>): seq<Result> { seq(|hosts|, i requires 0 <= i < |hosts| => Result(hosts[i], Pending)) }

  function StatusOf(job: Job, passed: bool): Status
    requires job.index < |job.hosts|
  {
    if job.hosts[job.index] !in job.known then Skipped else if passed then Passed else Failed
  }

  function Stored(disk: map<Host, Entry>, wanted: map<Host, Entry>, save: Save): map<Host, Entry> {
    if save.Saved? || save.installed then wanted else disk
  }

  function PassedHosts(results: seq<Result>): set<Host> {
    set i | 0 <= i < |results| && results[i].status.Passed? :: results[i].host
  }

  /** The hosts a restore would remove now. */
  function Restorable(s: State): set<Host> { PassedHosts(s.test.results) * s.blacklist.Keys }

  function DoStart(s: State, hosts: seq<Host>, known: set<Host>): State {
    if s.test.running then s
    else s.(test := Test(true, |hosts|, 0, PendingResults(hosts)),
            jobs := s.jobs + [Job(hosts, known, s.blacklist.Keys, 0, Announcing, [])])
  }

  function DoAnnounce(s: State, j: nat): State
    requires Enabled(s, Announce(j))
  {
    var job := s.jobs[j];
    s.(test := SetResult(s.test, job.index, Result(job.hosts[job.index], Running), false),
       jobs := s.jobs[j := job.(phase := Verifying)])
  }

  function DoFinish(s: State, j: nat, passed: bool): State
    requires Enabled(s, Finish(j, passed))
  {
    var job := s.jobs[j];
    s.(test := SetResult(s.test, job.index, Result(job.hosts[job.index], StatusOf(job, passed)), true),
       jobs := s.jobs[j := job.(phase := Announcing, index := job.index + 1, verdicts := job.verdicts + [passed])])
  }

  function DoEnd(s: State, j: nat): State
    requires Enabled(s, End(j))
  {
    s.(test := s.test.(running := false), jobs := s.jobs[j := s.jobs[j].(phase := Ended)])
  }

  function DoMark(s: State, host: Host, entry: Entry, save: Save): State {
    var wanted := s.blacklist[host := entry];
    s.(blacklist := wanted, disk := Stored(s.disk, wanted, save), log := s.log + [Marked(host)])
  }

  function DoRestore(s: State, save: Save): State {
    if s.test.running || Restorable(s) == {} then s
    else
      var wanted := s.blacklist - Restorable(s);
      var t := s.(disk := Stored(s.disk, wanted, save));
      if save.Saved? then t.(blacklist := wanted, log := s.log + [Restored(Restorable(s))]) else t
  }

  function Do(s: State, a: Action): State
    requires Enabled(s, a)
  {
    match a
    case Start(hosts, known) => DoStart(s, hosts, known)
    case Announce(j) => DoAnnounce(s, j)
    case Finish(j, passed) => DoFinish(s, j, passed)
    case End(j) => DoEnd(s, j)
    case Mark(host, entry, save) => DoMark(s, host, entry, save)
    case Restore(save) => DoRestore(s, save)
  }

  function Exec(first: map<Host, Entry>, acts: seq<Action>): Option<State> {
    if acts == [] then Some(Init(first))
    else
      var before := Exec(first, acts[..|acts| - 1]);
      var last := acts[|acts| - 1];
      if before.Some? && Enabled(before.value, last) then Some(Do(before.value, last)) else None
  }

  lemma ExecStep(first: map<Host, Entry>, acts: seq<Action>, a: Action)
    requires Exec(first, acts).Some? && Enabled(Exec(first, acts).value, a)
    ensures Exec(first, acts + [a]) == Some(Do(Exec(first, acts).value, a))
  {
    assert (acts + [a])[..|acts|] == acts;
  }

  // ---------- the job ----------

  /** The status a job's results show at a position: a finished prefix, at most one running, then pending. */
  function ExpectedStatus(job: Job, i: nat): Status
    requires i < |job.hosts| && |job.verdicts| == job.index
  {
    if i < job.index then (if job.hosts[i] !in job.known then Skipped else if job.verdicts[i] then Passed else Failed)
    else if i == job.index && job.phase.Verifying? then Running
    else Pending
  }

  predicate Shows(t: Test, job: Job) {
    && job.index <= |job.hosts| == |t.results| == t.total
    && t.completed == job.index == |job.verdicts|
    && (t.running <==> !job.phase.Ended?)
    && (job.phase.Verifying? ==> job.index < |job.hosts|)
    && (job.phase.Ended? ==> job.index == |job.hosts|)
    && forall i :: 0 <= i < |job.hosts| ==> t.results[i] == Result(job.hosts[i], ExpectedStatus(job, i))
  }

  /** Only the latest job can be alive, and the test status shows exactly that job. */
  predicate JobInv(s: State) {
    && (forall j :: 0 <= j < |s.jobs| ==> IsListing(s.jobs[j].hosts, s.jobs[j].listed))
    && (forall j :: 0 <= j < |s.jobs| - 1 ==> s.jobs[j].phase.Ended?)
    && (if s.jobs == [] then s.test == Test(false, 0, 0, []) else Shows(s.test, s.jobs[|s.jobs| - 1]))
  }

  lemma StartJob(s: State, hosts: seq<Host>, known: set<Host>)
    requires JobInv(s) && Enabled(s, Start(hosts, known))
    ensures JobInv(DoStart(s, hosts, known))
  {
  }

  lemma AnnounceJob(s: State, j: nat)
    requires JobInv(s) && Enabled(s, Announce(j))
    ensures JobInv(DoAnnounce(s, j))
  {
    assert j == |s.jobs| - 1;
  }

  lemma FinishJob(s: State, j: nat, passed: bool)
    requires JobInv(s) && Enabled(s, Finish(j, passed))
    ensures JobInv(DoFinish(s, j, passed))
  {
    assert j == |s.jobs| - 1;
  }

  lemma EndJob(s: State, j: nat)
    requires JobInv(s) && Enabled(s, End(j))
    ensures JobInv(DoEnd(s, j))
  {
    assert j == |s.jobs| - 1;
  }

  // ---------- the map ----------

  /** What the latest mark or restore of a host says; before any, the blacklist loaded at start. */
  predicate LastSays(first: set<Host>, log: seq<Note>, host: Host) {
    if log == [] then host in first
    else
      match log[|log| - 1]
      case Marked(h) => h == host || LastSays(first, log[..|log| - 1], host)
      case Restored(hosts) => host !in hosts && LastSays(first, log[..|log| - 1], host)
  }

  /** No mark is lost: a host is blacklisted exactly if its latest mark was not followed by a restore. */
  ghost predicate MapInv(first: set<Host>, s: State) {
    forall h: Host :: h in s.blacklist <==> LastSays(first, s.log, h)
  }

  lemma NoteStep(first: set<Host>, log: seq<Note>, n: Note, h: Host)
    ensures LastSays(first, log + [n], h) <==>
              (match n case Marked(m) => m == h || LastSays(first, log, h)
                       case Restored(hosts) => h !in hosts && LastSays(first, log, h))
  {
    assert (log + [n])[..|log|] == log;
  }

  lemma MapStep(first: set<Host>, s: State, a: Action)
    requires MapInv(first, s) && Enabled(s, a)
    ensures MapInv(first, Do(s, a))
  {
    forall h: Host ensures h in Do(s, a).blacklist <==> LastSays(first, Do(s, a).log, h) {
      match a
      case Mark(host, entry, save) => NoteStep(first, s.log, Marked(host), h);
      case Restore(save) => NoteStep(first, s.log, Restored(Restorable(s)), h);
      case _ =>
    }
  }

  // ---------- runs ----------

  ghost predicate Inv(first: map<Host, Entry>, s: State) { JobInv(s) && MapInv(first.Keys, s) }

  lemma StepKeepsInv(first: map<Host, Entry>, s: State, a: Action)
    requires Inv(first, s) && Enabled(s, a)
    ensures Inv(first, Do(s, a))
  {
    MapStep(first.Keys, s, a);
    match a
    case Start(hosts, known) => StartJob(s, hosts, known);
    case Announce(j) => AnnounceJob(s, j);
    case Finish(j, passed) => FinishJob(s, j, passed);
    case End(j) => EndJob(s, j);
    case Mark(_, _, _) =>
    case Restore(_) =>
  }

  lemma {:induction false} RunKeepsInv(first: map<Host, Entry>, acts: seq<Action>)
    requires Exec(first, acts).Some?
    ensures Inv(first, Exec(first, acts).value)
  {
    if acts != [] {
      RunKeepsInv(first, acts[..|acts| - 1]);
      StepKeepsInv(first, Exec(first, acts[..|acts| - 1]).value, acts[|acts| - 1]);
    }
  }

  /** At most one job is alive in any run, and while one is, the test says so. */
  lemma {:induction false} OneJobAtATime(first: map<Host, Entry>, acts: seq<Action>, i: nat, j: nat)
    requires Exec(first, acts).Some?
    requires var s := Exec(first, acts).value;
      i < |s.jobs| && j < |s.jobs| && !s.jobs[i].phase.Ended? && !s.jobs[j].phase.Ended?
    ensures i == j && Exec(first, acts).value.test.running
  {
    RunKeepsInv(first, acts);
  }

  /**
     In any run the status shows the latest job exactly: a finished prefix of length Completed with
     the verdicts given, at most one running entry, then pending ones, over the sorted hosts that
     were blacklisted when it started; when it is over everything is completed.
   */
  lemma {:induction false} StatusShowsLatestJob(first: map<Host, Entry>, acts: seq<Action>)
    requires Exec(first, acts).Some? && Exec(first, acts).value.jobs != []
    ensures var s := Exec(first, acts).value; var job := s.jobs[|s.jobs| - 1];
      && IsListing(job.hosts, job.listed)
      && |s.test.results| == s.test.total == |job.hosts|
      && s.test.completed == job.index == |job.verdicts| <= s.test.total
      && (forall i :: 0 <= i < s.test.total ==> s.test.results[i].host == job.hosts[i])
      && (forall i :: 0 <= i < s.test.completed ==>
            s.test.results[i].status == if job.hosts[i] !in job.known then Skipped else if job.verdicts[i] then Passed else Failed)
      && (forall i :: s.test.completed < i < s.test.total ==> s.test.results[i].status == Pending)
      && (s.test.completed < s.test.total ==> s.test.results[s.test.completed].status in {Pending, Running})
      && (!s.test.running ==> s.test.completed == s.test.total)
  {
    RunKeepsInv(first, acts);
  }

  /** No mark is lost in any run, whatever restores and tests run beside it. */
  lemma {:induction false} NoMarkIsLost(first: map<Host, Entry>, acts: seq<Action>, host: Host)
    requires Exec(first, acts).Some?
    ensures host in Exec(first, acts).value.blacklist <==> LastSays(first.Keys, Exec(first, acts).value.log, host)
  {
    RunKeepsInv(first, acts);
  }

  /**
     A restore that succeeds takes out exactly the hosts that passed the latest, finished job and are
     still blacklisted, keeps every other entry, and reports how many it took out.
   */
  lemma {:induction false} RestoreIsExact(first: map<Host, Entry>, acts: seq<Action>, host: Host)
    requires Exec(first, acts + [Restore(Saved)]).Some?
    requires Exec(first, acts).Some? && !Exec(first, acts).value.test.running
    ensures var s, r := Exec(first, acts).value, Exec(first, acts + [Restore(Saved)]).value;
      && (host in r.blacklist <==> host in s.blacklist && !PassedLatest(s, host))
      && (host in r.blacklist ==> r.blacklist[host] == s.blacklist[host])
      && |s.blacklist| == |r.blacklist| + |Restorable(s)|
  {
    RunKeepsInv(first, acts);
    ExecStep(first, acts, Restore(Saved));
    var s := Exec(first, acts).value;
    PassedMeansPassedLatest(s, host);
    CountAfterRemoval(s.blacklist, Restorable(s));
    assert s.blacklist - {} == s.blacklist;
  }

  /** The latest job was given a passing verdict for the host, which was in its node pool. */
  predicate PassedLatest(s: State, host: Host) {
    s.jobs != [] &&
    var job := s.jobs[|s.jobs| - 1];
    host in job.known && exists i :: 0 <= i < job.index && i < |job.hosts| && i < |job.verdicts| && job.hosts[i] == host && job.verdicts[i]
  }

  lemma PassedMeansPassedLatest(s: State, host: Host)
    requires JobInv(s)
    ensures host in PassedHosts(s.test.results) <==> PassedLatest(s, host)
  {
    if s.jobs != [] {
      var job := s.jobs[|s.jobs| - 1];
      if i :| 0 <= i < |s.test.results| && s.test.results[i].status.Passed? && s.test.results[i].host == host {
        assert s.test.results[i] == Result(job.hosts[i], ExpectedStatus(job, i));
      }
      if PassedLatest(s, host) {
        var i :| 0 <= i < job.index && job.hosts[i] == host && job.verdicts[i];
        assert s.test.results[i] == Result(job.hosts[i], ExpectedStatus(job, i));
      }
    }
  }

  lemma CountAfterRemoval(m: map<Host, Entry>, gone: set<Host>)
    requires gone <= m.Keys
    ensures |m| == |m - gone| + |gone|
  {
    assert (m - gone).Keys == m.Keys - gone;
    assert m.Keys == (m.Keys - gone) + gone;
    assert |m| == |m.Keys| && |m - gone| == |(m - gone).Keys|;
  }

  predicate Saves(a: Action) { (a.Mark? || a.Restore?) ==> a.save.Saved? }

  /** As long as every save succeeds the file holds what memory holds. */
  lemma {:induction false} DiskFollowsMemory(first: map<Host, Entry>, acts: seq<Action>)
    requires Exec(first, acts).Some? && forall k :: 0 <= k < |acts| ==> Saves(acts[k])
    ensures Exec(first, acts).value.disk == Exec(first, acts).value.blacklist
  {
    if acts != [] {
      assert Saves(acts[|acts| - 1]);
      DiskFollowsMemory(first, acts[..|acts| - 1]);
    }
  }

  /** The step changes the blacklist and saves it. */
  predicate Writes(s: State, a: Action) {
    (a.Mark? && a.save.Saved?) || (a.Restore? && a.save.Saved? && !s.test.running && Restorable(s) != {})
  }

  lemma SavedMeansEqual(s: State, a: Action)
    requires Enabled(s, a) && Writes(s, a)
    ensures Do(s, a).disk == Do(s, a).blacklist
  {
  }

  /** However many saves failed: once one has succeeded and none fails after it, the file holds what memory holds. */
  lemma {:induction false} OneSaveRecovers(first: map<Host, Entry>, acts: seq<Action>, k: nat)
    requires Exec(first, acts).Some? && k < |acts|
    requires Exec(first, acts[..k]).Some? && Writes(Exec(first, acts[..k]).value, acts[k])
    requires forall j :: k < j < |acts| ==> Saves(acts[j])
    ensures Exec(first, acts).value.disk == Exec(first, acts).value.blacklist
  {
    var last := |acts| - 1;
    if k == last {
      SavedMeansEqual(Exec(first, acts[..k]).value, acts[k]);
    } else {
      assert acts[..last][..k] == acts[..k] && Saves(acts[last]);
      OneSaveRecovers(first, acts[..last], k);
    }
  }

  // ---------- the job ends ----------

  function Left(job: Job): nat {
    if job.phase.Ended? || job.index > |job.hosts| then 0
    else 2 * (|job.hosts| - job.index) + if job.phase.Announcing? then 1 else 0
  }

  /** A job is never held up, and its own steps bring it to its end. */
  lemma {:induction false} JobEnds(first: map<Host, Entry>, acts: seq<Action>, j: nat) returns (a: Action)
    requires Exec(first, acts).Some? && j < |Exec(first, acts).value.jobs|
    requires !Exec(first, acts).value.jobs[j].phase.Ended?
    ensures Enabled(Exec(first, acts).value, a)
    ensures Left(Do(Exec(first, acts).value, a).jobs[j]) < Left(Exec(first, acts).value.jobs[j])
  {
    RunKeepsInv(first, acts);
    var s := Exec(first, acts).value;
    var job := s.jobs[j];
    assert j == |s.jobs| - 1;
    a := if job.phase.Verifying? then Finish(j, true) else if job.index < |job.hosts| then Announce(j) else End(j);
  }

  /** Nothing anyone else does delays it. */
  lemma OthersDoNotDelay(s: State, a: Action, j: nat)
    requires Enabled(s, a) && j < |s.jobs|
    ensures j < |Do(s, a).jobs| && Left(Do(s, a).jobs[j]) <= Left(s.jobs[j])
  {
  }

  /**
     The results outlive a restore: a node marked again afterwards is taken out by the next restore,
     without any new test, exactly if it passed the latest one.
   */
  lemma {:induction false} StaleResultRestoresAgain(first: map<Host, Entry>, acts: seq<Action>, host: Host, entry: Entry)
    requires Exec(first, acts).Some? && !Exec(first, acts).value.test.running
    ensures var marked := DoMark(Exec(first, acts).value, host, entry, Saved);
      && host in marked.blacklist
      && (host !in DoRestore(marked, Saved).blacklist <==> PassedLatest(Exec(first, acts).value, host))
  {
    RunKeepsInv(first, acts);
    var s := Exec(first, acts).value;
    PassedMeansPassedLatest(s, host);
    var marked := DoMark(s, host, entry, Saved);
    assert host in Restorable(marked) <==> host in PassedHosts(s.test.results);
  }

  /** A run in which it happens: one test, two restores of the same node. */
  lemma RestoredTwiceAfterOneTest(host: Host, entry: Entry) returns (acts: seq<Action>)
    ensures Exec(map[host := entry], acts).Some?
    ensures var s := Exec(map[host := entry], acts).value;
      && |s.jobs| == 1 && s.log == [Restored({host}), Marked(host), Restored({host})] && s.blacklist == map[]
  {
    var first: map<Host, Entry> := map[host := entry];
    acts := TestedOnce(host, entry);
    var s := Exec(first, acts).value;
    RestoreOne(s, host, entry);
    ExecStep(first, acts, Restore(Saved));
    acts := acts + [Restore(Saved)];
    ExecStep(first, acts, Mark(host, entry, Saved));
    acts := acts + [Mark(host, entry, Saved)];
    var marked := Exec(first, acts).value;
    assert marked.log == [Restored({host}), Marked(host)];
    RestoreOne(marked, host, entry);
    ExecStep(first, acts, Restore(Saved));
    acts := acts + [Restore(Saved)];
  }

  lemma RestoreOne(s: State, host: Host, entry: Entry)
    requires s.test == Test(false, 1, 1, [Result(host, Passed)]) && s.blacklist == map[host := entry]
    ensures DoRestore(s, Saved) == s.(blacklist := map[], disk := map[], log := s.log + [Restored({host})])
  {
    assert s.test.results[0].status.Passed?;
    assert Restorable(s) == {host};
    assert s.blacklist - {host} == map[];
  }

  lemma TestedOnce(host: Host, entry: Entry) returns (acts: seq<Action>)
    ensures Exec(map[host := entry], acts).Some?
    ensures var s := Exec(map[host := entry], acts).value;
      && s.blacklist == map[host := entry] && |s.jobs| == 1 && s.log == []
      && s.test == Test(false, 1, 1, [Result(host, Passed)])
  {
    var first: map<Host, Entry> := map[host := entry];
    var start := Start([host], {host});
    assert host in first.Keys && IsListing([host], first.Keys);
    ExecStep(first, [], start);
    acts := [] + [start];
    assert PendingResults([host]) == [Result(host, Pending)];
    ExecStep(first, acts, Announce(0));
    acts := acts + [Announce(0)];
    ExecStep(first, acts, Finish(0, true));
    acts := acts + [Finish(0, true)];
    ExecStep(first, acts, End(0));
    acts := acts + [End(0)];
    assert Exec(first, acts).value.test.results == [Result(host, Passed)];
  }
}
