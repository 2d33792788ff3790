/**
 writeJSON: write a temporary file, rename it over the target, remove the temporary name. Any
 number of writers interleave, every step may fail, and the process may die at any point.
 */
module AtomicWrite {

  /** Temp(i) is the name CreateTemp gave writer i; those names are distinct. */
  datatype Path = Target(name: string) | Temp(id: nat)

  type Files = map<Path, string>

  datatype Pc =
    | Prepare        // marshal, create and protect the directory
    | CreateTemp
    | ChmodTemp
    | WriteTemp
    | CloseTemp
    | Rename
    | ChmodTarget
    | Remove(ok: bool)              // the deferred removal, with the result to return
    | Returned(ok: bool, clean: bool)

  datatype Writer = Writer(target: string, data: string, pc: Pc, renamed: bool)

  datatype State = State(files: Files, writers: seq<Writer>, installed: seq<nat>)

  /** One step of writer i: whether the system call succeeds, and how many bytes a write takes. */
  datatype Step = Step(i: nat, ok: bool, k: nat)

  predicate Enabled(s: State, a: Step) {
    && a.i < |s.writers|
    && var w := s.writers[a.i];
    && !w.pc.Returned?
    && (w.pc.WriteTemp? ==> Temp(a.i) in s.files && |s.files[Temp(a.i)]| <= |w.data|)
    && (w.pc.WriteTemp? ==> a.k <= |w.data| - |s.files[Temp(a.i)]|)
    && (w.pc.WriteTemp? && a.ok && a.k == 0 ==> |s.files[Temp(a.i)]| == |w.data|)   // a successful write makes progress
    && (w.pc.Rename? && a.ok ==> Temp(a.i) in s.files)
  }

  /** The part of the file system one step of writer i changes. */
  function NextFiles(s: State, a: Step): Files
    requires Enabled(s, a)
  {
    var w, temp := s.writers[a.i], Temp(a.i);
    match w.pc
    case CreateTemp => if a.ok then s.files[temp := ""] else s.files
    case WriteTemp =>
      var n := |s.files[temp]|;
      s.files[temp := w.data[..n + a.k]]     // a failed write may leave some bytes behind
    case Rename => if a.ok then (s.files - {temp})[Target(w.target) := s.files[temp]] else s.files
    case Remove(_) => if a.ok then s.files - {temp} else s.files
    case _ => s.files
  }

  function NextPc(s: State, a: Step): Pc
    requires Enabled(s, a)
  {
    var w, temp := s.writers[a.i], Temp(a.i);
    match w.pc
    case Prepare => if a.ok then CreateTemp else Returned(false, true)
    case CreateTemp => if a.ok then ChmodTemp else Returned(false, true)
    case ChmodTemp => if a.ok then WriteTemp else Remove(false)
    case WriteTemp =>
      if !a.ok then Remove(false)
      else if |s.files[temp]| + a.k == |w.data| then CloseTemp else WriteTemp
    case CloseTemp => if a.ok then Rename else Remove(false)
    case Rename => if a.ok then ChmodTarget else Remove(false)
    case ChmodTarget => Remove(a.ok)
    case Remove(ok) => Returned(ok, a.ok || temp !in s.files)
  }

  function Next(s: State, a: Step): (r: State)
    requires Enabled(s, a)
    ensures |r.writers| == |s.writers|
  {
    var w := s.writers[a.i];
    var renames := w.pc.Rename? && a.ok;
    State(NextFiles(s, a),
          s.writers[a.i := w.(pc := NextPc(s, a), renamed := w.renamed || renames)],
          if renames then s.installed + [a.i] else s.installed)
  }

  predicate Init(s: State) {
    && s.installed == []
    && forall i :: 0 <= i < |s.writers| ==> s.writers[i].pc.Prepare? && !s.writers[i].renamed && Temp(i) !in s.files
  }

  ghost predicate StepsTo(s: State, r: State) { exists a :: Enabled(s, a) && r == Next(s, a) }

  ghost predicate IsRun(run: seq<State>) {
    && run != [] && Init(run[0])
    && forall j :: 0 <= j < |run| - 1 ==> StepsTo(run[j], run[j + 1])
  }

  // ---------- what every step keeps ----------

  predicate WriterInv(s: State, i: nat)
    requires i < |s.writers|
  {
    var w, temp := s.writers[i], Temp(i);
    && (w.renamed <==> i in s.installed)
    && (w.pc.Prepare? || w.pc.CreateTemp? ==> temp !in s.files)
    && (w.pc.ChmodTemp? ==> temp in s.files && s.files[temp] == "")
    && (w.pc.WriteTemp? ==> temp in s.files && s.files[temp] <= w.data)
    && (w.pc.CloseTemp? || w.pc.Rename? ==> temp in s.files && s.files[temp] == w.data)
    && (w.renamed ==> temp !in s.files)
    && (w.renamed ==> w.pc.ChmodTarget? || w.pc.Remove? || w.pc.Returned?)
    && (w.pc.ChmodTarget? ==> w.renamed)
    && (w.pc.Remove? && w.pc.ok ==> w.renamed)
    && (w.pc.Returned? && w.pc.ok ==> w.renamed)
    && (w.pc.Returned? ==> (w.pc.clean <==> temp !in s.files))
  }

  /** The data of the last writer that renamed onto a target, if any did. */
  function LastInstalled(s: State, name: string, upto: nat): (d: seq<string>)
    requires upto <= |s.installed| && forall j :: 0 <= j < |s.installed| ==> s.installed[j] < |s.writers|
    ensures |d| <= 1
  {
    if upto == 0 then []
    else
      var w := s.writers[s.installed[upto - 1]];
      if w.target == name then [w.data] else LastInstalled(s, name, upto - 1)
  }

  predicate InstalledOk(s: State) {
    forall j :: 0 <= j < |s.installed| ==> s.installed[j] < |s.writers|
  }

  /** A target holds the data last renamed onto it, or what it held at the start. */
  predicate TargetInv(s0: State, s: State, name: string)
    requires InstalledOk(s)
  {
    var last := LastInstalled(s, name, |s.installed|);
    && (last != [] ==> Target(name) in s.files && s.files[Target(name)] == last[0])
    && (last == [] ==> (Target(name) in s.files <==> Target(name) in s0.files))
    && (last == [] && Target(name) in s.files ==> s.files[Target(name)] == s0.files[Target(name)])
  }

  predicate SameJobs(s0: State, s: State) {
    && |s.writers| == |s0.writers|
    && forall i :: 0 <= i < |s.writers| ==> s.writers[i].target == s0.writers[i].target && s.writers[i].data == s0.writers[i].data
  }

  ghost predicate Inv(s0: State, s: State) {
    && SameJobs(s0, s)
    && InstalledOk(s)
    && (forall i :: 0 <= i < |s.writers| ==> WriterInv(s, i))
    && (forall name :: TargetInv(s0, s, name))
  }

  lemma {:induction false} LastInstalledFrame(s: State, r: State, name: string, upto: nat)
    requires InstalledOk(s) && InstalledOk(r) && SameJobs(s, r)
    requires upto <= |s.installed| && upto <= |r.installed| && s.installed[..upto] == r.installed[..upto]
    ensures LastInstalled(s, name, upto) == LastInstalled(r, name, upto)
  {
    if upto > 0 {
      assert s.installed[..upto][upto - 1] == r.installed[..upto][upto - 1];
      assert s.installed[..upto][..upto - 1] == s.installed[..upto - 1] && r.installed[..upto][..upto - 1] == r.installed[..upto - 1];
      LastInstalledFrame(s, r, name, upto - 1);
    }
  }

  lemma NextKeepsWriters(s0: State, s: State, a: Step)
    requires Inv(s0, s) && Enabled(s, a)
    ensures SameJobs(s0, Next(s, a)) && InstalledOk(Next(s, a))
    ensures forall i :: 0 <= i < |s.writers| ==> WriterInv(Next(s, a), i)
  {
    var r := Next(s, a);
    forall i | 0 <= i < |s.writers| ensures WriterInv(r, i) {
      assert WriterInv(s, i) && WriterInv(s, a.i);
      if i != a.i { OtherWriter(s, a, i); } else { SameWriter(s, a); }
    }
  }

  lemma OtherWriter(s: State, a: Step, i: nat)
    requires Enabled(s, a) && i < |s.writers| && i != a.i && WriterInv(s, i)
    ensures WriterInv(Next(s, a), i)
  {
    var r := Next(s, a);
    assert r.writers[i] == s.writers[i];
    assert Temp(i) in r.files <==> Temp(i) in s.files;
    assert Temp(i) in s.files ==> r.files[Temp(i)] == s.files[Temp(i)];
    assert i in r.installed <==> i in s.installed;
  }

  lemma SameWriter(s: State, a: Step)
    requires Enabled(s, a) && WriterInv(s, a.i)
    ensures WriterInv(Next(s, a), a.i)
  {
    var w, r, temp := s.writers[a.i], Next(s, a), Temp(a.i);
    if w.pc.WriteTemp? {
      var n := |s.files[temp]| + a.k;
      assert r.files[temp] == w.data[..n];
      if n == |w.data| { assert w.data[..n] == w.data; }
    }
    if w.pc.Rename? && a.ok { assert a.i in r.installed; }
  }

  lemma NextKeepsTargets(s0: State, s: State, a: Step, name: string)
    requires Inv(s0, s) && Enabled(s, a) && InstalledOk(Next(s, a)) && SameJobs(s, Next(s, a))
    ensures TargetInv(s0, Next(s, a), name)
  {
    var r, w := Next(s, a), s.writers[a.i];
    var n := |s.installed|;
    assert TargetInv(s0, s, name) && WriterInv(s, a.i);
    if w.pc.Rename? && a.ok {
      assert r.installed[..n] == s.installed[..n];
      LastInstalledFrame(s, r, name, n);
      assert r.installed[n] == a.i && r.writers[a.i].target == w.target && r.writers[a.i].data == w.data;
    } else {
      LastInstalledFrame(s, r, name, n);
    }
  }

  lemma NextKeepsInv(s0: State, s: State, a: Step)
    requires Inv(s0, s) && Enabled(s, a)
    ensures Inv(s0, Next(s, a))
  {
    NextKeepsWriters(s0, s, a);
    forall name ensures TargetInv(s0, Next(s, a), name) {
      NextKeepsTargets(s0, s, a, name);
    }
  }

  lemma {:induction false} RunKeepsInv(run: seq<State>, j: nat)
    requires IsRun(run) && j < |run|
    ensures Inv(run[0], run[j])
  {
    if j > 0 {
      RunKeepsInv(run, j - 1);
      assert StepsTo(run[j - 1], run[j - 1 + 1]);
      var a :| Enabled(run[j - 1], a) && run[j] == Next(run[j - 1], a);
      NextKeepsInv(run[0], run[j - 1], a);
    }
  }

  // ---------- the theorems ----------

  /**
   Crash safety. At every point of every run (so wherever the process dies) a target either
   holds what it held at the start, or the whole data of the writer that renamed onto it last;
   never a part of anything.
   */
  lemma TargetsAreWhole(run: seq<State>, j: nat, name: string)
    requires IsRun(run) && j < |run|
    ensures Inv(run[0], run[j])
    ensures Target(name) in run[j].files ==>
      || (Target(name) in run[0].files && run[j].files[Target(name)] == run[0].files[Target(name)])
      || exists i :: 0 <= i < |run[j].writers| && run[j].writers[i].renamed && run[j].writers[i].target == name
                     && run[j].files[Target(name)] == run[j].writers[i].data
    ensures Target(name) in run[0].files ==> Target(name) in run[j].files
  {
    RunKeepsInv(run, j);
    assert TargetInv(run[0], run[j], name);
    var s := run[j];
    if LastInstalled(s, name, |s.installed|) != [] {
      var k := LastInstalledIndex(s, name, |s.installed|);
      assert WriterInv(s, s.installed[k]);
    }
  }

  lemma {:induction false} LastInstalledIndex(s: State, name: string, upto: nat) returns (k: nat)
    requires InstalledOk(s) && upto <= |s.installed| && LastInstalled(s, name, upto) != []
    ensures k < upto && s.writers[s.installed[k]].target == name
    ensures LastInstalled(s, name, upto) == [s.writers[s.installed[k]].data]
  {
    if s.writers[s.installed[upto - 1]].target == name {
      k := upto - 1;
    } else {
      k := LastInstalledIndex(s, name, upto - 1);
    }
  }

  /**
   What a return means. Success is reported only after the new value was installed; a temporary
   file of the call is left behind exactly when its removal failed.
   */
  lemma ReturnsAreHonest(run: seq<State>, j: nat, i: nat)
    requires IsRun(run) && j < |run| && i < |run[j].writers| && run[j].writers[i].pc.Returned?
    ensures run[j].writers[i].pc.ok ==> i in run[j].installed
    ensures run[j].writers[i].pc.clean <==> Temp(i) !in run[j].files
  {
    RunKeepsInv(run, j);
    assert WriterInv(run[j], i);
  }

  /** The removal is the only step whose failure leaves a temporary file: all others end without one. */
  lemma OnlyFailedRemovalLeavesTemp(run: seq<State>, j: nat, a: Step)
    requires IsRun(run) && j < |run| && Enabled(run[j], a) && Next(run[j], a).writers[a.i].pc.Returned?
    ensures Temp(a.i) in Next(run[j], a).files <==>
      run[j].writers[a.i].pc.Remove? && !a.ok && !run[j].writers[a.i].renamed && Temp(a.i) in run[j].files
  {
    RunKeepsInv(run, j);
    assert WriterInv(run[j], a.i);
  }

  /** A failure reported after the rename is the failed protection of the target, and only that. */
  lemma FailedButInstalled(run: seq<State>, j: nat, a: Step)
    requires IsRun(run) && j < |run| && Enabled(run[j], a)
    requires !run[j].writers[a.i].pc.Remove? && Next(run[j], a).writers[a.i].pc == Remove(false)
    ensures Next(run[j], a).writers[a.i].renamed <==> run[j].writers[a.i].pc.ChmodTarget?
  {
    RunKeepsInv(run, j);
    assert WriterInv(run[j], a.i);
  }

  /** A writer that has not returned can always take its next step. */
  lemma NeverStuck(run: seq<State>, j: nat, i: nat)
    requires IsRun(run) && j < |run| && i < |run[j].writers| && !run[j].writers[i].pc.Returned?
    ensures exists a :: Enabled(run[j], a) && a.i == i && a.ok
  {
    RunKeepsInv(run, j);
    assert WriterInv(run[j], i);
    var w := run[j].writers[i];
    var k := if w.pc.WriteTemp? then |w.data| - |run[j].files[Temp(i)]| else 0;
    assert Enabled(run[j], Step(i, true, k));
  }

  // ---------- one call, in the order of the source ----------

  /** The directory of the state files, with the outcome of every system call to come. */
  class Disk {
    var files: Files
    var calls: nat
    const succeeds: nat -> bool
    /** How many bytes a failing write leaves behind. */
    const partial: nat -> nat

    constructor (files: Files, succeeds: nat -> bool, partial: nat -> nat)
      ensures this.files == files
    {
      this.files, this.calls, this.succeeds, this.partial := files, 0, succeeds, partial;
    }

    method Attempt() returns (ok: bool)
      modifies this`calls
    {
      ok := succeeds(calls);
      calls := calls + 1;
    }
  }

  /** Some run leads from the initial state to s. */
  ghost predicate Reached(s0: State, s: State) {
    exists run: seq<State> :: IsRun(run) && run[0] == s0 && run[|run| - 1] == s
  }

  lemma ReachedAtStart(s0: State)
    requires Init(s0)
    ensures Reached(s0, s0)
  {
    assert IsRun([s0]);
  }

  lemma ReachedByStep(s0: State, s: State, a: Step)
    requires Reached(s0, s) && Enabled(s, a)
    ensures Reached(s0, Next(s, a))
  {
    var run: seq<State> :| IsRun(run) && run[0] == s0 && run[|run| - 1] == s;
    var longer := run + [Next(s, a)];
    assert StepsTo(s, Next(s, a));
    forall j | 0 <= j < |longer| - 1 ensures StepsTo(longer[j], longer[j + 1]) {
      if j < |run| - 1 { assert longer[j] == run[j] && longer[j + 1] == run[j + 1]; }
    }
    assert IsRun(longer);
  }

  function SoloStart(files: Files, target: string, data: string): State {
    State(files, [Writer(target, data, Prepare, false)], [])
  }

  /** The model's state when its only writer is at pc and its files are the real ones. */
  ghost predicate Solo(s: State, files: Files, target: string, data: string, pc: Pc) {
    && s.files == files && |s.writers| == 1
    && s.writers[0].target == target && s.writers[0].data == data && s.writers[0].pc == pc
  }

  // ---------- both failures happen ----------

  /** The writer's own first steps: the directory is prepared, the temporary file created and protected or not. */
  lemma Begun(files: Files, target: string, data: string, ok: bool) returns (end: State)
    requires Temp(0) !in files
    ensures Reached(SoloStart(files, target, data), end)
    ensures Solo(end, files[Temp(0) := ""], target, data, if ok then WriteTemp else Remove(false))
  {
    var start := SoloStart(files, target, data);
    ReachedAtStart(start);
    ReachedByStep(start, start, Step(0, true, 0));
    var s := Next(start, Step(0, true, 0));
    ReachedByStep(start, s, Step(0, true, 0));
    s := Next(s, Step(0, true, 0));
    ReachedByStep(start, s, Step(0, ok, 0));
    end := Next(s, Step(0, ok, 0));
  }

  /** Whatever is on disk, a failed removal can leave the temporary file of a failed call behind. */
  lemma TempCanBeLeft(files: Files, target: string, data: string) returns (end: State)
    requires Temp(0) !in files
    ensures Reached(SoloStart(files, target, data), end)
    ensures Solo(end, files[Temp(0) := ""], target, data, Returned(false, false))
  {
    var s := Begun(files, target, data, false);
    ReachedByStep(SoloStart(files, target, data), s, Step(0, false, 0));
    end := Next(s, Step(0, false, 0));
  }

  lemma RenamedAfterBegun(files: Files, target: string, data: string) returns (end: State)
    requires Temp(0) !in files
    ensures Reached(SoloStart(files, target, data), end)
    ensures Solo(end, files[Target(target) := data], target, data, ChmodTarget)
  {
    var start := SoloStart(files, target, data);
    var s := Begun(files, target, data, true);
    assert data[..|data|] == data;
    ReachedByStep(start, s, Step(0, true, |data|));
    s := Next(s, Step(0, true, |data|));
    ReachedByStep(start, s, Step(0, true, 0));
    s := Next(s, Step(0, true, 0));
    assert Solo(s, files[Temp(0) := data], target, data, Rename);
    ReachedByStep(start, s, Step(0, true, 0));
    end := Next(s, Step(0, true, 0));
    assert files[Temp(0) := data] - {Temp(0)} == files;
  }

  /** Whatever is on disk, a call can report failure although the new value is in place and nothing else is left. */
  lemma InstalledCanFail(files: Files, target: string, data: string) returns (end: State)
    requires Temp(0) !in files
    ensures Reached(SoloStart(files, target, data), end)
    ensures Solo(end, files[Target(target) := data], target, data, Returned(false, true))
  {
    var start := SoloStart(files, target, data);
    var s := RenamedAfterBegun(files, target, data);
    ReachedByStep(start, s, Step(0, false, 0));
    s := Next(s, Step(0, false, 0));
    ReachedByStep(start, s, Step(0, false, 0));
    end := Next(s, Step(0, false, 0));
  }

  /** A claim about states that every step of the model preserves. */
  type Claim = State -> bool

  ghost predicate StepKeeps(at: Claim, s: State, a: Step) { at(s) && Enabled(s, a) ==> at(Next(s, a)) }

  ghost predicate Preserved(at: Claim) {
    forall s, a {:trigger StepKeeps(at, s, a)} :: StepKeeps(at, s, a)
  }

  lemma ReachedIsPreserved(s0: State)
    ensures Preserved(s => Reached(s0, s))
  {
    var at: Claim := s => Reached(s0, s);
    forall s, a ensures StepKeeps(at, s, a) {
      if at(s) && Enabled(s, a) { ReachedByStep(s0, s, a); }
    }
  }

  ghost method Advance(at: Claim, s: State, ok: bool, k: nat) returns (next: State)
    requires Preserved(at) && at(s) && Enabled(s, Step(0, ok, k)) && |s.writers| == 1
    ensures at(next) && next.files == NextFiles(s, Step(0, ok, k)) && |next.writers| == 1
    ensures var w := s.writers[0];
            && next.writers[0].target == w.target && next.writers[0].data == w.data
            && next.writers[0].pc == NextPc(s, Step(0, ok, k))
  {
    assert StepKeeps(at, s, Step(0, ok, k));
    next := Next(s, Step(0, ok, k));
  }

  /**
   writeJSON after marshalling. Its steps are a run of the model above, so every moment of it is
   covered by the crash theorems; and the caller learns what it may rely on.
   */
  method WriteJSON(disk: Disk, target: string, data: string) returns (ok: bool, ghost end: State)
    requires Temp(0) !in disk.files
    modifies disk
    ensures Reached(SoloStart(old(disk.files), target, data), end)
    ensures exists clean: bool :: Solo(end, disk.files, target, data, Returned(ok, clean))
    ensures ok ==> Target(target) in disk.files && disk.files[Target(target)] == data && Temp(0) !in disk.files
    ensures forall p :: p != Target(target) && p != Temp(0) ==>
      (p in disk.files <==> p in old(disk.files)) && (p in disk.files ==> disk.files[p] == old(disk.files)[p])
  {
    ghost var s0 := SoloStart(disk.files, target, data);
    ghost var at: Claim := s => Reached(s0, s);
    ReachedAtStart(s0);
    ReachedIsPreserved(s0);
    ok, end := WriteJSONSteps(disk, target, data, at, s0);
  }

  /** A step that changes no file: protecting, closing. */
  method Syscall(disk: Disk, target: string, data: string, ghost pc: Pc, ghost at: Claim, ghost start: State) returns (ok: bool, ghost end: State)
    requires pc.Prepare? || pc.ChmodTemp? || pc.CloseTemp? || pc.ChmodTarget?
    requires Preserved(at) && at(start) && Solo(start, disk.files, target, data, pc)
    modifies disk`calls
    ensures at(end) && Solo(end, disk.files, target, data, NextPc(start, Step(0, ok, 0)))
  {
    ok := disk.Attempt();
    end := Advance(at, start, ok, 0);
  }

  method CreateTempFile(disk: Disk, target: string, data: string, ghost at: Claim, ghost start: State) returns (ok: bool, ghost end: State)
    requires Preserved(at) && at(start) && Solo(start, disk.files, target, data, CreateTemp)
    modifies disk
    ensures disk.files == if ok then old(disk.files)[Temp(0) := ""] else old(disk.files)
    ensures at(end) && Solo(end, disk.files, target, data, if ok then ChmodTemp else Returned(false, true))
  {
    ok := disk.Attempt();
    end := Advance(at, start, ok, 0);
    if ok { disk.files := disk.files[Temp(0) := ""]; }
  }

  method WriteTempFile(disk: Disk, target: string, data: string, ghost at: Claim, ghost start: State) returns (ok: bool, ghost end: State)
    requires Temp(0) in disk.files && disk.files[Temp(0)] == ""
    requires Preserved(at) && at(start) && Solo(start, disk.files, target, data, WriteTemp)
    modifies disk
    ensures exists n: nat :: n <= |data| && disk.files == old(disk.files)[Temp(0) := data[..n]]
    ensures ok ==> disk.files == old(disk.files)[Temp(0) := data]
    ensures at(end) && Solo(end, disk.files, target, data, if ok then CloseTemp else Remove(false))
  {
    var left := disk.partial(disk.calls);
    ok := disk.Attempt();
    var n := if ok || left > |data| then |data| else left;
    assert data[..|data|] == data;
    end := Advance(at, start, ok, n);
    disk.files := disk.files[Temp(0) := data[..n]];
  }

  method RenameTempFile(disk: Disk, target: string, data: string, ghost at: Claim, ghost start: State) returns (ok: bool, ghost end: State)
    requires Temp(0) in disk.files
    requires Preserved(at) && at(start) && Solo(start, disk.files, target, data, Rename)
    modifies disk
    ensures disk.files == if ok then (old(disk.files) - {Temp(0)})[Target(target) := old(disk.files)[Temp(0)]] else old(disk.files)
    ensures at(end) && Solo(end, disk.files, target, data, if ok then ChmodTarget else Remove(false))
  {
    ok := disk.Attempt();
    end := Advance(at, start, ok, 0);
    if ok { disk.files := (disk.files - {Temp(0)})[Target(target) := disk.files[Temp(0)]]; }
  }

  method RemoveTempFile(disk: Disk, target: string, data: string, ghost result: bool, ghost at: Claim, ghost start: State) returns (ghost end: State)
    requires Preserved(at) && at(start) && Solo(start, disk.files, target, data, Remove(result))
    modifies disk
    ensures disk.files == old(disk.files) || disk.files == old(disk.files) - {Temp(0)}
    ensures at(end) && Solo(end, disk.files, target, data, Returned(result, Temp(0) !in disk.files))
  {
    var removed := disk.Attempt();
    end := Advance(at, start, removed, 0);
    if removed { disk.files := disk.files - {Temp(0)}; }
  }

  /** The body of writeJSON; the deferred removal runs on every path after the temporary file exists. */
  method WriteJSONSteps(disk: Disk, target: string, data: string, ghost at: Claim, ghost start: State) returns (ok: bool, ghost end: State)
    requires Temp(0) !in disk.files && Preserved(at) && at(start) && Solo(start, disk.files, target, data, Prepare)
    modifies disk
    ensures at(end) && exists clean: bool :: Solo(end, disk.files, target, data, Returned(ok, clean))
    ensures ok ==> Target(target) in disk.files && disk.files[Target(target)] == data && Temp(0) !in disk.files
    ensures forall p :: p != Target(target) && p != Temp(0) ==>
      (p in disk.files <==> p in old(disk.files)) && (p in disk.files ==> disk.files[p] == old(disk.files)[p])
  {
    ok, end := Syscall(disk, target, data, Prepare, at, start);            // MkdirAll, Chmod of the directory
    assert ok || Solo(end, disk.files, target, data, Returned(ok, true));
    if !ok { return; }
    ok, end := CreateTempFile(disk, target, data, at, end);
    assert ok || Solo(end, disk.files, target, data, Returned(ok, true));
    if !ok { return; }
    ok, end := FillAndRename(disk, target, data, at, end);
    end := RemoveTempFile(disk, target, data, ok, at, end);
    assert Solo(end, disk.files, target, data, Returned(ok, Temp(0) !in disk.files));
  }

  /** The part of writeJSON that the deferred removal covers. */
  method FillAndRename(disk: Disk, target: string, data: string, ghost at: Claim, ghost start: State) returns (ok: bool, ghost end: State)
    requires Temp(0) in disk.files && disk.files[Temp(0)] == ""
    requires Preserved(at) && at(start) && Solo(start, disk.files, target, data, ChmodTemp)
    modifies disk
    ensures at(end) && Solo(end, disk.files, target, data, Remove(ok))
    ensures ok ==> Target(target) in disk.files && disk.files[Target(target)] == data && Temp(0) !in disk.files
    ensures forall p :: p != Target(target) && p != Temp(0) ==>
      (p in disk.files <==> p in old(disk.files)) && (p in disk.files ==> disk.files[p] == old(disk.files)[p])
  {
    ok, end := Syscall(disk, target, data, ChmodTemp, at, start);
    if !ok { return; }
    ok, end := WriteTempFile(disk, target, data, at, end);
    if !ok { return; }
    ok, end := Syscall(disk, target, data, CloseTemp, at, end);
    if !ok { return; }
    ok, end := RenameTempFile(disk, target, data, at, end);
    if !ok { return; }
    ok, end := Syscall(disk, target, data, ChmodTarget, at, end);
  }
}
