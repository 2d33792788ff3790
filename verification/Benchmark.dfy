/**
 The benchmark worker pool: one sender, an unbuffered channel and any number of workers, under
 every schedule.
 */
module Benchmark {

  datatype Worker = Waiting | Probing(node: nat) | Exited

  /** Nodes are named by their position; probes counts how often each was probed to the end. */
  datatype State = State(
    sent: nat, closed: bool, returned: bool, workers: seq<Worker>, probes: seq<nat>
  )

  /** Sending is a rendezvous: the channel has no buffer. */
  datatype Step = Send(w: nat) | Finish(w: nat) | Close | Exit(w: nat) | Return

  predicate Enabled(s: State, a: Step) {
    !s.returned &&
    match a
    case Send(w) => w < |s.workers| && s.sent < |s.probes| && !s.closed && s.workers[w].Waiting?
    case Finish(w) => w < |s.workers| && s.workers[w].Probing? && s.workers[w].node < |s.probes|
    case Close => s.sent == |s.probes| && !s.closed
    case Exit(w) => w < |s.workers| && s.closed && s.workers[w].Waiting?
    case Return => s.closed && forall w :: 0 <= w < |s.workers| ==> s.workers[w].Exited?
  }

  function Next(s: State, a: Step): State
    requires Enabled(s, a)
  {
    match a
    case Send(w) => s.(workers := s.workers[w := Probing(s.sent)], sent := s.sent + 1)
    case Finish(w) =>
      var k := s.workers[w].node;
      s.(workers := s.workers[w := Waiting], probes := s.probes[k := s.probes[k] + 1])
    case Close => s.(closed := true)
    case Exit(w) => s.(workers := s.workers[w := Exited])
    case Return => s.(returned := true)
  }

  /** A concurrency below one counts as one. */
  function Workers(concurrency: int): nat { if concurrency < 1 then 1 else concurrency }

  function Start(nodes: nat, concurrency: int): State {
    State(0, false, false, seq(Workers(concurrency), _ => Waiting), seq(nodes, _ => 0))
  }

  // ---------- what every step keeps ----------

  predicate Holds(s: State, w: nat, k: nat) { w < |s.workers| && s.workers[w] == Probing(k) }

  ghost predicate Inv(s: State) {
    && s.sent <= |s.probes| && |s.workers| >= 1
    && (s.closed ==> s.sent == |s.probes|)
    && (forall w :: 0 <= w < |s.workers| && s.workers[w].Exited? ==> s.closed)
    && (s.returned ==> s.closed && forall w :: 0 <= w < |s.workers| ==> s.workers[w].Exited?)
    && (forall w :: 0 <= w < |s.workers| && s.workers[w].Probing? ==> s.workers[w].node < s.sent && s.probes[s.workers[w].node] == 0)
    && (forall v, w :: 0 <= v < w < |s.workers| && s.workers[v].Probing? && s.workers[w].Probing? ==> s.workers[v].node != s.workers[w].node)
    && (forall k :: 0 <= k < |s.probes| ==> s.probes[k] <= 1)
    && (forall k :: s.sent <= k < |s.probes| ==> s.probes[k] == 0)
    && (forall k {:trigger s.probes[k]} :: 0 <= k < s.sent ==> s.probes[k] == 1 || exists w :: Holds(s, w, k))
  }

  lemma StartInv(nodes: nat, concurrency: int)
    ensures Inv(Start(nodes, concurrency))
  {
  }

  lemma NextKeepsInv(s: State, a: Step)
    requires Inv(s) && Enabled(s, a)
    ensures Inv(Next(s, a)) && |Next(s, a).workers| == |s.workers| && |Next(s, a).probes| == |s.probes|
  {
    var r := Next(s, a);
    forall k | 0 <= k < r.sent ensures r.probes[k] == 1 || exists w :: Holds(r, w, k) {
      if k == s.sent {
        assert Holds(r, a.w, k);
      } else if s.probes[k] != 1 {
        var w :| Holds(s, w, k);
        if a.Finish? && a.w == w {
        } else {
          assert Holds(r, w, k);
        }
      }
    }
  }

  /** No schedule deadlocks: until Run returns, some step is possible. */
  lemma NoDeadlock(s: State) returns (a: Step)
    requires Inv(s) && !s.returned
    ensures Enabled(s, a)
  {
    if w :| 0 <= w < |s.workers| && s.workers[w].Probing? {
      a := Finish(w);
    } else if !s.closed && s.sent == |s.probes| {
      a := Close;
    } else if w :| 0 <= w < |s.workers| && s.workers[w].Waiting? {
      a := if s.closed then Exit(w) else Send(w);
    } else {
      assert s.workers[0].Exited? ==> s.closed;
      a := Return;
    }
  }

  // ---------- termination ----------

  function Weight(w: Worker): nat {
    match w case Waiting => 1 case Probing(_) => 2 case Exited => 0
  }

  function Weights(ws: seq<Worker>): nat {
    if ws == [] then 0 else Weight(ws[0]) + Weights(ws[1..])
  }

  lemma {:induction false} WeightsUpdate(ws: seq<Worker>, i: nat, w: Worker)
    requires i < |ws|
    ensures Weights(ws[i := w]) + Weight(ws[i]) == Weights(ws) + Weight(w)
  {
    if i > 0 {
      WeightsUpdate(ws[1..], i - 1, w);
      assert ws[i := w][1..] == ws[1..][i - 1 := w];
    }
  }

  function Measure(s: State): nat
    requires s.sent <= |s.probes|
  {
    2 * (|s.probes| - s.sent) + Weights(s.workers) + (if s.closed then 0 else 1) + (if s.returned then 0 else 1)
  }

  lemma NextDecreases(s: State, a: Step)
    requires Inv(s) && Enabled(s, a)
    ensures Next(s, a).sent <= |Next(s, a).probes| && Measure(Next(s, a)) < Measure(s)
  {
    match a
    case Send(w) => WeightsUpdate(s.workers, w, Probing(s.sent));
    case Finish(w) => WeightsUpdate(s.workers, w, Waiting);
    case Exit(w) => WeightsUpdate(s.workers, w, Exited);
    case _ =>
  }

  // ---------- Run ----------

  /**
   Run under any scheduler: the scheduler sees the whole state and how many steps were taken, and
   may pick any possible step. Run always returns, and only when every node was probed exactly once.
   */
  method Run(nodes: nat, concurrency: int, pick: (nat, State) -> Step) returns (s: State)
    requires forall i, r :: Inv(r) && !r.returned ==> Enabled(r, pick(i, r))
    ensures s.returned && |s.probes| == nodes && |s.workers| == Workers(concurrency)
    ensures forall k :: 0 <= k < nodes ==> s.probes[k] == 1
    ensures forall w :: 0 <= w < |s.workers| ==> s.workers[w].Exited?
  {
    s := Start(nodes, concurrency);
    StartInv(nodes, concurrency);
    var steps := 0;
    while !s.returned
      invariant Inv(s) && |s.probes| == nodes && |s.workers| == Workers(concurrency)
      decreases Measure(s)
    {
      var a := pick(steps, s);
      NextKeepsInv(s, a);
      NextDecreases(s, a);
      s := Next(s, a);
      steps := steps + 1;
    }
    assert forall w: nat, k: nat :: !Holds(s, w, k);
  }

  ghost predicate StepsTo(s: State, r: State) { exists a :: Enabled(s, a) && r == Next(s, a) }

  ghost predicate IsRun(nodes: nat, concurrency: int, run: seq<State>) {
    && run != [] && run[0] == Start(nodes, concurrency)
    && forall j :: 0 <= j < |run| - 1 ==> StepsTo(run[j], run[j + 1])
  }

  /** At every moment of every run no node is probed twice and none is held by two workers. */
  lemma {:induction false} Exclusive(nodes: nat, concurrency: int, run: seq<State>, j: nat)
    requires IsRun(nodes, concurrency, run) && j < |run|
    ensures Inv(run[j]) && |run[j].probes| == nodes
    ensures forall k :: 0 <= k < nodes ==> run[j].probes[k] <= 1
    ensures forall v: nat, w: nat, k: nat :: Holds(run[j], v, k) && Holds(run[j], w, k) ==> v == w
    ensures forall w: nat, k: nat :: Holds(run[j], w, k) ==> k < nodes && run[j].probes[k] == 0
  {
    if j == 0 {
      StartInv(nodes, concurrency);
    } else {
      Exclusive(nodes, concurrency, run, j - 1);
      assert StepsTo(run[j - 1], run[j - 1 + 1]);
      var a :| Enabled(run[j - 1], a) && run[j] == Next(run[j - 1], a);
      NextKeepsInv(run[j - 1], a);
    }
  }
}
