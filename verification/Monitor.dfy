/** The liveness loop of a connected tunnel, as a function of the select cases it receives. */
module Monitor {
  import opened Common

  /** What one round of the select delivers. */
  datatype Round =
    | Done                                 // the context ended
    | ModeToken                            // modeCh
    | Exited(line: string)                 // an exit event of the tunnel
    | Output                               // any other event of the tunnel
    | EventsClosed
    | Probe(healthy: bool)
    | Latency

  /** Why monitor returns; there is no case without an error. */
  datatype Reason = ContextEnded | ModeChanged | TunnelExited(line: string) | ChannelClosed | Degraded

  datatype Verdict = GoOn(fails: nat) | Leave(reason: Reason)

  function Step(fails: nat, r: Round, maxFails: int): Verdict {
    match r
    case Done => Leave(ContextEnded)
    case ModeToken => Leave(ModeChanged)
    case Exited(line) => Leave(TunnelExited(line))
    case Output => GoOn(fails)
    case EventsClosed => Leave(ChannelClosed)
    case Probe(healthy) =>
      if healthy then GoOn(0) else if fails + 1 >= maxFails then Leave(Degraded) else GoOn(fails + 1)
    case Latency => GoOn(fails)
  }

  // ---------- specification by the history of probes ----------

  function Probes(rounds: seq<Round>): seq<bool> {
    if rounds == [] then []
    else
      var last := rounds[|rounds| - 1];
      Probes(rounds[..|rounds| - 1]) + if last.Probe? then [last.healthy] else []
  }

  /** The number of failed probes since the last successful one. */
  function FailingSuffix(probes: seq<bool>): nat {
    if probes == [] || probes[|probes| - 1] then 0 else 1 + FailingSuffix(probes[..|probes| - 1])
  }

  /** Independent reading: it counts a block of failures at the end that no failure precedes. */
  lemma {:induction false} FailingSuffixIsMaximal(probes: seq<bool>)
    ensures var n := FailingSuffix(probes);
      && n <= |probes|
      && (forall i :: |probes| - n <= i < |probes| ==> !probes[i])
      && (n < |probes| ==> probes[|probes| - n - 1])
  {
    if probes != [] && !probes[|probes| - 1] { FailingSuffixIsMaximal(probes[..|probes| - 1]); }
  }

  /** The rounds that end the loop whatever the probes say. */
  predicate Final(r: Round) { r.Done? || r.ModeToken? || r.Exited? || r.EventsClosed? }

  /** The failing suffix that counts as degraded. */
  function Limit(maxFails: int): nat { if maxFails < 1 then 1 else maxFails }

  predicate Degrades(rounds: seq<Round>, maxFails: int) { FailingSuffix(Probes(rounds)) >= Limit(maxFails) }

  /** The loop is still running after these rounds. */
  predicate Running(rounds: seq<Round>, maxFails: int) {
    forall k :: 0 <= k <= |rounds| ==> !Degrades(rounds[..k], maxFails) && (k < |rounds| ==> !Final(rounds[k]))
  }

  function ReasonOf(r: Round): Reason {
    match r
    case Done => ContextEnded
    case ModeToken => ModeChanged
    case Exited(line) => TunnelExited(line)
    case EventsClosed => ChannelClosed
    case _ => Degraded
  }

  lemma ProbesAppend(rounds: seq<Round>, r: Round)
    ensures Probes(rounds + [r]) == Probes(rounds) + if r.Probe? then [r.healthy] else []
  {
    assert (rounds + [r])[..|rounds|] == rounds;
  }

  lemma SuffixAfter(rounds: seq<Round>, r: Round)
    ensures FailingSuffix(Probes(rounds + [r])) ==
              if !r.Probe? then FailingSuffix(Probes(rounds))
              else if r.healthy then 0 else 1 + FailingSuffix(Probes(rounds))
  {
    ProbesAppend(rounds, r);
    var before := Probes(rounds);
    assert before + [] == before;
    if r.Probe? { assert (before + [r.healthy])[..|before|] == before; }
  }

  /** The counter is the failing suffix of the probes so far: no other round resets or advances it. */
  lemma CounterIsFailingSuffix(rounds: seq<Round>, r: Round, maxFails: int)
    requires FailingSuffix(Probes(rounds)) < Limit(maxFails)
    ensures Step(FailingSuffix(Probes(rounds)), r, maxFails) ==
              if Final(r) || Degrades(rounds + [r], maxFails) then Leave(ReasonOf(r))
              else GoOn(FailingSuffix(Probes(rounds + [r])))
  {
    SuffixAfter(rounds, r);
  }

  lemma RunningAppend(rounds: seq<Round>, r: Round, maxFails: int)
    ensures Running(rounds + [r], maxFails) <==>
              (Running(rounds, maxFails) && !Final(r) && !Degrades(rounds + [r], maxFails))
  {
    var all := rounds + [r];
    assert forall k :: 0 <= k <= |rounds| ==> all[..k] == rounds[..k];
    assert all[..|all|] == all && all[|rounds|] == r;
    if Running(all, maxFails) {
      assert !Final(all[|rounds|]);
      forall k | 0 <= k <= |rounds| ensures !Degrades(rounds[..k], maxFails) && (k < |rounds| ==> !Final(rounds[k])) {
        assert !Degrades(all[..k], maxFails) && !Final(all[k]);
      }
      assert !Degrades(all[..|all|], maxFails);
    }
    if Running(rounds, maxFails) && !Final(r) && !Degrades(all, maxFails) {
      forall k | 0 <= k <= |all| ensures !Degrades(all[..k], maxFails) && (k < |all| ==> !Final(all[k])) {
        if k < |all| { assert !Degrades(rounds[..k], maxFails); }
      }
    }
  }

  /**
     monitor. It stops at the first round that is final or completes a failing suffix of
     HealthMaxFails (at least one), for the reason of that round; None means it is still running.
   */
  method Watch(rounds: seq<Round>, maxFails: int) returns (why: Option<Reason>, used: nat)
    ensures used <= |rounds|
    ensures why.None? ==> used == |rounds| && Running(rounds, maxFails)
    ensures why.Some? ==>
      && used > 0 && Running(rounds[..used - 1], maxFails) && !Running(rounds[..used], maxFails)
      && why.value == ReasonOf(rounds[used - 1])
  {
    var fails := 0;
    used := 0;
    assert rounds[..0] == [];
    while used < |rounds|
      invariant used <= |rounds| && Running(rounds[..used], maxFails)
      invariant fails == FailingSuffix(Probes(rounds[..used])) < Limit(maxFails)
    {
      ghost var sofar := rounds[..used];
      CounterIsFailingSuffix(sofar, rounds[used], maxFails);
      RunningAppend(sofar, rounds[used], maxFails);
      assert rounds[..used + 1] == sofar + [rounds[used]];
      used := used + 1;
      match Step(fails, rounds[used - 1], maxFails) {
        case GoOn(n) => fails := n;
        case Leave(reason) => return Some(reason), used;
      }
    }
    assert rounds[..used] == rounds;
    why := None;
  }

  /** Two histories with the same probes and no final round are alike: output and latency rounds do not matter. */
  lemma IdleRoundsDoNotMatter(a: seq<Round>, idle: Round, b: seq<Round>)
    requires idle.Output? || idle.Latency?
    ensures Probes(a + [idle] + b) == Probes(a + b)
    decreases |b|
  {
    if b == [] {
      ProbesAppend(a, idle);
      assert a + [idle] + b == a + [idle] && a + b == a;
    } else {
      var front, last := b[..|b| - 1], b[|b| - 1];
      IdleRoundsDoNotMatter(a, idle, front);
      ProbesAppend(a + [idle] + front, last);
      ProbesAppend(a + front, last);
      assert a + [idle] + b == (a + [idle] + front) + [last] && a + b == (a + front) + [last];
    }
  }
}
