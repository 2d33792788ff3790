/**
 The web session table: a map that is pruned only when someone logs in or presents an expired
 token, against a specification that only looks at the history of logins and logouts. All
 access is under one mutex, so every interleaving is a sequence of the methods below.
 */
module Sessions {
  import opened Common

  type Token = string

  /** Times and durations in nanoseconds; the clock never goes back. */
  const SESSION_TTL := 12 * 3600 * 1_000_000_000
  const MAX_SESSIONS := 256

  // ---------- specification ----------

  datatype Event = LoggedIn(token: Token, at: int) | LoggedOut(token: Token)

  /** When the token's latest login lapses; None without a login, or after a logout that followed it. */
  function Lapse(history: seq<Event>, token: Token): Option<int> {
    if history == [] then None
    else
      var last := history[|history| - 1];
      if last.token != token then Lapse(history[..|history| - 1], token)
      else if last.LoggedIn? then Some(last.at + SESSION_TTL) else None
  }

  /** The latest login of the token is less than twelve hours old and no logout followed it. */
  predicate Live(history: seq<Event>, token: Token, now: int) {
    Lapse(history, token).Some? && now < Lapse(history, token).value
  }

  function Tokens(history: seq<Event>): set<Token> { set e | e in history :: e.token }

  function LiveTokens(history: seq<Event>, now: int): set<Token> {
    set t | t in Tokens(history) && Live(history, t, now)
  }

  lemma {:induction false} LapseNeedsLogin(history: seq<Event>, token: Token)
    ensures Lapse(history, token).Some? ==> token in Tokens(history)
  {
    if history != [] {
      var last, before := history[|history| - 1], history[..|history| - 1];
      LapseNeedsLogin(before, token);
      assert last in history && forall e :: e in before ==> e in history;
    }
  }

  lemma LapseAfter(history: seq<Event>, e: Event, token: Token)
    ensures Lapse(history + [e], token) ==
            if e.token != token then Lapse(history, token)
            else if e.LoggedIn? then Some(e.at + SESSION_TTL) else None
  {
    assert (history + [e])[..|history|] == history;
  }

  /** Independent reading of Lapse: the last event about the token decides. */
  lemma {:induction false} LapseMeansLatestEvent(history: seq<Event>, token: Token, i: nat)
    requires i < |history| && history[i].token == token
    requires forall j :: i < j < |history| ==> history[j].token != token
    ensures Lapse(history, token) == if history[i].LoggedIn? then Some(history[i].at + 43_200_000_000_000) else None
    decreases |history|
  {
    if i < |history| - 1 { LapseMeansLatestEvent(history[..|history| - 1], token, i); }
  }

  // ---------- the table ----------

  class Table {
    var sessions: map<Token, int>
    ghost var history: seq<Event>
    /** The latest time read so far. */
    ghost var clock: int

    ghost predicate Valid() reads this {
      && |sessions| <= MAX_SESSIONS
      && (forall t :: t in sessions ==> Lapse(history, t) == Some(sessions[t]))
      && (forall t :: t !in sessions && Lapse(history, t).Some? ==> Lapse(history, t).value <= clock)
    }

    constructor ()
      ensures Valid() && history == [] && sessions == map[]
    {
      sessions, history, clock := map[], [], 0;
    }

    /** isAuthorized: one reading of the clock under the lock, one after it. */
    method IsAuthorized(token: Token, inside: int, after: int) returns (ok: bool)
      requires Valid() && clock <= inside <= after
      modifies this
      ensures Valid() && history == old(history) && clock == inside
      ensures ok <==> Live(history, token, after)
    {
      clock := inside;
      var found := token in sessions;
      var exp := if found then sessions[token] else 0;
      if found && !(exp > inside) {
        sessions := sessions - {token};
        RemovingShrinks(old(sessions), {token});
        found := false;
      }
      return found && exp > after;
    }

    /** pruneSessionsLocked: deleting while ranging over the map. */
    method Prune(now: int)
      requires Valid() && clock <= now
      modifies this`sessions, this`clock
      ensures Valid() && clock == now
      ensures sessions.Keys == LiveTokens(history, now)
    {
      ghost var before := sessions;
      var left := sessions.Keys;
      while left != {}
        invariant left <= sessions.Keys && PartlyPruned(before, sessions, left, now)
        invariant clock == old(clock)
        decreases left
      {
        var token :| token in left;
        if !(sessions[token] > now) { sessions := sessions - {token}; }
        left := left - {token};
      }
      PrunedIsLive(history, before, sessions, clock, now);
      clock := now;
    }

    /**
     The session part of apiLogin once the credentials are correct: refused for capacity exactly
     when 256 sessions are live.
     */
    method Login(token: Token, pruneTime: int, loginTime: int) returns (ok: bool)
      requires Valid() && clock <= pruneTime <= loginTime
      modifies this
      ensures Valid() && clock == loginTime
      ensures ok <==> |LiveTokens(old(history), pruneTime)| < 256
      ensures !ok ==> |LiveTokens(old(history), pruneTime)| == 256
      ensures history == if ok then old(history) + [LoggedIn(token, loginTime)] else old(history)
    {
      Prune(pruneTime);
      assert |sessions| == |sessions.Keys|;
      clock := loginTime;
      if |sessions| >= MAX_SESSIONS { return false; }
      ghost var before := sessions;
      sessions := sessions[token := loginTime + SESSION_TTL];
      assert sessions.Keys == before.Keys + {token};
      history := history + [LoggedIn(token, loginTime)];
      forall t ensures Lapse(history, t) == if t == token then Some(loginTime + SESSION_TTL) else Lapse(old(history), t) {
        LapseAfter(old(history), LoggedIn(token, loginTime), t);
      }
      ok := true;
    }

    /** apiLogout. */
    method Logout(token: Token)
      requires Valid()
      modifies this
      ensures Valid() && clock == old(clock)
      ensures history == old(history) + [LoggedOut(token)]
      ensures forall t, now :: Live(history, t, now) <==> t != token && Live(old(history), t, now)
    {
      RemovingShrinks(sessions, {token});
      sessions := sessions - {token};
      history := history + [LoggedOut(token)];
      forall t ensures Lapse(history, t) == if t == token then None else Lapse(old(history), t) {
        LapseAfter(old(history), LoggedOut(token), t);
      }
    }
  }

  /** The loop of Prune: what is left to visit is untouched, the rest kept exactly if it has not lapsed. */
  predicate PartlyPruned(before: map<Token, int>, sessions: map<Token, int>, left: set<Token>, now: int) {
    && sessions.Keys <= before.Keys
    && (forall t :: t in sessions ==> sessions[t] == before[t])
    && (forall t :: t in before && t !in left ==> (t in sessions <==> before[t] > now))
  }

  lemma PrunedIsLive(history: seq<Event>, before: map<Token, int>, sessions: map<Token, int>, clock: int, now: int)
    requires clock <= now && PartlyPruned(before, sessions, {}, now)
    requires forall t :: t in before ==> Lapse(history, t) == Some(before[t])
    requires forall t :: t !in before && Lapse(history, t).Some? ==> Lapse(history, t).value <= clock
    ensures sessions.Keys == LiveTokens(history, now) && |sessions| <= |before|
    ensures forall t :: t !in sessions && Lapse(history, t).Some? ==> Lapse(history, t).value <= now
  {
    forall t ensures t in sessions <==> t in LiveTokens(history, now) {
      LapseNeedsLogin(history, t);
    }
    SubsetIsSmaller(sessions.Keys, before.Keys);
  }

  lemma RemovingShrinks(m: map<Token, int>, gone: set<Token>)
    ensures |m - gone| <= |m|
  {
    assert (m - gone).Keys <= m.Keys;
    SubsetIsSmaller((m - gone).Keys, m.Keys);
  }

  // ---------- any sequence of requests ----------

  datatype Request =
    | Authorize(token: Token, inside: int, after: int)
    | LogIn(token: Token, pruneTime: int, loginTime: int)
    | LogOut(token: Token)

  /** The request's section reads the clock no earlier than from; what it reads later is later. */
  predicate InTime(r: Request, from: int) {
    match r
    case Authorize(_, inside, after) => from <= inside <= after
    case LogIn(_, prune, login) => from <= prune <= login
    case LogOut(_) => true
  }

  function ClockAfter(r: Request, from: int): int {
    match r
    case Authorize(_, inside, _) => inside
    case LogIn(_, _, login) => login
    case LogOut(_) => from
  }

  predicate Monotone(requests: seq<Request>, from: int)
    decreases |requests|
  {
    requests == [] || (InTime(requests[0], from) && Monotone(requests[1..], ClockAfter(requests[0], from)))
  }

  /** What a request does to the history, and its answer, by the history alone. */
  function After(history: seq<Event>, r: Request): seq<Event> {
    match r
    case Authorize(_, _, _) => history
    case LogIn(token, prune, login) =>
      if |LiveTokens(history, prune)| < MAX_SESSIONS then history + [LoggedIn(token, login)] else history
    case LogOut(token) => history + [LoggedOut(token)]
  }

  predicate Answer(history: seq<Event>, r: Request) {
    match r
    case Authorize(token, _, after) => Live(history, token, after)
    case LogIn(_, prune, _) => |LiveTokens(history, prune)| < MAX_SESSIONS
    case LogOut(_) => true
  }

  function Answers(history: seq<Event>, requests: seq<Request>): seq<bool>
    decreases |requests|
  {
    if requests == [] then []
    else [Answer(history, requests[0])] + Answers(After(history, requests[0]), requests[1..])
  }

  /** One request against the table. */
  method ServeOne(table: Table, r: Request) returns (answer: bool)
    requires table.Valid() && InTime(r, table.clock)
    modifies table
    ensures table.Valid()
    ensures table.history == After(old(table.history), r) && answer == Answer(old(table.history), r)
    ensures table.clock == ClockAfter(r, old(table.clock))
  {
    match r
    case Authorize(token, inside, after) => answer := table.IsAuthorized(token, inside, after);
    case LogIn(token, prune, login) => answer := table.Login(token, prune, login);
    case LogOut(token) => table.Logout(token); answer := true;
  }

  /** However requests interleave, the table answers as the history prescribes, and never outgrows its bound. */
  method Serve(table: Table, requests: seq<Request>) returns (answers: seq<bool>)
    requires table.Valid() && Monotone(requests, table.clock)
    modifies table
    ensures table.Valid() && |table.sessions| <= MAX_SESSIONS
    ensures answers == Answers(old(table.history), requests)
  {
    answers := [];
    ghost var all := Answers(table.history, requests);
    var i := 0;
    assert requests[0..] == requests && [] + all == all;
    while i < |requests|
      invariant 0 <= i <= |requests| && table.Valid() && Monotone(requests[i..], table.clock)
      invariant all == answers + Answers(table.history, requests[i..])
    {
      NextRequest(table.history, requests, i, table.clock, answers);
      var answer := ServeOne(table, requests[i]);
      answers := answers + [answer];
      i := i + 1;
    }
    assert requests[i..] == [] && answers + [] == answers;
  }

  /** Taking the next request off a sequence. */
  lemma NextRequest(history: seq<Event>, requests: seq<Request>, i: nat, from: int, answers: seq<bool>)
    requires i < |requests| && Monotone(requests[i..], from)
    ensures InTime(requests[i], from) && Monotone(requests[i + 1..], ClockAfter(requests[i], from))
    ensures answers + Answers(history, requests[i..]) ==
            (answers + [Answer(history, requests[i])]) + Answers(After(history, requests[i]), requests[i + 1..])
  {
    var rest := requests[i..];
    assert rest[0] == requests[i] && rest[1..] == requests[i + 1..];
  }

  /** Two authorisations may overlap: the later section may finish first. */
  lemma AuthorisationsMayOverlap(a: Token, b: Token, first: int, second: int, early: int, late: int)
    requires first <= second <= early <= late
    ensures Monotone([Authorize(a, first, late), Authorize(b, second, early)], first)
  {
    var requests := [Authorize(a, first, late), Authorize(b, second, early)];
    assert requests[1..] == [Authorize(b, second, early)] && requests[1..][1..] == [];
  }
}
