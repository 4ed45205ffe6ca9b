/** gateway-go/internal/conversation/memory_store.go: the capped in-memory history of every session. */
module Conversation {
  const MAX_TURNS_PER_SESSION := 20

  datatype Role = User | Assistant

  datatype Turn = Turn(role: Role, content: string)

  /** The most recent `n` elements. */
  function Last<T>(s: seq<T>, n: nat): seq<T> {
    if |s| <= n then s else s[|s| - n..]
  }

  function Of<V>(m: map<string, seq<V>>, session: string): seq<V> {
    if session in m then m[session] else []
  }

  predicate EndsWith(s: seq<Turn>, end: seq<Turn>) {
    |end| <= |s| && s[|s| - |end|..] == end
  }

  lemma LastEnds(s: seq<Turn>, n: nat)
    ensures EndsWith(s, Last(s, n)) && |Last(s, n)| <= n
    ensures |Last(s, n)| < n ==> Last(s, n) == s
  {
  }

  /** Trimming after every append keeps what trimming once at the end would keep. */
  lemma LastOfLast<T(!new)>(a: seq<T>, b: seq<T>, n: nat)
    ensures Last(Last(a, n) + b, n) == Last(a + b, n)
  {
    if |a| > n {
      assert Last(a, n) + b == (a + b)[|a| - n..];
    }
  }

  ghost predicate Consistent(turns: map<string, seq<Turn>>, activity: map<string, int>, log: map<string, seq<Turn>>) {
    && turns.Keys == activity.Keys == log.Keys
    && forall s | s in log :: turns[s] == Last(log[s], MAX_TURNS_PER_SESSION)
  }

  lemma ForgettingIsConsistent(
    turns: map<string, seq<Turn>>, activity: map<string, int>, log: map<string, seq<Turn>>, gone: set<string>)
    requires Consistent(turns, activity, log)
    ensures Consistent(turns - gone, activity - gone, log - gone)
  {
    hide Last;
  }

  class MemoryStore {
    var turnsBy: map<string, seq<Turn>>
    var lastActivity: map<string, int>
    ghost var log: map<string, seq<Turn>>  // everything appended to the sessions since they last began

    /** Both maps know the same sessions and hold the last 20 turns of everything appended. */
    ghost predicate Valid()
      reads this
    {
      Consistent(turnsBy, lastActivity, log)
    }

    constructor ()
      ensures Valid() && log == map[]
    {
      turnsBy, lastActivity, log := map[], map[], map[];
    }

    method AppendTurns(session: string, turns: seq<Turn>, now: int)
      requires Valid()
      modifies this
      ensures Valid()
      ensures log == old(log)[session := Of(old(log), session) + turns]
      ensures lastActivity == old(lastActivity)[session := now]
    {
      LastOfLast(Of(log, session), turns, MAX_TURNS_PER_SESSION);
      var updated := Of(turnsBy, session) + turns;
      if |updated| > MAX_TURNS_PER_SESSION {
        updated := updated[|updated| - MAX_TURNS_PER_SESSION..];
      }
      turnsBy := turnsBy[session := updated];
      lastActivity := lastActivity[session := now];
      log := log[session := Of(log, session) + turns];
    }

    method History(session: string) returns (history: seq<Turn>)
      requires Valid()
      ensures history == Last(Of(log, session), MAX_TURNS_PER_SESSION)
      ensures session !in log ==> history == []
      ensures session in log ==> EndsWith(log[session], history) && |history| <= MAX_TURNS_PER_SESSION
      ensures session in log && |history| < MAX_TURNS_PER_SESSION ==> history == log[session]
    {
      hide Last;
      history := Of(turnsBy, session);
      LastEnds(Of(log, session), MAX_TURNS_PER_SESSION);
    }

    method Forget(session: string)
      modifies this
      ensures turnsBy == old(turnsBy) - {session}
      ensures lastActivity == old(lastActivity) - {session} && log == old(log) - {session}
    {
      turnsBy := turnsBy - {session};
      lastActivity := lastActivity - {session};
      log := log - {session};
    }

    /** Exactly the sessions whose last append was before the cutoff are forgotten. */
    method PruneOlderThan(cutoff: int) returns (pruned: nat)
      requires Valid()
      modifies this
      ensures Valid()
      ensures log == old(log) - Stale(old(lastActivity), cutoff)
      ensures lastActivity == old(lastActivity) - Stale(old(lastActivity), cutoff)
      ensures pruned == |Stale(old(lastActivity), cutoff)|
      ensures forall s ::
        s in log <==> s in old(log) && s in old(lastActivity) && old(lastActivity)[s] >= cutoff
    {
      KnowsActivity(turnsBy, lastActivity, log);
      hide Last, Consistent, Stale, Forgot, Swept;
      ghost var turns, was, logged := turnsBy, lastActivity, log;
      ghost var gone := {};
      var todo := lastActivity.Keys;
      pruned := 0;
      NothingGone(turns, was, logged, cutoff);
      while todo != {}
        invariant Swept(was, cutoff, todo, gone, pruned)
        invariant Forgot(turns, turnsBy, gone) && Forgot(was, lastActivity, gone) && Forgot(logged, log, gone)
        decreases |todo|
      {
        var session :| session in todo;
        SweepOne(was, cutoff, todo, gone, pruned, session);
        Remembered(was, lastActivity, gone, session);
        todo := todo - {session};
        if lastActivity[session] < cutoff {
          ForgetOne(turns, turnsBy, gone, session);
          ForgetOne(was, lastActivity, gone, session);
          ForgetOne(logged, log, gone, session);
          Forget(session);
          gone := gone + {session};
          pruned := pruned + 1;
        }
      }
      SweptAll(was, cutoff, gone, pruned);
      ForgottenAll(turns, turnsBy, was, lastActivity, logged, log, gone);
    }
  }

  /** The sessions whose last append was before the cutoff. */
  function Stale(activity: map<string, int>, cutoff: int): set<string> {
    set s | s in activity && activity[s] < cutoff
  }

  lemma KnowsActivity(turns: map<string, seq<Turn>>, activity: map<string, int>, log: map<string, seq<Turn>>)
    requires Consistent(turns, activity, log)
    ensures turns.Keys == activity.Keys == log.Keys
  {
    hide Last;
  }

  lemma NothingGone(
    turns: map<string, seq<Turn>>, activity: map<string, int>, log: map<string, seq<Turn>>, cutoff: int)
    ensures Swept(activity, cutoff, activity.Keys, {}, 0)
    ensures Forgot(turns, turns, {}) && Forgot(activity, activity, {}) && Forgot(log, log, {})
  {
  }

  /** Every session but the `todo` ones has been looked at. */
  ghost predicate Swept(activity: map<string, int>, cutoff: int, todo: set<string>, gone: set<string>, pruned: nat) {
    todo <= activity.Keys && gone == Stale(activity, cutoff) - todo && pruned == |gone|
  }

  lemma SweepOne(activity: map<string, int>, cutoff: int, todo: set<string>, gone: set<string>, pruned: nat, s: string)
    requires Swept(activity, cutoff, todo, gone, pruned) && s in todo
    ensures s in activity && s !in gone && |todo - {s}| < |todo|
    ensures if activity[s] < cutoff then Swept(activity, cutoff, todo - {s}, gone + {s}, pruned + 1)
            else Swept(activity, cutoff, todo - {s}, gone, pruned)
  {
    assert Stale(activity, cutoff) - (todo - {s})
        == (Stale(activity, cutoff) - todo) + if activity[s] < cutoff then {s} else {};
  }

  lemma SweptAll(activity: map<string, int>, cutoff: int, gone: set<string>, pruned: nat)
    requires Swept(activity, cutoff, {}, gone, pruned)
    ensures gone == Stale(activity, cutoff) && pruned == |gone|
  {
    hide Stale;
  }

  ghost predicate Forgot<V>(before: map<string, V>, after: map<string, V>, gone: set<string>) {
    after == before - gone
  }

  lemma Remembered<V(!new)>(before: map<string, V>, after: map<string, V>, gone: set<string>, s: string)
    requires Forgot(before, after, gone) && s in before && s !in gone
    ensures s in after && after[s] == before[s]
  {
  }

  lemma ForgetOne<V(!new)>(before: map<string, V>, after: map<string, V>, gone: set<string>, s: string)
    requires Forgot(before, after, gone)
    ensures Forgot(before, after - {s}, gone + {s})
  {
  }

  lemma ForgottenAll(
    turns: map<string, seq<Turn>>, turns': map<string, seq<Turn>>, activity: map<string, int>,
    activity': map<string, int>,
    log: map<string, seq<Turn>>, log': map<string, seq<Turn>>, gone: set<string>)
    requires Consistent(turns, activity, log)
    requires Forgot(turns, turns', gone) && Forgot(activity, activity', gone) && Forgot(log, log', gone)
    ensures Consistent(turns', activity', log') && activity' == activity - gone && log' == log - gone
  {
    ForgettingIsConsistent(turns, activity, log, gone);
    hide Consistent;
  }

  // ---------------------------------------------------------------- exchanges

  /** `persistTurns` appends a question and its answer together. */
  datatype Exchange = Exchange(question: string, answer: string)

  function Turns(exchanges: seq<Exchange>): seq<Turn> {
    if exchanges == [] then []
    else
      var last := exchanges[|exchanges| - 1];
      Turns(exchanges[..|exchanges| - 1]) + [Turn(User, last.question), Turn(Assistant, last.answer)]
  }

  lemma {:induction false} TurnsAlternate(exchanges: seq<Exchange>)
    ensures |Turns(exchanges)| == 2 * |exchanges|
    ensures forall i | 0 <= i < |exchanges| ::
      && Turns(exchanges)[2 * i] == Turn(User, exchanges[i].question)
      && Turns(exchanges)[2 * i + 1] == Turn(Assistant, exchanges[i].answer)
  {
    if exchanges != [] {
      TurnsAlternate(exchanges[..|exchanges| - 1]);
    }
  }

  lemma {:induction false} TurnsConcat(a: seq<Exchange>, b: seq<Exchange>)
    ensures Turns(a + b) == Turns(a) + Turns(b)
  {
    if b == [] {
      assert a + b == a;
    } else {
      TurnsConcat(a, b[..|b| - 1]);
      assert (a + b)[..|a + b| - 1] == a + b[..|b| - 1];
    }
  }

  /** Whole exchanges: an even number of turns, the user's at even positions, the assistant's at odd ones. */
  predicate Alternates(turns: seq<Turn>) {
    && |turns| % 2 == 0
    && forall i | 0 <= i < |turns| :: turns[i].role == if i % 2 == 0 then User else Assistant
  }

  /** A session that only received exchanges shows its last ten, whole and in order: an even number of
      turns that alternate, beginning with the user's. */
  lemma HistoryIsWholeExchanges(exchanges: seq<Exchange>)
    ensures var history := Last(Turns(exchanges), MAX_TURNS_PER_SESSION);
      && history == Turns(Last(exchanges, MAX_TURNS_PER_SESSION / 2))
      && Alternates(history)
  {
    var recent := Last(exchanges, MAX_TURNS_PER_SESSION / 2);
    var older := exchanges[..|exchanges| - |recent|];
    assert exchanges == older + recent;
    TurnsConcat(older, recent);
    TurnsAlternate(older);
    TurnsAlternate(recent);
    TurnsAreWhole(recent);
    hide *;
    LastOfConcat(Turns(older), Turns(recent), MAX_TURNS_PER_SESSION);
  }

  lemma TurnsAreWhole(exchanges: seq<Exchange>)
    ensures Alternates(Turns(exchanges))
  {
    TurnsAlternate(exchanges);
    hide Turns;
    forall i | 0 <= i < |Turns(exchanges)|
      ensures Turns(exchanges)[i].role == if i % 2 == 0 then User else Assistant
    {
      RoleAt(exchanges, i);
    }
  }

  lemma LastOfConcat<T(!new)>(a: seq<T>, b: seq<T>, n: nat)
    requires |b| == n || (a == [] && |b| <= n)
    ensures Last(a + b, n) == b
  {
  }

  lemma RoleAt(exchanges: seq<Exchange>, i: nat)
    requires i < |Turns(exchanges)|
    ensures Turns(exchanges)[i].role == if i % 2 == 0 then User else Assistant
  {
    TurnsAlternate(exchanges);
    hide Turns;
    var k := i / 2;
    assert i == 2 * k || i == 2 * k + 1;
    assert Turns(exchanges)[2 * k] == Turn(User, exchanges[k].question);
  }

  /** The handler appends a question and its answer in one call, so a log of exchanges stays one. */
  method PersistTurns(store: MemoryStore, session: string, question: string, answer: string, now: int)
    requires store.Valid()
    modifies store
    ensures store.Valid()
    ensures forall exchanges :: Of(old(store.log), session) == Turns(exchanges) ==>
      Of(store.log, session) == Turns(exchanges + [Exchange(question, answer)])
  {
    ghost var before := Of(store.log, session);
    store.AppendTurns(session, [Turn(User, question), Turn(Assistant, answer)], now);
    hide Turns;
    forall exchanges | before == Turns(exchanges)
      ensures Of(store.log, session) == Turns(exchanges + [Exchange(question, answer)])
    {
      OneMoreExchange(exchanges, Exchange(question, answer));
    }
  }

  lemma OneMoreExchange(exchanges: seq<Exchange>, e: Exchange)
    ensures Turns(exchanges + [e]) == Turns(exchanges) + [Turn(User, e.question), Turn(Assistant, e.answer)]
  {
    assert (exchanges + [e])[..|exchanges|] == exchanges;
  }
}
