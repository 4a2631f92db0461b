/** Round-robin selection of pilot tasks over the databases of a shuffled pool. */
module PilotSelection {

  datatype Task = Task(id: string, database: string, ambiguity: nat)

  // ---- strata ----

  /** The tasks of one database, in the order of the pool. */
  function Stratum(pool: seq<Task>, database: string): seq<Task> {
    if pool == [] then []
    else
      var last := pool[|pool| - 1];
      Stratum(pool[..|pool| - 1], database) + if last.database == database then [last] else []
  }

  function Databases(pool: seq<Task>): set<string> {
    if pool == [] then {} else Databases(pool[..|pool| - 1]) + {pool[|pool| - 1].database}
  }

  lemma {:induction false} DatabasesAre(pool: seq<Task>)
    ensures forall t <- pool :: t.database in Databases(pool)
  {
    if pool != [] {
      DatabasesAre(pool[..|pool| - 1]);
    }
  }

  method Stratify(pool: seq<Task>) returns (strata: map<string, seq<Task>>)
    ensures forall d <- strata :: strata[d] == Stratum(pool, d)
    ensures strata.Keys == Databases(pool)
  {
    strata := map[];
    var i := 0;
    while i < |pool|
      invariant i <= |pool|
      invariant forall d <- strata :: strata[d] == Stratum(pool[..i], d)
      invariant forall d | d !in strata :: Stratum(pool[..i], d) == []
      invariant strata.Keys == Databases(pool[..i])
    {
      assert pool[..i + 1][..i] == pool[..i];
      var database := pool[i].database;
      strata := strata[database := (if database in strata then strata[database] else []) + [pool[i]]];
      i := i + 1;
    }
    assert pool[..i] == pool;
  }

  // ---- the nested loops ----

  function Min(a: nat, b: nat): nat {
    if a <= b then a else b
  }

  /** How many tasks of stratum `x` are picked after `rounds` full rounds and the first `part` of the next. */
  function Turns(strata: seq<seq<Task>>, rounds: nat, part: nat, x: nat): nat
    requires x < |strata|
  {
    Min(|strata[x]|, rounds + if x < part then 1 else 0)
  }

  function TotalTurns(strata: seq<seq<Task>>, rounds: nat, part: nat, n: nat): nat
    requires n <= |strata|
  {
    if n == 0 then 0 else TotalTurns(strata, rounds, part, n - 1) + Turns(strata, rounds, part, n - 1)
  }

  function Total(strata: seq<seq<Task>>): nat {
    if strata == [] then 0 else Total(strata[..|strata| - 1]) + |strata[|strata| - 1]|
  }

  /** The picks that came from stratum `x`, in order. */
  function From(picked: seq<(nat, Task)>, x: nat): seq<Task> {
    if picked == [] then []
    else
      var last := picked[|picked| - 1];
      From(picked[..|picked| - 1], x) + if last.0 == x then [last.1] else []
  }

  /** Which of its stratum's picks pick `p` is, counting from zero: the round it was made in. */
  function RoundOf(picked: seq<(nat, Task)>, p: nat): nat
    requires p < |picked|
  {
    |From(picked[..p], picked[p].0)|
  }

  predicate Earlier(round: nat, x: nat, other: nat, y: nat) {
    round < other || (round == other && x < y)
  }

  /** Picks are made round by round, in database order within a round, and all before the given point. */
  predicate InRounds(picked: seq<(nat, Task)>, rounds: nat, part: nat) {
    && (forall p | 0 <= p < |picked| :: Earlier(RoundOf(picked, p), picked[p].0, rounds, part))
    && (forall p, q | 0 <= p < q < |picked| :: Earlier(RoundOf(picked, p), picked[p].0, RoundOf(picked, q), picked[q].0))
  }

  lemma PickInRounds(picked: seq<(nat, Task)>, rounds: nat, d: nat, t: Task)
    requires InRounds(picked, rounds, d) && |From(picked, d)| == rounds
    ensures InRounds(picked + [(d, t)], rounds, d + 1)
  {
    var more := picked + [(d, t)];
    assert more[..|picked|] == picked;
    forall p | 0 <= p < |picked|
      ensures RoundOf(more, p) == RoundOf(picked, p)
    {
      assert more[..p] == picked[..p];
    }
    assert RoundOf(more, |picked|) == rounds;
    hide RoundOf;
  }

  lemma LaterPoint(picked: seq<(nat, Task)>, rounds: nat, part: nat, later: nat, point: nat)
    requires InRounds(picked, rounds, part) && (Earlier(rounds, part, later, point) || (rounds == later && part == point))
    ensures InRounds(picked, later, point)
  {
    hide RoundOf;
  }

  /** Where the loops stand: every stratum has given a prefix of its list, as long as its turns, and holds
      the rest. */
  ghost predicate Standing(strata: seq<seq<Task>>, left: seq<seq<Task>>, picked: seq<(nat, Task)>, rounds: nat, part: nat) {
    && |left| == |strata| && part <= |strata|
    && (forall x | 0 <= x < |strata| ::
          && left[x] == strata[x][Turns(strata, rounds, part, x)..]
          && From(picked, x) == strata[x][..Turns(strata, rounds, part, x)])
    && |picked| == TotalTurns(strata, rounds, part, |strata|)
    && InRounds(picked, rounds, part)
    && (forall p | 0 <= p < |picked| :: picked[p].0 < |strata|)
  }

  lemma PickOne(strata: seq<seq<Task>>, left: seq<seq<Task>>, picked: seq<(nat, Task)>, rounds: nat, d: nat)
    requires Standing(strata, left, picked, rounds, d) && d < |strata| && left[d] != []
    ensures Standing(strata, left[d := left[d][1..]], picked + [(d, left[d][0])], rounds, d + 1)
  {
    var more := picked + [(d, left[d][0])];
    assert more[..|picked|] == picked;
    assert Turns(strata, rounds, d, d) == rounds && Turns(strata, rounds, d + 1, d) == rounds + 1;
    forall x | 0 <= x < |strata|
      ensures left[d := left[d][1..]][x] == strata[x][Turns(strata, rounds, d + 1, x)..]
      ensures From(more, x) == strata[x][..Turns(strata, rounds, d + 1, x)]
    {
      if x == d {
        assert strata[d][..rounds + 1] == strata[d][..rounds] + [strata[d][rounds]];
      } else {
        assert Turns(strata, rounds, d + 1, x) == Turns(strata, rounds, d, x);
      }
    }
    TurnsAdd(strata, rounds, d, |strata|);
    PickInRounds(picked, rounds, d, left[d][0]);
  }

  lemma PassOne(strata: seq<seq<Task>>, left: seq<seq<Task>>, picked: seq<(nat, Task)>, rounds: nat, d: nat)
    requires Standing(strata, left, picked, rounds, d) && d < |strata| && left[d] == []
    ensures Standing(strata, left, picked, rounds, d + 1)
  {
    assert |strata[d]| <= rounds;
    assert forall x | 0 <= x < |strata| :: Turns(strata, rounds, d + 1, x) == Turns(strata, rounds, d, x);
    TurnsAdd(strata, rounds, d, |strata|);
    LaterPoint(picked, rounds, d, rounds, d + 1);
  }

  lemma {:induction false} TurnsAdd(strata: seq<seq<Task>>, rounds: nat, d: nat, n: nat)
    requires d < |strata| && n <= |strata|
    ensures TotalTurns(strata, rounds, d + 1, n)
      == TotalTurns(strata, rounds, d, n) + if d < n && rounds < |strata[d]| then 1 else 0
  {
    if n > 0 {
      TurnsAdd(strata, rounds, d, n - 1);
    }
  }

  /** A finished round is the beginning of the next. */
  lemma {:induction false} NextRound(strata: seq<seq<Task>>, rounds: nat, n: nat)
    requires n <= |strata|
    ensures TotalTurns(strata, rounds, |strata|, n) == TotalTurns(strata, rounds + 1, 0, n)
  {
    if n > 0 {
      NextRound(strata, rounds, n - 1);
    }
  }

  lemma TurnRound(strata: seq<seq<Task>>, left: seq<seq<Task>>, picked: seq<(nat, Task)>, rounds: nat)
    requires Standing(strata, left, picked, rounds, |strata|)
    ensures Standing(strata, left, picked, rounds + 1, 0)
  {
    NextRound(strata, rounds, |strata|);
    LaterPoint(picked, rounds, |strata|, rounds + 1, 0);
    assert forall x | 0 <= x < |strata| :: Turns(strata, rounds + 1, 0, x) == Turns(strata, rounds, |strata|, x);
  }

  lemma {:induction false} NothingTaken(strata: seq<seq<Task>>, n: nat)
    requires n <= |strata|
    ensures TotalTurns(strata, 0, 0, n) == 0
  {
    if n > 0 {
      NothingTaken(strata, n - 1);
    }
  }

  lemma {:induction false} AllTaken(strata: seq<seq<Task>>, rounds: nat, part: nat, n: nat)
    requires n <= |strata|
    requires forall x | 0 <= x < n :: Turns(strata, rounds, part, x) == |strata[x]|
    ensures TotalTurns(strata, rounds, part, n) == Total(strata[..n])
  {
    if n > 0 {
      AllTaken(strata, rounds, part, n - 1);
      assert strata[..n][..n - 1] == strata[..n - 1];
    }
  }

  lemma {:induction false} TakenBounded(strata: seq<seq<Task>>, rounds: nat, part: nat, n: nat)
    requires n <= |strata|
    ensures TotalTurns(strata, rounds, part, n) <= Total(strata[..n])
  {
    if n > 0 {
      TakenBounded(strata, rounds, part, n - 1);
      assert strata[..n][..n - 1] == strata[..n - 1];
    }
  }

  method AnyLeft(left: seq<seq<Task>>) returns (any: bool)
    ensures any <==> exists x | 0 <= x < |left| :: left[x] != []
  {
    var i := 0;
    while i < |left|
      invariant i <= |left| && forall x | 0 <= x < i :: left[x] == []
    {
      if left[i] != [] {
        return true;
      }
      i := i + 1;
    }
    return false;
  }

  /** One pass over the databases; it picks something unless every stratum is empty. */
  method OneRound(strata: seq<seq<Task>>, left0: seq<seq<Task>>, picked0: seq<(nat, Task)>, perMode: int, ghost rounds: nat)
    returns (left: seq<seq<Task>>, picked: seq<(nat, Task)>, ghost part: nat)
    requires Standing(strata, left0, picked0, rounds, 0) && |picked0| < perMode
    ensures Standing(strata, left, picked, rounds, part) && |picked| <= perMode
    ensures |picked| == perMode || part == |strata|
    ensures |picked| == |picked0| ==> forall x | 0 <= x < |left0| :: left0[x] == []
    ensures |picked| >= |picked0|
  {
    left, picked, part := left0, picked0, 0;
    var d := 0;
    while d < |strata|
      invariant d <= |strata| && part <= d && Standing(strata, left, picked, rounds, part)
      invariant |picked0| <= |picked| <= perMode && (|picked| < perMode ==> part == d)
      invariant forall x | d <= x < |strata| :: left[x] == left0[x]
      invariant |picked| == |picked0| ==> forall x | 0 <= x < d :: left0[x] == []
    {
      if left[d] != [] && |picked| < perMode {
        PickOne(strata, left, picked, rounds, d);
        picked := picked + [(d, left[d][0])];
        left := left[d := left[d][1..]];
        part := d + 1;
      } else if |picked| < perMode {
        PassOne(strata, left, picked, rounds, d);
        part := d + 1;
      }
      d := d + 1;
    }
  }

  /** The selection of one mode over the strata in database order. */
  method RoundRobin(strata: seq<seq<Task>>, perMode: int)
    returns (picked: seq<(nat, Task)>, ghost left: seq<seq<Task>>, ghost rounds: nat, ghost part: nat)
    ensures Standing(strata, left, picked, rounds, part)
    ensures |picked| == if perMode <= 0 then 0 else Min(perMode, Total(strata))
  {
    var rest := strata;
    picked, rounds, part := [], 0, 0;
    NothingTaken(strata, |strata|);
    while true
      invariant Standing(strata, rest, picked, rounds, part)
      invariant |picked| < perMode ==> part == 0
      invariant perMode <= 0 ==> picked == []
      invariant perMode > 0 ==> |picked| <= perMode
      decreases perMode - |picked|
    {
      var any := AnyLeft(rest);
      if |picked| >= perMode || !any {
        break;
      }
      rest, picked, part := OneRound(strata, rest, picked, perMode, rounds);
      if part == |strata| {
        TurnRound(strata, rest, picked, rounds);
        rounds, part := rounds + 1, 0;
      }
    }
    left := rest;
    TakenBounded(strata, rounds, part, |strata|);
    assert strata[..|strata|] == strata;
    if |picked| < perMode {
      forall x | 0 <= x < |strata|
        ensures Turns(strata, rounds, part, x) == |strata[x]|
      {
        assert rest[x] == [];
      }
      AllTaken(strata, rounds, part, |strata|);
    }
  }

  // ---- what the selection guarantees ----

  /** No database is more than one pick ahead of another, unless the other is exhausted; an earlier one is
      never behind unless it is exhausted itself. */
  lemma FairShares(strata: seq<seq<Task>>, left: seq<seq<Task>>, picked: seq<(nat, Task)>, rounds: nat, part: nat, a: nat, b: nat)
    requires Standing(strata, left, picked, rounds, part) && a < |strata| && b < |strata|
    ensures |From(picked, a)| <= |From(picked, b)| + 1 || left[b] == []
    ensures a < b ==> |From(picked, b)| <= |From(picked, a)| || left[a] == []
  {
    assert From(picked, a) == strata[a][..Turns(strata, rounds, part, a)];
    assert From(picked, b) == strata[b][..Turns(strata, rounds, part, b)];
  }

  /** The picks come round by round: none is followed by one of an earlier round, nor within a round by one of
      an earlier database. */
  lemma RoundByRound(strata: seq<seq<Task>>, left: seq<seq<Task>>, picked: seq<(nat, Task)>, rounds: nat, part: nat, p: nat, q: nat)
    requires Standing(strata, left, picked, rounds, part) && p < q < |picked|
    ensures Earlier(RoundOf(picked, p), picked[p].0, RoundOf(picked, q), picked[q].0)
  {
    hide RoundOf, From;
  }

  /** Each database gives a prefix of its list, in order, and keeps the rest. */
  lemma PrefixOfEach(strata: seq<seq<Task>>, left: seq<seq<Task>>, picked: seq<(nat, Task)>, rounds: nat, part: nat, x: nat)
    requires Standing(strata, left, picked, rounds, part) && x < |strata|
    ensures From(picked, x) + left[x] == strata[x]
  {
  }

  /** The strata of a pool, in any order that lists each database once, hold the whole pool. */
  lemma {:induction false} StrataHoldPool(pool: seq<Task>, databases: seq<string>)
    requires forall i, j | 0 <= i < j < |databases| :: databases[i] != databases[j]
    requires forall t <- pool :: t.database in databases
    ensures Total(StrataOf(pool, databases)) == |pool|
  {
    if pool == [] {
      EmptyStrata(databases);
    } else {
      var front, last := pool[..|pool| - 1], pool[|pool| - 1];
      assert pool == front + [last];
      StrataHoldPool(front, databases);
      OneMoreTask(front, last, databases);
    }
  }

  function StrataOf(pool: seq<Task>, databases: seq<string>): seq<seq<Task>> {
    seq(|databases|, i requires 0 <= i < |databases| => Stratum(pool, databases[i]))
  }

  lemma {:induction false} EmptyStrata(databases: seq<string>)
    ensures Total(StrataOf([], databases)) == 0
  {
    if databases != [] {
      var s := StrataOf([], databases);
      EmptyStrata(databases[..|databases| - 1]);
      assert s[..|s| - 1] == StrataOf([], databases[..|databases| - 1]);
    }
  }

  lemma {:induction false} OneMoreTask(front: seq<Task>, last: Task, databases: seq<string>)
    requires forall i, j | 0 <= i < j < |databases| :: databases[i] != databases[j]
    ensures Total(StrataOf(front + [last], databases))
      == Total(StrataOf(front, databases)) + if last.database in databases then 1 else 0
  {
    if databases != [] {
      var rest, d := databases[..|databases| - 1], databases[|databases| - 1];
      OneMoreTask(front, last, rest);
      var before, after := StrataOf(front, databases), StrataOf(front + [last], databases);
      assert before[..|rest|] == StrataOf(front, rest) && after[..|rest|] == StrataOf(front + [last], rest);
      assert (front + [last])[..|front|] == front;
      assert databases == rest + [d];
      assert d !in rest;
    }
  }

  /** One mode of `select_pilot_tasks`: `databases` are the keys in sorted order. The count is exactly the
      smaller of what is asked and what there is. */
  method SelectMode(pool: seq<Task>, databases: seq<string>, count: int)
    returns (picked: seq<(nat, Task)>, ghost left: seq<seq<Task>>, ghost rounds: nat, ghost part: nat)
    requires count % 2 == 0
    requires forall i, j | 0 <= i < j < |databases| :: databases[i] != databases[j]
    requires forall d :: d in databases <==> d in Databases(pool)
    ensures |picked| == if count <= 0 then 0 else Min(count / 2, |pool|)
    ensures Standing(StrataOf(pool, databases), left, picked, rounds, part)
  {
    var strata := Stratify(pool);
    var lists := seq(|databases|, i requires 0 <= i < |databases| => if databases[i] in strata then strata[databases[i]] else []);
    forall i | 0 <= i < |databases|
      ensures lists[i] == Stratum(pool, databases[i])
    {
      assert databases[i] in databases;
    }
    assert lists == StrataOf(pool, databases);
    picked, left, rounds, part := RoundRobin(lists, count / 2);
    DatabasesAre(pool);
    StrataHoldPool(pool, databases);
  }
}
