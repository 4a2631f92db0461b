/** Session matching is a sound partition. */
module SpoolTheorems {
  import opened Common
  import opened SpoolImporter

  // ---- every session is placed ----

  lemma GroupStep(sessions: seq<Session>, s: Session, keys: seq<Key>, last: Key)
    ensures Grouped(sessions, keys + [last]) == Grouped(sessions, keys) + GroupOf(sessions, last)
    ensures GroupOf(sessions + [s], last) == GroupOf(sessions, last) + if s.key == last then [s] else []
  {
    assert (keys + [last])[..|keys|] == keys && (sessions + [s])[..|sessions|] == sessions;
  }

  lemma {:induction false} GroupExtends(sessions: seq<Session>, s: Session, keys: seq<Key>)
    requires forall i, j | 0 <= i < j < |keys| :: keys[i] != keys[j]
    ensures multiset(Grouped(sessions + [s], keys))
      == multiset(Grouped(sessions, keys)) + (if s.key in keys then multiset{s} else multiset{})
  {
    if keys == [] {
      assert Grouped(sessions, []) == [] && Grouped(sessions + [s], []) == [];
    } else {
      hide Grouped, GroupOf;
      var front, last := keys[..|keys| - 1], keys[|keys| - 1];
      assert keys == front + [last];
      GroupExtends(sessions, s, front);
      GroupStep(sessions, s, front, last);
      GroupStep(sessions + [s], s, front, last);
      NotBefore(keys);
      Together(Grouped(sessions, front), Grouped(sessions + [s], front), GroupOf(sessions, last), s, s.key in front, s.key == last);
    }
  }

  lemma NotBefore(keys: seq<Key>)
    requires keys != [] && forall i, j | 0 <= i < j < |keys| :: keys[i] != keys[j]
    ensures keys[|keys| - 1] !in keys[..|keys| - 1]
  {
  }

  lemma Together(a: seq<Session>, b: seq<Session>, g: seq<Session>, s: Session, inFront: bool, isLast: bool)
    requires multiset(b) == multiset(a) + (if inFront then multiset{s} else multiset{}) && !(inFront && isLast)
    ensures multiset(b + (g + if isLast then [s] else []))
      == multiset(a + g) + (if inFront || isLast then multiset{s} else multiset{})
  {
  }

  lemma {:induction false} GroupedAbsentKey(sessions: seq<Session>, keys: seq<Key>, key: Key)
    requires forall s <- sessions :: s.key != key
    ensures Grouped(sessions, keys + [key]) == Grouped(sessions, keys)
  {
    assert (keys + [key])[..|keys|] == keys;
    NoneOfKey(sessions, key);
  }

  lemma {:induction false} NoneOfKey(sessions: seq<Session>, key: Key)
    requires forall s <- sessions :: s.key != key
    ensures GroupOf(sessions, key) == []
  {
    if sessions != [] {
      NoneOfKey(sessions[..|sessions| - 1], key);
    }
  }

  lemma KeysStep(front: seq<Session>, last: Session)
    ensures KeysOf(front + [last]) == if last.key in KeysOf(front) then KeysOf(front) else KeysOf(front) + [last.key]
  {
    assert (front + [last])[..|front|] == front;
  }

  /** Grouping only reorders the sessions. */
  lemma {:induction false} GroupedIsPermutation(sessions: seq<Session>)
    ensures multiset(Grouped(sessions, KeysOf(sessions))) == multiset(sessions)
  {
    if sessions != [] {
      hide KeysOf, GroupOf, Grouped;
      var front, last := sessions[..|sessions| - 1], sessions[|sessions| - 1];
      assert sessions == front + [last];
      GroupedIsPermutation(front);
      KeysStep(front, last);
      KeysDistinct(front);
      KeysDistinct(sessions);
      GroupExtends(front, last, KeysOf(sessions));
      if last.key !in KeysOf(front) {
        GroupedAbsentKey(front, KeysOf(front), last.key);
      }
    }
  }

  /** The sessions bound, in the order they were placed. */
  function Winners(sessions: seq<Session>, attempts: seq<Attempt>, grace: int): seq<(nat, Session)> {
    if sessions == [] then []
    else
      var front, s := sessions[..|sessions| - 1], sessions[|sessions| - 1];
      var hits := Hits(CandidatesOf(attempts, s.key), Run(front, attempts, grace).bound.Keys, s, grace);
      Winners(front, attempts, grace) + if |hits| == 1 then [(hits[0].id, s)] else []
  }

  function Sessions(pairs: seq<(nat, Session)>): seq<Session> {
    seq(|pairs|, i requires 0 <= i < |pairs| => pairs[i].1)
  }

  predicate Partitioned(w: seq<(nat, Session)>, r: Assignment, sessions: seq<Session>) {
    && multiset(Sessions(w)) + multiset(r.unassigned) + multiset(r.ambiguous) == multiset(sessions)
    && WinnersBound(w, r.bound)
  }

  predicate WinnersBound(w: seq<(nat, Session)>, bound: map<nat, Session>) {
    && |bound| == |w|
    && (forall i | 0 <= i < |w| :: w[i].0 in bound && bound[w[i].0] == w[i].1)
    && (forall i, j | 0 <= i < j < |w| :: w[i].0 != w[j].0)
  }

  lemma BindOne(w: seq<(nat, Session)>, r: Assignment, sessions: seq<Session>, id: nat, s: Session)
    requires Partitioned(w, r, sessions) && id !in r.bound
    ensures Partitioned(w + [(id, s)], r.(bound := r.bound[id := s]), sessions + [s])
  {
    assert Sessions(w + [(id, s)]) == Sessions(w) + [s];
    assert WinnersBound(w + [(id, s)], r.bound[id := s]);
  }

  lemma LeaveOne(w: seq<(nat, Session)>, r: Assignment, sessions: seq<Session>, s: Session)
    requires Partitioned(w, r, sessions)
    ensures Partitioned(w, r.(unassigned := r.unassigned + [s]), sessions + [s])
    ensures Partitioned(w, r.(ambiguous := r.ambiguous + [s]), sessions + [s])
  {
    hide WinnersBound, Sessions;
  }

  lemma EmptyPartition()
    ensures Partitioned([], Assignment(map[], [], []), [])
  {
    assert Sessions([]) == [];
  }

  lemma PlaceOne(front: seq<Session>, s: Session, attempts: seq<Attempt>, grace: int)
    ensures var a := Run(front, attempts, grace);
      var hits := Hits(CandidatesOf(attempts, s.key), a.bound.Keys, s, grace);
      && Run(front + [s], attempts, grace) == PlaceAmong(a, s, CandidatesOf(attempts, s.key), grace)
      && Winners(front + [s], attempts, grace)
           == Winners(front, attempts, grace) + (if |hits| == 1 then [(hits[0].id, s)] else [])
  {
    hide Hits, CandidatesOf, PlaceAmong;
    assert (front + [s])[..|front|] == front;
  }

  /** Each session ends in exactly one of the three places, and no binding overwrites another: the bound
      attempts are those of the winners, one for each. */
  lemma {:induction false} PartitionOf(sessions: seq<Session>, attempts: seq<Attempt>, grace: int)
    ensures Partitioned(Winners(sessions, attempts, grace), Run(sessions, attempts, grace), sessions)
  {
    if sessions == [] {
      EmptyPartition();
    } else {
      hide Hits, CandidatesOf, Run, Winners, Partitioned;
      var front, s := sessions[..|sessions| - 1], sessions[|sessions| - 1];
      assert sessions == front + [s];
      PartitionOf(front, attempts, grace);
      PlaceOne(front, s, attempts, grace);
      var a, w := Run(front, attempts, grace), Winners(front, attempts, grace);
      PartitionStep(w, a, front, s, CandidatesOf(attempts, s.key), grace);
    }
  }

  lemma PartitionStep(w: seq<(nat, Session)>, a: Assignment, front: seq<Session>, s: Session, candidates: seq<Attempt>, grace: int)
    requires Partitioned(w, a, front)
    ensures var hits := Hits(candidates, a.bound.Keys, s, grace);
      Partitioned(w + (if |hits| == 1 then [(hits[0].id, s)] else []), PlaceAmong(a, s, candidates, grace), front + [s])
  {
    hide Hits, Partitioned;
    var hits := Hits(candidates, a.bound.Keys, s, grace);
    HitsAre(candidates, a.bound.Keys, s, grace);
    if |hits| == 1 {
      assert hits[0] in hits;
      BindOne(w, a, front, hits[0].id, s);
    } else {
      LeaveOne(w, a, front, s);
      assert w + [] == w;
    }
  }

  /** Over the whole import: every session given ends in exactly one place. */
  lemma EverySessionPlaced(sessions: seq<Session>, attempts: seq<Attempt>, grace: int)
    ensures var order := Grouped(sessions, KeysOf(sessions));
      var r, w := Run(order, attempts, grace), Winners(order, attempts, grace);
      && multiset(Sessions(w)) + multiset(r.unassigned) + multiset(r.ambiguous) == multiset(sessions)
      && WinnersBound(w, r.bound)
  {
    GroupedIsPermutation(sessions);
    var order := Grouped(sessions, KeysOf(sessions));
    hide Grouped, KeysOf, Run, Winners, Sessions, WinnersBound;
    PartitionOf(order, attempts, grace);
  }

  // ---- why a session ended where it did ----

  /** An attempt of the session's key, not taken before, whose window holds the session. */
  predicate FreeFor(c: Attempt, taken: set<nat>, s: Session, attempts: seq<Attempt>, grace: int) {
    c in attempts && c.key == s.key && c.id !in taken && InWindow(s, c, grace)
  }

  ghost predicate OnlyFree(c: Attempt, taken: set<nat>, s: Session, attempts: seq<Attempt>, grace: int) {
    FreeFor(c, taken, s, attempts, grace) && forall d :: FreeFor(d, taken, s, attempts, grace) ==> d == c
  }

  lemma {:induction false} CandidatesAre(attempts: seq<Attempt>, key: Key)
    requires DistinctIds(attempts)
    ensures forall c :: c in CandidatesOf(attempts, key) <==> c in attempts && c.key == key
    ensures DistinctIds(CandidatesOf(attempts, key))
  {
    if attempts != [] {
      var front, last := attempts[..|attempts| - 1], attempts[|attempts| - 1];
      CandidatesAre(front, key);
      assert attempts == front + [last];
      var rest := CandidatesOf(front, key);
      assert CandidatesOf(attempts, key) == rest + if last.key == key then [last] else [];
      hide CandidatesOf;
      forall c <- rest
        ensures c.id != last.id
      {
        assert c in front;
      }
    }
  }

  lemma {:induction false} HitsExactly(candidates: seq<Attempt>, taken: set<nat>, s: Session, grace: int)
    requires DistinctIds(candidates)
    ensures forall c :: c in Hits(candidates, taken, s, grace) <==> c in candidates && c.id !in taken && InWindow(s, c, grace)
    ensures DistinctIds(Hits(candidates, taken, s, grace))
  {
    hide InWindow;
    if candidates != [] {
      var front, last := candidates[..|candidates| - 1], candidates[|candidates| - 1];
      HitsExactly(front, taken, s, grace);
      assert candidates == front + [last];
      var rest := Hits(front, taken, s, grace);
      assert Hits(candidates, taken, s, grace) == rest + if last.id !in taken && InWindow(s, last, grace) then [last] else [];
      hide Hits;
      forall c <- rest
        ensures c.id != last.id
      {
        assert c in front;
      }
    }
  }

  /** Session `i` is bound to an attempt exactly when that attempt is the only free one for it at the time;
      it stays unassigned exactly when none is free, and is ambiguous exactly when two are. */
  lemma PlacedExactly(sessions: seq<Session>, attempts: seq<Attempt>, grace: int, i: nat)
    requires DistinctIds(attempts) && i < |sessions|
    ensures var s := sessions[i];
      var before, after := Run(sessions[..i], attempts, grace), Run(sessions[..i + 1], attempts, grace);
      var taken := before.bound.Keys;
      && (forall c: Attempt :: OnlyFree(c, taken, s, attempts, grace) ==> after == before.(bound := before.bound[c.id := s]))
      && (after.bound != before.bound ==> exists c :: OnlyFree(c, taken, s, attempts, grace))
      && (after == before.(unassigned := before.unassigned + [s]) <==> forall c :: !FreeFor(c, taken, s, attempts, grace))
      && (after == before.(ambiguous := before.ambiguous + [s]) <==>
            exists c, d :: c != d && FreeFor(c, taken, s, attempts, grace) && FreeFor(d, taken, s, attempts, grace))
  {
    var s := sessions[i];
    assert sessions[..i + 1][..i] == sessions[..i];
    var before, after := Run(sessions[..i], attempts, grace), Run(sessions[..i + 1], attempts, grace);
    var taken := before.bound.Keys;
    var candidates := CandidatesOf(attempts, s.key);
    CandidatesAre(attempts, s.key);
    HitsExactly(candidates, taken, s, grace);
    var hits := Hits(candidates, taken, s, grace);
    assert after == PlaceAmong(before, s, candidates, grace);
    hide Run, CandidatesOf, Hits, InWindow;
    assert forall c :: c in hits <==> FreeFor(c, taken, s, attempts, grace);
    hide FreeFor;
    OneOrMany(hits);
    DifferentPlaces(before, s);
    if |hits| == 1 {
      assert hits[0] in hits;
      assert OnlyFree(hits[0], taken, s, attempts, grace);
    }
  }

  lemma OneOrMany(hits: seq<Attempt>)
    requires DistinctIds(hits)
    ensures |hits| == 1 ==> forall c <- hits :: c == hits[0]
    ensures |hits| == 0 <==> forall c :: c !in hits
    ensures |hits| >= 2 <==> exists c, d :: c != d && c in hits && d in hits
  {
    if |hits| >= 2 {
      assert hits[0] in hits && hits[1] in hits && hits[0] != hits[1];
    }
    if |hits| >= 1 {
      assert hits[0] in hits;
    }
  }

  lemma DifferentPlaces(a: Assignment, s: Session)
    ensures a.unassigned + [s] != a.unassigned && a.ambiguous + [s] != a.ambiguous
  {
    assert |a.unassigned + [s]| != |a.unassigned| && |a.ambiguous + [s]| != |a.ambiguous|;
  }

  /** A session lies in an attempt's window exactly if it carries no instant, or its last instant, the first where
      there is no last, is no earlier than the start and no later than the end, the start of one that has not
      ended, give or take the grace. */
  lemma WindowExactly(s: Session, a: Attempt, grace: int)
    ensures InWindow(s, a, grace) <==>
      match (s.last, s.first)
      case (None, None) => true
      case (Some(at), _) => a.started <= at + grace && at <= EndOf(a) + grace
      case (None, Some(at)) => a.started <= at + grace && at <= EndOf(a) + grace
  {
  }

  function EndOf(a: Attempt): int {
    match a.finished case None => a.started case Some(at) => at
  }
}
