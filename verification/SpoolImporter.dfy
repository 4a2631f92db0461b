/** Binding spool sessions to evaluation attempts by key and time window, never guessing. */
module SpoolImporter {
  import opened Common

  datatype Key = Key(experiment: string, task: string, mode: string)

  datatype Session = Session(id: nat, key: Key, first: Option<int>, last: Option<int>)

  datatype Attempt = Attempt(id: nat, key: Key, started: int, finished: Option<int>)

  datatype Assignment = Assignment(bound: map<nat, Session>, unassigned: seq<Session>, ambiguous: seq<Session>)

  /** The last recorded instant, or the first when there is none. */
  function Observed(s: Session): Option<int> {
    if s.last.Some? then s.last else s.first
  }

  predicate InWindow(s: Session, a: Attempt, grace: int) {
    Observed(s).Some? ==>
      a.started - grace <= Observed(s).value
      && Observed(s).value <= (if a.finished.Some? then a.finished.value else a.started) + grace
  }

  // ---- grouping ----

  function KeysOf(sessions: seq<Session>): seq<Key> {
    if sessions == [] then []
    else
      var rest := KeysOf(sessions[..|sessions| - 1]);
      var key := sessions[|sessions| - 1].key;
      if key in rest then rest else rest + [key]
  }

  function GroupOf(sessions: seq<Session>, key: Key): seq<Session> {
    if sessions == [] then []
    else
      var last := sessions[|sessions| - 1];
      GroupOf(sessions[..|sessions| - 1], key) + if last.key == key then [last] else []
  }

  function CandidatesOf(attempts: seq<Attempt>, key: Key): seq<Attempt> {
    if attempts == [] then []
    else
      var last := attempts[|attempts| - 1];
      CandidatesOf(attempts[..|attempts| - 1], key) + if last.key == key then [last] else []
  }

  /** The sessions group by group, in the order the keys first appear. */
  function Grouped(sessions: seq<Session>, keys: seq<Key>): seq<Session> {
    if keys == [] then [] else Grouped(sessions, keys[..|keys| - 1]) + GroupOf(sessions, keys[|keys| - 1])
  }

  // ---- one rule for every session ----

  /** The candidates not yet taken whose window holds the session. */
  function Hits(candidates: seq<Attempt>, taken: set<nat>, s: Session, grace: int): seq<Attempt> {
    if candidates == [] then []
    else
      var last := candidates[|candidates| - 1];
      Hits(candidates[..|candidates| - 1], taken, s, grace) + if last.id !in taken && InWindow(s, last, grace) then [last] else []
  }

  function PlaceAmong(a: Assignment, s: Session, candidates: seq<Attempt>, grace: int): Assignment {
    var hits := Hits(candidates, a.bound.Keys, s, grace);
    if |hits| == 1 then a.(bound := a.bound[hits[0].id := s])
    else if |hits| == 0 then a.(unassigned := a.unassigned + [s])
    else a.(ambiguous := a.ambiguous + [s])
  }

  function Place(a: Assignment, s: Session, attempts: seq<Attempt>, grace: int): Assignment {
    PlaceAmong(a, s, CandidatesOf(attempts, s.key), grace)
  }

  /** Every session placed by the same rule, in order. */
  function Run(sessions: seq<Session>, attempts: seq<Attempt>, grace: int): Assignment {
    if sessions == [] then Assignment(map[], [], [])
    else Place(Run(sessions[..|sessions| - 1], attempts, grace), sessions[|sessions| - 1], attempts, grace)
  }

  predicate DistinctIds(attempts: seq<Attempt>) {
    forall i, j | 0 <= i < j < |attempts| :: attempts[i].id != attempts[j].id
  }

  // ---- the loops ----

  method GroupSessions(sessions: seq<Session>) returns (keys: seq<Key>, groups: map<Key, seq<Session>>)
    ensures keys == KeysOf(sessions)
    ensures forall k <- keys :: k in groups && groups[k] == GroupOf(sessions, k)
  {
    keys, groups := [], map[];
    var i := 0;
    while i < |sessions|
      invariant i <= |sessions| && keys == KeysOf(sessions[..i])
      invariant forall k :: k in groups <==> k in keys
      invariant forall k <- groups :: groups[k] == GroupOf(sessions[..i], k)
      invariant forall k | k !in groups :: GroupOf(sessions[..i], k) == []
    {
      assert sessions[..i + 1][..i] == sessions[..i];
      var key := sessions[i].key;
      if key in groups {
        groups := groups[key := groups[key] + [sessions[i]]];
      } else {
        keys := keys + [key];
        groups := groups[key := [sessions[i]]];
      }
      i := i + 1;
    }
    assert sessions[..i] == sessions;
  }

  method GroupAttempts(attempts: seq<Attempt>) returns (groups: map<Key, seq<Attempt>>)
    ensures forall k <- groups :: groups[k] == CandidatesOf(attempts, k)
    ensures forall k | k !in groups :: CandidatesOf(attempts, k) == []
  {
    groups := map[];
    var i := 0;
    while i < |attempts|
      invariant i <= |attempts|
      invariant forall k <- groups :: groups[k] == CandidatesOf(attempts[..i], k)
      invariant forall k | k !in groups :: CandidatesOf(attempts[..i], k) == []
    {
      assert attempts[..i + 1][..i] == attempts[..i];
      var key := attempts[i].key;
      groups := groups[key := (if key in groups then groups[key] else []) + [attempts[i]]];
      i := i + 1;
    }
    assert attempts[..i] == attempts;
  }

  method FreeInWindow(candidates: seq<Attempt>, bound: map<nat, Session>, s: Session, grace: int) returns (hits: seq<Attempt>)
    ensures hits == Hits(candidates, bound.Keys, s, grace)
  {
    hits := [];
    var i := 0;
    while i < |candidates|
      invariant i <= |candidates| && hits == Hits(candidates[..i], bound.Keys, s, grace)
    {
      assert candidates[..i + 1][..i] == candidates[..i];
      if candidates[i].id !in bound && InWindow(s, candidates[i], grace) {
        hits := hits + [candidates[i]];
      }
      i := i + 1;
    }
    assert candidates[..i] == candidates;
  }

  /** One group: the unique-candidate shortcut, the group without candidates, and the general loop. */
  method AssignGroup(a: Assignment, group: seq<Session>, candidates: seq<Attempt>, grace: int) returns (r: Assignment)
    requires forall c <- candidates :: c.id !in a.bound
    ensures r == PlaceAll(a, group, candidates, grace)
  {
    if |group| == 1 && |candidates| == 1 {
      OnlyCandidate(a, group[0], candidates, grace);
      if InWindow(group[0], candidates[0], grace) {
        return a.(bound := a.bound[candidates[0].id := group[0]]);
      }
      return a.(unassigned := a.unassigned + [group[0]]);
    }
    if candidates == [] {
      NoCandidates(a, group, grace);
      return a.(unassigned := a.unassigned + group);
    }
    r := a;
    var i := 0;
    while i < |group|
      invariant i <= |group| && r == PlaceAll(a, group[..i], candidates, grace)
    {
      assert group[..i + 1][..i] == group[..i];
      var hits := FreeInWindow(candidates, r.bound, group[i], grace);
      if |hits| == 1 {
        r := r.(bound := r.bound[hits[0].id := group[i]]);
      } else if |hits| == 0 {
        r := r.(unassigned := r.unassigned + [group[i]]);
      } else {
        r := r.(ambiguous := r.ambiguous + [group[i]]);
      }
      i := i + 1;
    }
    assert group[..i] == group;
  }

  function PlaceAll(a: Assignment, group: seq<Session>, candidates: seq<Attempt>, grace: int): Assignment {
    if group == [] then a
    else PlaceAmong(PlaceAll(a, group[..|group| - 1], candidates, grace), group[|group| - 1], candidates, grace)
  }

  lemma OnlyCandidate(a: Assignment, s: Session, candidates: seq<Attempt>, grace: int)
    requires |candidates| == 1 && candidates[0].id !in a.bound
    ensures PlaceAll(a, [s], candidates, grace)
      == if InWindow(s, candidates[0], grace) then a.(bound := a.bound[candidates[0].id := s])
         else a.(unassigned := a.unassigned + [s])
  {
    assert candidates[..0] == [] && [s][..0] == [];
    assert Hits(candidates, a.bound.Keys, s, grace) == if InWindow(s, candidates[0], grace) then [candidates[0]] else [];
  }

  lemma {:induction false} NoCandidates(a: Assignment, group: seq<Session>, grace: int)
    ensures PlaceAll(a, group, [], grace) == a.(unassigned := a.unassigned + group)
  {
    if group != [] {
      NoCandidates(a, group[..|group| - 1], grace);
      assert group == group[..|group| - 1] + [group[|group| - 1]];
    }
  }

  lemma NothingPlaced(sessions: seq<Session>, attempts: seq<Attempt>, grace: int)
    ensures Run(Grouped(sessions, []), attempts, grace) == Assignment(map[], [], [])
  {
  }

  lemma NextGroup(sessions: seq<Session>, attempts: seq<Attempt>, keys: seq<Key>, g: nat, grace: int)
    requires g < |keys|
    ensures Run(Grouped(sessions, keys[..g + 1]), attempts, grace)
      == PlaceAll(Run(Grouped(sessions, keys[..g]), attempts, grace), GroupOf(sessions, keys[g]),
           CandidatesOf(attempts, keys[g]), grace)
  {
    assert keys[..g + 1][..g] == keys[..g];
    assert Grouped(sessions, keys[..g + 1]) == Grouped(sessions, keys[..g]) + GroupOf(sessions, keys[g]);
    hide Grouped, Run, PlaceAll, CandidatesOf, GroupOf;
    GroupKeys(sessions, keys[g]);
    RunGroup(Grouped(sessions, keys[..g]), GroupOf(sessions, keys[g]), attempts, keys[g], grace);
  }

  /** `assign_attempts`: group by group, which comes to placing every session by the one rule. */
  method AssignAttempts(sessions: seq<Session>, attempts: seq<Attempt>, grace: int) returns (r: Assignment)
    requires DistinctIds(attempts)
    ensures r == Run(Grouped(sessions, KeysOf(sessions)), attempts, grace)
  {
    hide KeysOf, GroupOf, CandidatesOf, Grouped, Run, PlaceAll, DistinctIds;
    var keys, groups := GroupSessions(sessions);
    var attemptGroups := GroupAttempts(attempts);
    r := Assignment(map[], [], []);
    NothingPlaced(sessions, attempts, grace);
    var g := 0;
    while g < |keys|
      invariant g <= |keys|
      invariant r == Run(Grouped(sessions, keys[..g]), attempts, grace)
    {
      var key := keys[g];
      var candidates := if key in attemptGroups then attemptGroups[key] else [];
      NotTakenYet(sessions, attempts, keys, g, grace);
      NextGroup(sessions, attempts, keys, g, grace);
      r := AssignGroup(r, groups[key], candidates, grace);
      g := g + 1;
    }
    assert keys[..g] == keys;
  }

  /** A bound attempt is one of the session's key whose window holds it. */
  ghost predicate BoundWell(id: nat, s: Session, attempts: seq<Attempt>, grace: int) {
    exists c <- attempts :: c.id == id && c.key == s.key && InWindow(s, c, grace)
  }

  lemma {:induction false} CandidateKeys(attempts: seq<Attempt>, key: Key)
    ensures forall c <- CandidatesOf(attempts, key) :: c in attempts && c.key == key
  {
    if attempts != [] {
      CandidateKeys(attempts[..|attempts| - 1], key);
    }
  }

  lemma {:induction false} HitsAre(candidates: seq<Attempt>, taken: set<nat>, s: Session, grace: int)
    ensures forall c <- Hits(candidates, taken, s, grace) :: c in candidates && c.id !in taken && InWindow(s, c, grace)
  {
    if candidates != [] {
      HitsAre(candidates[..|candidates| - 1], taken, s, grace);
    }
  }

  /** Every pair bound agrees on the key and lies in the window, and its session was placed. */
  lemma {:induction false} RunBindsWell(sessions: seq<Session>, attempts: seq<Attempt>, grace: int)
    ensures forall id <- Run(sessions, attempts, grace).bound ::
      Run(sessions, attempts, grace).bound[id] in sessions
      && BoundWell(id, Run(sessions, attempts, grace).bound[id], attempts, grace)
  {
    if sessions != [] {
      var front, s := sessions[..|sessions| - 1], sessions[|sessions| - 1];
      RunBindsWell(front, attempts, grace);
      var a := Run(front, attempts, grace);
      var candidates := CandidatesOf(attempts, s.key);
      CandidateKeys(attempts, s.key);
      HitsAre(candidates, a.bound.Keys, s, grace);
      var hits := Hits(candidates, a.bound.Keys, s, grace);
      if |hits| == 1 {
        assert hits[0] in hits;
        assert BoundWell(hits[0].id, s, attempts, grace);
      }
      hide InWindow, Hits, CandidatesOf, BoundWell;
      assert forall q <- front :: q in sessions;
    }
  }

  lemma {:induction false} KeysDistinct(sessions: seq<Session>)
    ensures forall i, j | 0 <= i < j < |KeysOf(sessions)| :: KeysOf(sessions)[i] != KeysOf(sessions)[j]
    ensures forall s <- sessions :: s.key in KeysOf(sessions)
  {
    if sessions != [] {
      var front, last := sessions[..|sessions| - 1], sessions[|sessions| - 1];
      KeysDistinct(front);
      assert sessions == front + [last];
    }
  }

  lemma {:induction false} GroupedKeys(sessions: seq<Session>, keys: seq<Key>)
    ensures forall s <- Grouped(sessions, keys) :: s.key in keys
  {
    if keys != [] {
      GroupedKeys(sessions, keys[..|keys| - 1]);
      GroupKeys(sessions, keys[|keys| - 1]);
    }
  }

  /** No attempt of a later group is taken by an earlier one. */
  lemma NotTakenYet(sessions: seq<Session>, attempts: seq<Attempt>, keys: seq<Key>, g: nat, grace: int)
    requires DistinctIds(attempts) && g < |keys| && keys == KeysOf(sessions)
    ensures forall c <- CandidatesOf(attempts, keys[g]) :: c.id !in Run(Grouped(sessions, keys[..g]), attempts, grace).bound
  {
    KeysDistinct(sessions);
    GroupedKeys(sessions, keys[..g]);
    CandidateKeys(attempts, keys[g]);
    var before := Grouped(sessions, keys[..g]);
    RunBindsWell(before, attempts, grace);
    var a := Run(before, attempts, grace);
    hide Run, Grouped, KeysOf, CandidatesOf;
    forall c <- CandidatesOf(attempts, keys[g])
      ensures c.id !in a.bound
    {
      if c.id in a.bound {
        var d :| d in attempts && d.id == c.id && d.key == a.bound[c.id].key && InWindow(a.bound[c.id], d, grace);
        SameAttempt(attempts, c, d);
      }
    }
  }

  lemma SameAttempt(attempts: seq<Attempt>, c: Attempt, d: Attempt)
    requires DistinctIds(attempts) && c in attempts && d in attempts && c.id == d.id
    ensures c == d
  {
    var i :| 0 <= i < |attempts| && attempts[i] == c;
    var j :| 0 <= j < |attempts| && attempts[j] == d;
  }

  /** Placing a whole group among its candidates is placing its sessions one by one. */
  lemma {:induction false} RunGroup(before: seq<Session>, group: seq<Session>, attempts: seq<Attempt>, key: Key, grace: int)
    requires forall s <- group :: s.key == key
    ensures Run(before + group, attempts, grace) == PlaceAll(Run(before, attempts, grace), group, CandidatesOf(attempts, key), grace)
  {
    if group == [] {
      assert before + group == before;
    } else {
      var front, last := group[..|group| - 1], group[|group| - 1];
      RunGroup(before, front, attempts, key, grace);
      assert (before + group)[..|before + group| - 1] == before + front;
      assert last in group;
      hide PlaceAmong, CandidatesOf;
    }
  }

  lemma {:induction false} GroupKeys(sessions: seq<Session>, key: Key)
    ensures forall s <- GroupOf(sessions, key) :: s.key == key && s in sessions
  {
    if sessions != [] {
      GroupKeys(sessions[..|sessions| - 1], key);
    }
  }
}
