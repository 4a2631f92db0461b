/** The order in which a run takes on its tasks. */
module TaskQueue {
  import opened Common
  import opened EvaluationStore
  import CanonicalJson

  /** The listed episodes that are not completed, in the order they are listed. */
  function Uncompleted(episodes: seq<Episode>, completed: set<Episode>): seq<Episode> {
    if episodes == [] then []
    else (if episodes[0] in completed then [] else [episodes[0]]) + Uncompleted(episodes[1..], completed)
  }

  lemma {:induction false} UncompletedGrows(episodes: seq<Episode>, completed: set<Episode>, i: nat)
    requires i < |episodes|
    ensures Uncompleted(episodes[..i + 1], completed)
      == Uncompleted(episodes[..i], completed) + if episodes[i] in completed then [] else [episodes[i]]
  {
    if i == 0 {
      assert episodes[..1][1..] == [];
    } else {
      UncompletedGrows(episodes[1..], completed, i - 1);
      assert episodes[..i + 1][1..] == episodes[1..][..i];
      assert episodes[..i][1..] == episodes[1..][..i - 1];
    }
  }

  lemma {:induction false} UncompletedOccurs(episodes: seq<Episode>, completed: set<Episode>, e: Episode)
    ensures multiset(Uncompleted(episodes, completed))[e] == if e in completed then 0 else multiset(episodes)[e]
  {
    if episodes != [] {
      UncompletedOccurs(episodes[1..], completed, e);
      assert episodes == [episodes[0]] + episodes[1..];
      var first := if episodes[0] in completed then [] else [episodes[0]];
      assert multiset(Uncompleted(episodes, completed))[e]
        == multiset(first)[e] + multiset(Uncompleted(episodes[1..], completed))[e];
    }
  }

  lemma {:induction false} OccursOnce(s: seq<Episode>, i: nat, j: nat)
    requires i < j < |s| && s[i] == s[j]
    ensures multiset(s)[s[i]] >= 2
  {
    assert s == s[..j] + s[j..];
    assert s[i] in s[..j] && s[j] in s[j..];
  }

  lemma {:induction false} NothingCompleted(episodes: seq<Episode>)
    ensures Uncompleted(episodes, {}) == episodes
  {
    if episodes != [] {
      NothingCompleted(episodes[1..]);
    }
  }

  /** A queue is some arrangement of the uncompleted episodes. */
  ghost predicate IsQueue(episodes: seq<Episode>, completed: set<Episode>, queue: seq<Episode>) {
    multiset(queue) == multiset(Uncompleted(episodes, completed))
  }

  predicate Distinct(episodes: seq<Episode>) {
    forall i, j | 0 <= i < j < |episodes| :: episodes[i] != episodes[j]
  }

  lemma {:induction false} DistinctOccur(s: seq<Episode>, e: Episode)
    requires Distinct(s)
    ensures multiset(s)[e] == if e in s then 1 else 0
  {
    if s != [] {
      var n := |s| - 1;
      DistinctOccur(s[..n], e);
      assert s == s[..n] + [s[n]];
    }
  }

  /** A queue holds exactly the listed episodes that are not completed, each of them once. */
  lemma QueueIsExact(episodes: seq<Episode>, completed: set<Episode>, queue: seq<Episode>)
    requires Distinct(episodes) && IsQueue(episodes, completed, queue)
    ensures Distinct(queue)
    ensures forall e :: e in queue <==> e in episodes && e !in completed
  {
    forall e
      ensures multiset(queue)[e] == if e in episodes && e !in completed then 1 else 0
      ensures e in queue <==> e in episodes && e !in completed
    {
      UncompletedOccurs(episodes, completed, e);
      DistinctOccur(episodes, e);
      assert e in queue <==> e in multiset(queue);
    }
    forall i, j | 0 <= i < j < |queue|
      ensures queue[i] != queue[j]
    {
      if queue[i] == queue[j] {
        OccursOnce(queue, i, j);
      }
    }
  }

  /** The order of the pairs of task and mode. */
  predicate AtMost(d: Episode, e: Episode) {
    CanonicalJson.Less(d.task, e.task) || (d.task == e.task && d.mode <= e.mode)
  }

  lemma AtMostTotal(d: Episode, e: Episode)
    ensures AtMost(d, e) || AtMost(e, d)
  {
    CanonicalJson.LessTotal(d.task, e.task);
  }

  lemma AtMostTransitive(d: Episode, e: Episode, f: Episode)
    requires AtMost(d, e) && AtMost(e, f)
    ensures AtMost(d, f)
  {
    if CanonicalJson.Less(d.task, e.task) && CanonicalJson.Less(e.task, f.task) {
      CanonicalJson.LessTransitive(d.task, e.task, f.task);
    }
  }

  /** It tells any two episodes apart, by task first and then by mode. */
  lemma AtMostDecides(d: Episode, e: Episode)
    ensures AtMost(d, e) && AtMost(e, d) <==> d == e
    ensures d.task == e.task ==> (AtMost(d, e) <==> d.mode <= e.mode)
    ensures CanonicalJson.Less(d.task, e.task) ==> AtMost(d, e) && !AtMost(e, d)
  {
    CanonicalJson.LessIrreflexive(d.task);
    if CanonicalJson.Less(d.task, e.task) && CanonicalJson.Less(e.task, d.task) {
      CanonicalJson.LessTransitive(d.task, e.task, d.task);
    }
  }

  predicate Sorted(s: seq<Episode>) {
    forall i, j | 0 <= i < j < |s| :: AtMost(s[i], s[j])
  }

  function Insert(e: Episode, s: seq<Episode>): seq<Episode> {
    if s == [] || AtMost(e, s[0]) then [e] + s else [s[0]] + Insert(e, s[1..])
  }

  function Sort(s: seq<Episode>): seq<Episode> {
    if s == [] then [] else Insert(s[0], Sort(s[1..]))
  }

  lemma {:induction false} InsertHolds(e: Episode, s: seq<Episode>)
    ensures multiset(Insert(e, s)) == multiset([e] + s)
    ensures forall d <- Insert(e, s) :: d == e || d in s
  {
    hide AtMost;
    if s != [] && !AtMost(e, s[0]) {
      InsertHolds(e, s[1..]);
      assert s == [s[0]] + s[1..];
    }
  }

  lemma {:induction false} InsertSorts(e: Episode, s: seq<Episode>)
    requires Sorted(s)
    ensures Sorted(Insert(e, s))
  {
    hide AtMost;
    if s != [] {
      AtMostTotal(e, s[0]);
      if AtMost(e, s[0]) {
        forall j | 0 < j < |s|
          ensures AtMost(e, s[j])
        {
          AtMostTransitive(e, s[0], s[j]);
        }
      } else {
        InsertSorts(e, s[1..]);
        InsertHolds(e, s[1..]);
        var rest := Insert(e, s[1..]);
        assert forall j | 0 <= j < |rest| :: rest[j] in rest;
        hide Insert;
        assert Sorted([s[0]] + rest);
      }
    }
  }

  /** What the built-in `sorted` answers: the same episodes in order. */
  lemma {:induction false} SortSorts(s: seq<Episode>)
    ensures Sorted(Sort(s)) && multiset(Sort(s)) == multiset(s)
  {
    if s != [] {
      SortSorts(s[1..]);
      hide Sorted, Insert;
      InsertSorts(s[0], Sort(s[1..]));
      InsertHolds(s[0], Sort(s[1..]));
      assert s == [s[0]] + s[1..];
    }
  }

  /** `_ordered_queue`: the comprehension, the sort, and for a seed other than zero the shuffle, which
      swaps each place from the last down with one drawn at or below it. */
  method OrderedQueue(episodes: seq<Episode>, completed: set<Episode>, draws: Option<seq<nat>>)
    returns (queue: seq<Episode>)
    requires draws.Some? ==> |draws.value| >= |episodes| && forall i | 0 <= i < |draws.value| :: draws.value[i] <= i
    ensures IsQueue(episodes, completed, queue)
    ensures draws.None? ==> Sorted(queue)
  {
    var tasks: seq<Episode> := [];
    for k := 0 to |episodes|
      invariant |tasks| <= k && tasks == Uncompleted(episodes[..k], completed)
    {
      UncompletedGrows(episodes, completed, k);
      if episodes[k] !in completed {
        tasks := tasks + [episodes[k]];
      }
    }
    assert episodes[..|episodes|] == episodes;
    queue := Sort(tasks);
    SortSorts(tasks);
    if draws.Some? {
      var i := |queue| - 1;
      assert |multiset(queue)| == |multiset(tasks)|;
      while i >= 1
        invariant -1 <= i < |queue| <= |draws.value|
        invariant multiset(queue) == multiset(tasks)
      {
        var j := draws.value[i];
        queue := queue[i := queue[j]][j := queue[i]];
        i := i - 1;
      }
    }
  }
}
