/** Alert backtests: ratios rounded to six places, threshold tests, window order, and snapshot identity. */
module Backtest {
  import opened Common
  import opened CanonicalCommand
  import CanonicalJson

  const MILLION := 1000000

  /** numerator/denominator in millionths, half to even. */
  function Rounded(n: nat, d: nat): nat
    requires d > 0
  {
    var q, r := n * MILLION / d, n * MILLION % d;
    if 2 * r < d || (2 * r == d && q % 2 == 0) then q else q + 1
  }

  /** `x` is within half a unit of m/d, and at exactly half a unit it is even. */
  predicate Nearest(m: nat, d: nat, x: nat) {
    var twice := 2 * (d * x);
    && 2 * m <= twice + d && twice <= 2 * m + d
    && (2 * m == twice + d || twice == 2 * m + d ==> x % 2 == 0)
  }

  /** The rounded value is the nearest millionth, and a tie goes to the even neighbour. */
  lemma RoundedNearest(n: nat, d: nat)
    requires d > 0
    ensures Nearest(n * MILLION, d, Rounded(n, d))
  {
    var m := n * MILLION;
    var q, r := m / d, m % d;
    assert m == d * q + r;
    assert d * (q + 1) == d * q + d;
  }

  lemma Times(d: nat, x: nat, y: nat)
    requires x <= y
    ensures d * x <= d * y
  {
  }

  /** That determines it. */
  lemma NearestUnique(m: nat, d: nat, x: nat, y: nat)
    requires d > 0 && Nearest(m, d, x) && Nearest(m, d, y)
    ensures x == y
  {
    if x < y {
      OneApart(m, d, x, y);
    } else if y < x {
      OneApart(m, d, y, x);
    }
  }

  lemma OneApart(m: nat, d: nat, x: nat, y: nat)
    requires d > 0 && x < y && 2 * m <= 2 * (d * x) + d && 2 * (d * y) <= 2 * m + d
    ensures y == x + 1 && 2 * m == 2 * (d * x) + d && 2 * (d * y) == 2 * m + d
  {
    assert d * (x + 1) == d * x + d && d * (x + 2) == d * x + 2 * d;
    Times(d, x + 1, y);
    if y > x + 1 {
      Times(d, x + 2, y);
    }
  }

  /** A ratio of at most one rounds to at most one. */
  lemma RoundedInUnit(n: nat, d: nat)
    requires d > 0 && n <= d
    ensures Rounded(n, d) <= MILLION
  {
    RoundedNearest(n, d);
    var x := Rounded(n, d);
    hide Rounded;
    assert d * (MILLION + 1) == d * MILLION + d;
    if x > MILLION {
      Times(d, MILLION + 1, x);
    }
  }

  /** Rounding is monotone in the ratio, across different denominators. */
  lemma RoundedMonotone(n: nat, d: nat, k: nat, e: nat)
    requires d > 0 && e > 0 && n * e <= k * d
    ensures Rounded(n, d) <= Rounded(k, e)
  {
    var x, y := Rounded(n, d), Rounded(k, e);
    RoundedNearest(n, d);
    RoundedNearest(k, e);
    hide Rounded;
    if x > y {
      CrossedRatios(n, d, k, e, x, y);
    }
  }

  /** Only two ties one apart could cross, and then one of them would be odd. */
  lemma CrossedRatios(n: nat, d: nat, k: nat, e: nat, x: nat, y: nat)
    requires d > 0 && e > 0 && n * e <= k * d && x > y
    requires 2 * (d * x) <= 2 * (n * MILLION) + d && 2 * (k * MILLION) <= 2 * (e * y) + e
    ensures x == y + 1 && 2 * (d * x) == 2 * (n * MILLION) + d && 2 * (k * MILLION) == 2 * (e * y) + e
  {
    var a, b := 2 * (d * x) - d, 2 * (n * MILLION);
    var f, g := 2 * (k * MILLION), 2 * (e * y) + e;
    Scale(a, b, e);
    Scale(f, g, d);
    Scale(n * e, k * d, 2 * MILLION);
    var p := d * e;
    Regroup(d, e, x, y);
    assert e * b == (2 * MILLION) * (n * e) && d * f == (2 * MILLION) * (k * d);
    assert e * a <= e * b <= d * f <= d * g;
    Scale(2 * y + 1, 2 * x - 1, p);
    Tight(e, a, b);
    Tight(d, f, g);
    Positive(d, e);
    Tight(p, 2 * y + 1, 2 * x - 1);
  }

  lemma Regroup(d: nat, e: nat, x: nat, y: nat)
    ensures e * (2 * (d * x) - d) == (d * e) * (2 * x - 1)
    ensures d * (2 * (e * y) + e) == (d * e) * (2 * y + 1)
  {
  }

  lemma Positive(d: nat, e: nat)
    requires d > 0 && e > 0
    ensures d * e > 0
  {
  }

  lemma Scale(a: int, b: int, c: nat)
    requires a <= b
    ensures c * a <= c * b
  {
  }

  lemma Tight(c: nat, a: int, b: int)
    requires c > 0 && a <= b && c * a >= c * b
    ensures a == b
  {
  }

  // ---- the threshold tests ----

  /** "Greater than" on the rounded value, exactly: the true ratio exceeds the threshold by more than half a
      millionth, or by exactly half of one over an odd threshold. So it never reports a false hit, and it
      misses a true one only within that half. */
  lemma GreaterThanExact(n: nat, d: nat, t: nat)
    requires d > 0
    ensures Rounded(n, d) > t <==>
      2 * (n * MILLION) > 2 * (d * t) + d || (2 * (n * MILLION) == 2 * (d * t) + d && t % 2 == 1)
    ensures Rounded(n, d) > t ==> n * MILLION > d * t
  {
    RoundedNearest(n, d);
    var x := Rounded(n, d);
    hide Rounded;
    assert d * (t + 1) == d * t + d && d * (t + 2) == d * t + 2 * d && d * (x + 1) == d * x + d;
    if x > t {
      Times(d, t + 1, x);
      if x > t + 1 {
        Times(d, t + 2, x);
      }
    } else {
      Times(d, x, t);
      if x < t {
        Times(d, x + 1, t);
      }
    }
  }

  /** "Greater or equal" on the rounded value, exactly: it never misses a true hit, and reports a false one
      only within half a millionth below the threshold, or at exactly half of one below an even one. */
  lemma GreaterOrEqualExact(n: nat, d: nat, t: nat)
    requires d > 0
    ensures Rounded(n, d) >= t <==>
      2 * (d * t) < 2 * (n * MILLION) + d || (2 * (d * t) == 2 * (n * MILLION) + d && t % 2 == 0)
    ensures n * MILLION >= d * t ==> Rounded(n, d) >= t
  {
    if t == 0 {
      assert 2 * (d * t) == 0;
    } else {
      GreaterThanExact(n, d, t - 1);
      assert d * (t - 1) == d * t - d;
    }
  }

  // ---- observations ----

  datatype Comparator = GreaterThan | GreaterOrEqual

  datatype Observation = Observation(started: int, ended: int, numerator: int, denominator: int, complete: bool)

  datatype Excluded = ZeroDenominator | BelowMinimum | IncompleteWindow

  datatype Request = Request(
    comparator: Comparator, started: int, ended: int, filters: set<string>, grain: string, metric: string, revision: string,
    minimum: nat, threshold: nat, window: string)

  datatype WindowResult = WindowResult(observation: Observation, value: Option<nat>, excluded: Option<Excluded>, hit: bool)

  predicate Sane(o: Observation, r: Request) {
    && r.started <= o.started < o.ended <= r.ended
    && 0 <= o.numerator <= o.denominator
  }

  /** `_validate_observation_order` compares each window with the one before; that makes any two disjoint
      and in order. */
  method ValidateOrder(observations: seq<Observation>, r: Request) returns (valid: bool)
    ensures valid <==>
      && (forall i | 0 <= i < |observations| :: Sane(observations[i], r))
      && (forall i, j | 0 <= i < j < |observations| :: observations[i].ended <= observations[j].started)
  {
    var previousEnd: Option<int> := None;
    var i := 0;
    while i < |observations|
      invariant i <= |observations|
      invariant previousEnd == if i == 0 then None else Some(observations[i - 1].ended)
      invariant forall k | 0 <= k < i :: Sane(observations[k], r)
      invariant forall k, l | 0 <= k < l < i :: observations[k].ended <= observations[l].started
    {
      var o := observations[i];
      if o.started < r.started || o.ended > r.ended || o.started >= o.ended
         || (previousEnd.Some? && o.started < previousEnd.value)
         || o.numerator < 0 || o.denominator < 0 || o.numerator > o.denominator {
        return false;
      }
      previousEnd := Some(o.ended);
      i := i + 1;
    }
    return true;
  }

  function ExcludedReason(o: Observation, r: Request): Option<Excluded> {
    if o.denominator == 0 then Some(ZeroDenominator)
    else if o.denominator < r.minimum then Some(BelowMinimum)
    else if !o.complete then Some(IncompleteWindow)
    else None
  }

  /** `_evaluate`. */
  function Evaluate(o: Observation, r: Request): WindowResult
    requires Sane(o, r)
  {
    var excluded := ExcludedReason(o, r);
    if excluded.Some? then WindowResult(o, None, excluded, false)
    else
      var value := Rounded(o.numerator, o.denominator);
      WindowResult(o, Some(value), None, if r.comparator == GreaterThan then value > r.threshold else value >= r.threshold)
  }

  /** A hit is never reported on an excluded window; on the others a strict comparison is never a false hit
      and a weak one never misses, and the value is a ratio between zero and one. */
  lemma HitsAreSound(o: Observation, r: Request)
    requires Sane(o, r)
    ensures var w := Evaluate(o, r);
      && (w.value.Some? <==> o.denominator > 0 && o.denominator >= r.minimum && o.complete)
      && (w.hit ==> w.excluded.None?)
      && (w.value.Some? ==> w.value.value <= MILLION)
      && (w.hit && r.comparator == GreaterThan ==> o.numerator * MILLION > o.denominator * r.threshold)
      && (w.excluded.None? && r.comparator == GreaterOrEqual && o.numerator * MILLION >= o.denominator * r.threshold ==> w.hit)
  {
    hide Rounded;
    if ExcludedReason(o, r).None? {
      RoundedInUnit(o.numerator, o.denominator);
      GreaterThanExact(o.numerator, o.denominator, r.threshold);
      GreaterOrEqualExact(o.numerator, o.denominator, r.threshold);
    }
  }

  /** A window result, exactly: which exclusion applies, the nearest millionth otherwise, and a hit exactly where the
      true ratio passes the threshold as far as the rounding to the even millionth shows. */
  lemma EvaluatesExactly(o: Observation, r: Request)
    requires Sane(o, r)
    ensures var w := Evaluate(o, r);
      && w.observation == o
      && (w.excluded == Some(ZeroDenominator) <==> o.denominator == 0)
      && (w.excluded == Some(BelowMinimum) <==> 0 < o.denominator < r.minimum)
      && (w.excluded == Some(IncompleteWindow) <==> 0 < o.denominator && r.minimum <= o.denominator && !o.complete)
      && (w.value.Some? <==> w.excluded.None?)
      && (w.excluded.None? ==> Nearest(o.numerator * MILLION, o.denominator, w.value.value))
      && (w.hit <==> w.excluded.None? && PassesThreshold(o.numerator, o.denominator, r))
  {
    if ExcludedReason(o, r).None? {
      RoundedNearest(o.numerator, o.denominator);
      GreaterThanExact(o.numerator, o.denominator, r.threshold);
      GreaterOrEqualExact(o.numerator, o.denominator, r.threshold);
    }
    hide Rounded;
  }

  /** "Greater than" passes more than half a millionth above the threshold, and exactly half above an odd one;
      "greater or equal" passes down to half a millionth below the threshold, at exactly half for an even one. */
  predicate PassesThreshold(n: nat, d: nat, r: Request) {
    match r.comparator
    case GreaterThan =>
      2 * (n * 1000000) > 2 * (d * r.threshold) + d || (2 * (n * 1000000) == 2 * (d * r.threshold) + d && r.threshold % 2 == 1)
    case GreaterOrEqual =>
      2 * (d * r.threshold) < 2 * (n * 1000000) + d || (2 * (d * r.threshold) == 2 * (n * 1000000) + d && r.threshold % 2 == 0)
  }

  /** A window is sane exactly if it lies in the rule's range, does not end before it starts, and counts part of a
      whole. */
  lemma SaneExactly(o: Observation, r: Request)
    ensures Sane(o, r) <==>
      r.started <= o.started && o.started < o.ended && o.ended <= r.ended && 0 <= o.numerator && o.numerator <= o.denominator
  {
  }

  // ---- snapshot identity ----

  /** The projection whose hash names a snapshot: instants to the second, the threshold to four places. */
  function RuleSpec(r: Request): Request {
    r.(started := CanonicalJson.WholeSecond(r.started), ended := CanonicalJson.WholeSecond(r.ended),
       threshold := Quantized(r.threshold))
  }

  datatype Snapshot = Snapshot(request: Request, windows: seq<WindowResult>)

  /** What a registry holds after snapshots were filed in this order: one entry for each name. */
  function Filed(added: seq<Snapshot>): map<Request, Snapshot> {
    if added == [] then map[]
    else
      var last := added[|added| - 1];
      Filed(added[..|added| - 1])[RuleSpec(last.request) := last]
  }

  /** The k-th snapshot is the last one of its name. */
  predicate LastOfName(added: seq<Snapshot>, k: nat, name: Request) {
    && k < |added| && RuleSpec(added[k].request) == name
    && forall l | k < l < |added| :: RuleSpec(added[l].request) != name
  }

  /** A name resolves to nothing iff no snapshot was filed under it, and otherwise to the last one that was. */
  lemma {:induction false} ResolvesToLast(added: seq<Snapshot>, name: Request) returns (k: nat)
    ensures name in Filed(added) <==> exists l | 0 <= l < |added| :: RuleSpec(added[l].request) == name
    ensures name in Filed(added) ==> LastOfName(added, k, name) && Filed(added)[name] == added[k]
  {
    hide RuleSpec;
    k := 0;
    if added != [] {
      var n := |added| - 1;
      if RuleSpec(added[n].request) == name {
        k := n;
      } else {
        var before := added[..n];
        k := ResolvesToLast(before, name);
        forall l | 0 <= l < n
          ensures added[l] == before[l]
        {
        }
      }
    }
  }

  class InMemoryBacktestRegistry {
    var snapshots: map<Request, Snapshot>

    /** Files the given snapshots in order. */
    constructor (given: seq<Snapshot>)
      ensures snapshots == Filed(given)
    {
      snapshots := map[];
      new;
      for k := 0 to |given|
        invariant snapshots == Filed(given[..k])
      {
        assert given[..k + 1][..k] == given[..k];
        snapshots := snapshots[RuleSpec(given[k].request) := given[k]];
      }
      assert given[..|given|] == given;
    }

    /** What `Resolve` answers for a name. */
    function Resolved(name: Request): Option<Snapshot>
      reads this
    {
      if name in snapshots then Some(snapshots[name]) else None
    }

    /** The last snapshot filed under a name is what the name resolves to; every other name resolves to what
        it did before. */
    method Add(snapshot: Snapshot)
      modifies this
      ensures forall name :: Resolved(name) == if name == RuleSpec(snapshot.request) then Some(snapshot) else old(Resolved(name))
      ensures forall added :: old(snapshots) == Filed(added) ==> snapshots == Filed(added + [snapshot])
    {
      snapshots := snapshots[RuleSpec(snapshot.request) := snapshot];
      forall added | old(snapshots) == Filed(added)
        ensures snapshots == Filed(added + [snapshot])
      {
        assert (added + [snapshot])[..|added|] == added;
      }
    }

    method Resolve(name: Request) returns (snapshot: Option<Snapshot>)
      ensures snapshot == Resolved(name)
    {
      snapshot := if name in snapshots then Some(snapshots[name]) else None;
    }
  }

  // ---- what a name determines ----

  /** What a backtest says of one window: nothing when the window is refused. */
  function Answer(o: Observation, r: Request): Option<WindowResult> {
    if Sane(o, r) then Some(Evaluate(o, r)) else None
  }

  predicate Admissible(r: Request) {
    r.started < r.ended && r.threshold <= MILLION
  }

  /** A ratio of x millionths, written over a denominator that meets the minimum. */
  function Witness(r: Request, started: int, ended: int, x: nat): Observation {
    Observation(started, ended, x * (r.minimum + 1), MILLION * (r.minimum + 1), true)
  }

  lemma WitnessMeasures(r: Request, started: int, ended: int, x: nat)
    requires r.started <= started < ended <= r.ended && x <= MILLION
    ensures Sane(Witness(r, started, ended, x), r)
    ensures Evaluate(Witness(r, started, ended, x), r).value == Some(x)
  {
    var k := r.minimum + 1;
    var o := Witness(r, started, ended, x);
    Scale(x, MILLION, k);
    assert x * k * MILLION == x * (MILLION * k);
    RoundedNearest(x * k, MILLION * k);
    assert MILLION * k * x == x * k * MILLION;
    NearestUnique(x * k * MILLION, MILLION * k, x, Rounded(x * k, MILLION * k));
    hide Rounded;
    assert o.denominator > 0 && o.denominator >= r.minimum;
  }

  /** Two rules of one name agree on every window of both ranges if and only if they have one threshold:
      thresholds are compared to six places and named to four. */
  lemma SameHitsExactly(s: Request, t: Request)
    requires RuleSpec(s) == RuleSpec(t) && Admissible(s) && Admissible(t)
    requires s.started < t.ended && t.started < s.ended
    ensures (forall o | Sane(o, s) && Sane(o, t) :: Evaluate(o, s).hit == Evaluate(o, t).hit) <==> s.threshold == t.threshold
  {
    hide Rounded;
    if s.threshold != t.threshold {
      var low, high := s.threshold, t.threshold;
      if t.threshold < s.threshold {
        low, high := t.threshold, s.threshold;
      }
      var x := if s.comparator == GreaterThan then high else low;
      var started := if s.started < t.started then t.started else s.started;
      var ended := if s.ended < t.ended then s.ended else t.ended;
      var o := Witness(s, started, ended, x);
      assert o == Witness(t, started, ended, x);
      WitnessMeasures(s, started, ended, x);
      WitnessMeasures(t, started, ended, x);
      assert Evaluate(o, s).hit != Evaluate(o, t).hit;
    }
  }

  /** Two rules of one name answer every window alike if and only if they are one rule: what the name leaves
      out, fractions of a second and places beyond the fourth, shows in some answer. */
  lemma SameAnswersExactly(s: Request, t: Request)
    requires RuleSpec(s) == RuleSpec(t) && Admissible(s) && Admissible(t)
    ensures (forall o :: Answer(o, s) == Answer(o, t)) <==> s == t
  {
    hide Rounded;
    if forall o :: Answer(o, s) == Answer(o, t) {
      var own, other := Observation(s.started, s.ended, 0, 0, true), Observation(t.started, t.ended, 0, 0, true);
      assert Answer(own, s).Some? && Answer(own, t).Some? && Answer(other, t).Some? && Answer(other, s).Some?;
      forall o | Sane(o, s) && Sane(o, t)
        ensures Evaluate(o, s).hit == Evaluate(o, t).hit
      {
        assert Answer(o, s) == Answer(o, t);
      }
      hide Answer, Evaluate;
      SameHitsExactly(s, t);
      SameFields(s, t);
    }
  }

  lemma SameFields(s: Request, t: Request)
    requires RuleSpec(s) == RuleSpec(t) && s.started == t.started && s.ended == t.ended && s.threshold == t.threshold
    ensures s == t
  {
    assert s == RuleSpec(s).(started := s.started, ended := s.ended, threshold := s.threshold);
    assert t == RuleSpec(t).(started := t.started, ended := t.ended, threshold := t.threshold);
  }

  /** The rules whose name keeps everything: whole seconds and at most four places. Among them a name
      determines the rule, and so every answer. */
  predicate Nameable(r: Request) {
    r.started % MILLION == 0 && r.ended % MILLION == 0 && r.threshold % 100 == 0
  }

  lemma NameDetermines(s: Request, t: Request)
    requires RuleSpec(s) == RuleSpec(t) && Nameable(s) && Nameable(t)
    ensures s == t
  {
    assert RuleSpec(s).threshold == s.threshold / 100 && RuleSpec(t).threshold == t.threshold / 100;
    assert RuleSpec(s).started == RuleSpec(t).started && RuleSpec(s).ended == RuleSpec(t).ended;
    SameFields(s, t);
  }

  /** The class cannot be larger: every other rule shares its name with one of the class. */
  lemma OthersAreShared(r: Request) returns (t: Request)
    requires !Nameable(r)
    ensures RuleSpec(t) == RuleSpec(r) && Nameable(t) && t != r
  {
    t := r.(started := r.started / MILLION * MILLION, ended := r.ended / MILLION * MILLION,
            threshold := Quantized(r.threshold) * 100);
  }

  /** Two rules with one name can disagree on the same window. */
  lemma OneNameTwoAnswers(r: Request) returns (s: Request, t: Request, o: Observation)
    requires r.started < r.ended && r.minimum <= 1000000
    ensures RuleSpec(s) == RuleSpec(t) && Sane(o, s) && Sane(o, t) && Evaluate(o, s).hit != Evaluate(o, t).hit
    ensures s == r.(threshold := s.threshold, comparator := s.comparator)
    ensures t == r.(threshold := t.threshold, comparator := t.comparator)
  {
    s := r.(threshold := 120001, comparator := GreaterThan);
    t := r.(threshold := 120049, comparator := GreaterThan);
    o := Observation(r.started, r.ended, 120010, 1000000, true);
    assert 120010 * MILLION / 1000000 == 120010 && 120010 * MILLION % 1000000 == 0;
    assert Rounded(120010, 1000000) == 120010;
  }
}
