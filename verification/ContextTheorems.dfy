/** Trimming is exact: what each stage keeps, when it fires, and when the budget error is raised. */
module ContextTheorems {
  import opened Common
  import opened ModelContracts
  import opened ContextBuilder

  predicate Fits(e: Estimator, h: seq<Group>, ev: seq<Datum>, p: Profile) {
    e(h, ev, false) <= p.limit
  }

  // ---- stage one ----

  /** The retained history is the longest suffix that fits, never below the minimum unless the input was. */
  predicate IsCut(e: Estimator, h: seq<Group>, ev: seq<Datum>, p: Profile, k: nat) {
    && k <= |h|
    && (Fits(e, h[k..], ev, p) || |h| - k <= p.minimumRecent)
    && forall m | 0 <= m < k :: !Fits(e, h[m..], ev, p) && |h| - m > p.minimumRecent
  }

  lemma {:induction false} CutExact(e: Estimator, h: seq<Group>, ev: seq<Datum>, p: Profile, k: nat)
    ensures k == Cut(e, h, ev, p) <==> IsCut(e, h, ev, p, k)
  {
    CutIsCut(e, h, ev, p);
    if IsCut(e, h, ev, p, k) {
      var c := Cut(e, h, ev, p);
      hide Cut;
      if c < k {
        NotYetCut(e, h, ev, p, k, c);
      } else if k < c {
        NotYetCut(e, h, ev, p, c, k);
      }
    }
  }

  lemma NotYetCut(e: Estimator, h: seq<Group>, ev: seq<Datum>, p: Profile, k: nat, m: nat)
    requires IsCut(e, h, ev, p, k) && m < k
    ensures !IsCut(e, h, ev, p, m)
  {
    assert !Fits(e, h[m..], ev, p);
  }

  lemma {:induction false} CutIsCut(e: Estimator, h: seq<Group>, ev: seq<Datum>, p: Profile)
    ensures IsCut(e, h, ev, p, Cut(e, h, ev, p))
  {
    if !Fits(e, h, ev, p) && |h| > p.minimumRecent {
      var c := Cut(e, h[1..], ev, p);
      CutIsCut(e, h[1..], ev, p);
      assert Cut(e, h, ev, p) == c + 1;
      hide Cut;
      assert h[c + 1..] == h[1..][c..];
      forall m | 0 <= m < c + 1
        ensures !Fits(e, h[m..], ev, p) && |h| - m > p.minimumRecent
      {
        if m == 0 {
          assert h[0..] == h;
        } else {
          assert h[m..] == h[1..][m - 1..];
        }
      }
    } else {
      assert h[0..] == h;
    }
  }

  // ---- stage two ----

  predicate Before(a: (nat, nat), b: (nat, nat)) {
    a.0 < b.0 || (a.0 == b.0 && a.1 < b.1)
  }

  predicate IsRaw(h: seq<Group>, q: (nat, nat)) {
    Position(h, q) && Results(h[q.0])[q.1].raw
  }

  lemma {:induction false} RawInExact(g: nat, results: seq<ToolResult>, n: nat)
    requires n <= |results|
    ensures forall m: nat :: (g, m) in RawIn(g, results, n) <==> m < n && results[m].raw
    ensures forall i, j | 0 <= i < j < |RawIn(g, results, n)| :: Before(RawIn(g, results, n)[i], RawIn(g, results, n)[j])
  {
    RawInGroup(g, results, n);
    if n > 0 {
      RawInExact(g, results, n - 1);
      RawInGroup(g, results, n - 1);
      var rest := RawIn(g, results, n - 1);
      assert forall q <- rest :: Before(q, (g, n - 1));
    }
  }

  lemma {:induction false} RawBeforeExact(h: seq<Group>, f: nat)
    requires f <= |h|
    ensures forall q: (nat, nat) :: q in RawBefore(h, f) <==> q.0 < f && IsRaw(h, q)
    ensures forall i, j | 0 <= i < j < |RawBefore(h, f)| :: Before(RawBefore(h, f)[i], RawBefore(h, f)[j])
  {
    if f > 0 {
      RawBeforeExact(h, f - 1);
      RawInExact(f - 1, Results(h[f - 1]), |Results(h[f - 1])|);
      RawInGroup(f - 1, Results(h[f - 1]), |Results(h[f - 1])|);
      var rest, more := RawBefore(h, f - 1), RawIn(f - 1, Results(h[f - 1]), |Results(h[f - 1])|);
      assert RawBefore(h, f) == rest + more;
      hide RawBefore, RawIn;
      forall q: (nat, nat)
        ensures q in rest + more <==> q.0 < f && IsRaw(h, q)
      {
        if q in more {
          assert q == (f - 1, q.1);
        }
        if q.0 == f - 1 && IsRaw(h, q) {
          assert q == (f - 1, q.1);
        }
      }
      AppendedInOrder(rest, more, f - 1);
    }
  }

  lemma AppendedInOrder(rest: seq<(nat, nat)>, more: seq<(nat, nat)>, g: nat)
    requires forall q <- rest :: q.0 < g
    requires forall q <- more :: q.0 == g
    requires forall i, j | 0 <= i < j < |rest| :: Before(rest[i], rest[j])
    requires forall i, j | 0 <= i < j < |more| :: Before(more[i], more[j])
    ensures forall i, j | 0 <= i < j < |rest + more| :: Before((rest + more)[i], (rest + more)[j])
  {
    forall i, j | 0 <= i < j < |rest + more|
      ensures Before((rest + more)[i], (rest + more)[j])
    {
      if i < |rest| && j >= |rest| {
        assert rest[i] in rest && more[j - |rest|] in more;
      }
    }
  }

  /** The raw results listed are all of them, in order. */
  lemma RawsExact(h: seq<Group>)
    ensures forall q: (nat, nat) :: q in Raws(h) <==> IsRaw(h, q)
    ensures forall i, j | 0 <= i < j < |Raws(h)| :: Before(Raws(h)[i], Raws(h)[j])
  {
    RawBeforeExact(h, |h|);
    hide RawBefore;
  }

  /** A result is summarised when it is one of the first `j` raw ones; otherwise it is as it was, and
      nothing else of any group changes. */
  lemma FirstSummarisedExact(h: seq<Group>, j: nat, g: nat, n: nat)
    requires j <= |Raws(h)| && g < |h| && n < |Results(h[g])|
    ensures |FirstSummarised(h, j)| == |h| && SameFrame(h[g], FirstSummarised(h, j)[g])
    ensures n < |Results(FirstSummarised(h, j)[g])|
    ensures Results(FirstSummarised(h, j)[g])[n]
         == if (g, n) in Raws(h)[..j] then Summarised(Results(h[g])[n]) else Results(h[g])[n]
  {
    SummariseAllFrame(h, Raws(h)[..j]);
    SummariseAllAt(h, Raws(h)[..j], g, n);
  }

  /** The shortest prefix of the raw results whose summaries make the request fit, or all of them. */
  predicate IsSqueeze(e: Estimator, h: seq<Group>, ev: seq<Datum>, p: Profile, j: nat) {
    && j <= |Raws(h)|
    && (Fits(e, FirstSummarised(h, j), ev, p) || j == |Raws(h)|)
    && forall m: nat | m < j :: !Fits(e, FirstSummarised(h, m), ev, p)
  }

  lemma {:induction false} SqueezeSearch(e: Estimator, h: seq<Group>, ev: seq<Datum>, p: Profile, i: nat)
    requires i <= |Raws(h)| && forall m: nat | m < i :: !Fits(e, FirstSummarised(h, m), ev, p)
    ensures IsSqueeze(e, h, ev, p, Squeeze(e, h, ev, p.limit, i))
    decreases |Raws(h)| - i
  {
    hide FirstSummarised, RawBefore;
    if !Fits(e, FirstSummarised(h, i), ev, p) && i < |Raws(h)| {
      SqueezeSearch(e, h, ev, p, i + 1);
    }
  }

  lemma SqueezeExact(e: Estimator, h: seq<Group>, ev: seq<Datum>, p: Profile, j: nat)
    ensures j == Squeeze(e, h, ev, p.limit, 0) <==> IsSqueeze(e, h, ev, p, j)
  {
    SqueezeSearch(e, h, ev, p, 0);
    if IsSqueeze(e, h, ev, p, j) {
      SqueezeIs(e, h, ev, p.limit, 0, j);
    }
  }

  // ---- stage three ----

  lemma {:induction false} KeptPartition(ev: seq<Datum>, n: nat)
    requires n <= |ev|
    ensures multiset(Kept(ev, n)) + multiset(Dropped(ev, n)) == multiset(ev[..n])
  {
    hide Superseded;
    if n > 0 {
      KeptPartition(ev, n - 1);
      assert ev[..n] == ev[..n - 1] + [ev[n - 1]];
    } else {
      assert ev[..0] == [];
    }
  }

  /** Where the kept items stand in the input: increasing positions, exactly those not superseded. */
  function KeptAt(ev: seq<Datum>, n: nat): seq<nat>
    requires n <= |ev|
  {
    if n == 0 then [] else KeptAt(ev, n - 1) + if Superseded(ev, n - 1) then [] else [n - 1]
  }

  /** The evidence stage keeps exactly the last item of each identity, in order, and drops the rest. */
  lemma {:induction false} KeptExact(ev: seq<Datum>, n: nat)
    requires n <= |ev|
    ensures forall i: nat :: i in KeptAt(ev, n) <==> i < n && !Superseded(ev, i)
    ensures Increasing(KeptAt(ev, n))
    ensures |Kept(ev, n)| == |KeptAt(ev, n)|
    ensures forall m | 0 <= m < |Kept(ev, n)| :: KeptAt(ev, n)[m] < n && Kept(ev, n)[m] == ev[KeptAt(ev, n)[m]]
  {
    if n > 0 {
      KeptExact(ev, n - 1);
      hide Superseded;
      var rest := KeptAt(ev, n - 1);
      assert forall i: nat :: i in rest ==> i < n - 1;
    }
  }

  /** Where the dropped items stand in the input. */
  function DroppedAt(ev: seq<Datum>, n: nat): seq<nat>
    requires n <= |ev|
  {
    if n == 0 then [] else DroppedAt(ev, n - 1) + if Superseded(ev, n - 1) then [n - 1] else []
  }

  /** It drops exactly the items that a later one of their identity follows, in order. */
  lemma {:induction false} DroppedExact(ev: seq<Datum>, n: nat)
    requires n <= |ev|
    ensures forall i: nat :: i in DroppedAt(ev, n) <==> i < n && Superseded(ev, i)
    ensures Increasing(DroppedAt(ev, n))
    ensures |Dropped(ev, n)| == |DroppedAt(ev, n)|
    ensures forall m | 0 <= m < |Dropped(ev, n)| :: DroppedAt(ev, n)[m] < n && Dropped(ev, n)[m] == ev[DroppedAt(ev, n)[m]]
  {
    if n > 0 {
      DroppedExact(ev, n - 1);
      hide Superseded;
      var rest := DroppedAt(ev, n - 1);
      assert forall i: nat :: i in rest ==> i < n - 1;
    }
  }

  /** Every identity of the evidence survives, once. */
  lemma OnePerIdentity(ev: seq<Datum>, d: Datum)
    requires d in ev
    ensures exists m | 0 <= m < |Kept(ev, |ev|)| :: SameIdentity(Kept(ev, |ev|)[m], d)
    ensures forall i, j | 0 <= i < j < |Kept(ev, |ev|)| :: !SameIdentity(Kept(ev, |ev|)[i], Kept(ev, |ev|)[j])
  {
    KeptExact(ev, |ev|);
    var i := LastOf(ev, d);
    assert i in KeptAt(ev, |ev|);
    var m :| 0 <= m < |KeptAt(ev, |ev|)| && KeptAt(ev, |ev|)[m] == i;
    assert SameIdentity(Kept(ev, |ev|)[m], d);
    hide Kept, KeptAt;
    forall i, j | 0 <= i < j < |Kept(ev, |ev|)|
      ensures !SameIdentity(Kept(ev, |ev|)[i], Kept(ev, |ev|)[j])
    {
      var a, b := KeptAt(ev, |ev|)[i], KeptAt(ev, |ev|)[j];
      assert a in KeptAt(ev, |ev|);
      assert !Superseded(ev, a);
    }
  }

  lemma {:induction false} LastOf(ev: seq<Datum>, d: Datum) returns (i: nat)
    requires exists m | 0 <= m < |ev| :: SameIdentity(ev[m], d)
    ensures i < |ev| && SameIdentity(ev[i], d) && !Superseded(ev, i)
  {
    i := |ev| - 1;
    while !SameIdentity(ev[i], d)
      invariant i < |ev|
      invariant exists m | 0 <= m <= i :: SameIdentity(ev[m], d)
      invariant forall m | i < m < |ev| :: !SameIdentity(ev[m], d)
      decreases i
    {
      i := i - 1;
    }
  }

  // ---- the stages together ----

  function LastCut(h: seq<Group>, p: Profile): nat {
    if |h| > p.minimumRecent then |h| - p.minimumRecent else 0
  }

  /** Nothing any stage can try fits. */
  predicate Exhausted(e: Estimator, h: seq<Group>, ev: seq<Datum>, p: Profile) {
    var recent := h[LastCut(h, p)..];
    && (forall m: nat | m <= LastCut(h, p) :: !Fits(e, h[m..], ev, p))
    && (forall j: nat | j <= |Raws(recent)| :: !Fits(e, FirstSummarised(recent, j), ev, p))
    && !Fits(e, FirstSummarised(recent, |Raws(recent)|), Kept(ev, |ev|), p)
  }

  lemma CutWhenOver(e: Estimator, h: seq<Group>, ev: seq<Datum>, p: Profile)
    requires !Fits(e, h[Cut(e, h, ev, p)..], ev, p)
    ensures Cut(e, h, ev, p) == LastCut(h, p)
    ensures forall m: nat | m <= LastCut(h, p) :: !Fits(e, h[m..], ev, p)
  {
    CutIsCut(e, h, ev, p);
    hide Cut;
    CutKeepsMinimum(e, h, ev, p, Cut(e, h, ev, p));
  }

  lemma CutKeepsMinimum(e: Estimator, h: seq<Group>, ev: seq<Datum>, p: Profile, k: nat)
    requires IsCut(e, h, ev, p, k)
    ensures k <= LastCut(h, p)
  {
    assert k > 0 ==> !Fits(e, h[k - 1..], ev, p);
  }

  /** A later stage fires only when the earlier one is exhausted: results are summarised only over the
      minimal history, and evidence is dropped only when every raw result is a summary already. */
  lemma StagesInOrder(e: Estimator, h: seq<Group>, ev: seq<Datum>, p: Profile)
    ensures var t := Trimmed(e, h, ev, p);
      && t.dropped <= |h| && t.summarised <= |Raws(h[t.dropped..])|
      && (t.summarised > 0 || t.deduplicated ==>
            t.dropped == LastCut(h, p) && forall m: nat | m <= LastCut(h, p) :: !Fits(e, h[m..], ev, p))
      && (t.deduplicated ==> t.summarised == |Raws(h[t.dropped..])|)
      && (t.deduplicated ==>
            forall j: nat | j <= t.summarised :: !Fits(e, FirstSummarised(h[t.dropped..], j), ev, p))
      && (!t.deduplicated ==> t.after <= p.limit && t.evidence == ev)
      && (t.deduplicated ==> t.evidence == Kept(ev, |ev|))
  {
    var k := Cut(e, h, ev, p);
    var recent := h[k..];
    var j := Squeeze(e, recent, ev, p.limit, 0);
    SqueezeSearch(e, recent, ev, p, 0);
    assert FirstSummarised(recent, 0) == recent;
    hide Raws, FirstSummarised, Squeeze, Cut;
    assert IsSqueeze(e, recent, ev, p, j);
    if !Fits(e, recent, ev, p) {
      CutWhenOver(e, h, ev, p);
    }
  }

  /** The budget error is raised exactly when all three stages are exhausted. */
  lemma ErrorExact(e: Estimator, h: seq<Group>, ev: seq<Datum>, p: Profile)
    ensures Built(e, h, ev, p) == Err(MandatoryOverBudget) <==> Exhausted(e, h, ev, p)
  {
    StagesInOrder(e, h, ev, p);
    var t := Trimmed(e, h, ev, p);
    var recent := h[t.dropped..];
    assert t.history == FirstSummarised(recent, t.summarised) && t.after == e(t.history, t.evidence, false);
    assert recent == FirstSummarised(recent, 0);
    hide Trimmed, Raws, FirstSummarised, Kept, SummaryOf;
    if Exhausted(e, h, ev, p) {
      ExhaustedTrim(e, h, ev, p);
    }
  }

  lemma ExhaustedTrim(e: Estimator, h: seq<Group>, ev: seq<Datum>, p: Profile)
    requires Exhausted(e, h, ev, p)
    ensures Trimmed(e, h, ev, p).after > p.limit
  {
    CutIsCut(e, h, ev, p);
    var k := Cut(e, h, ev, p);
    hide Cut;
    CutKeepsMinimum(e, h, ev, p, k);
    assert !Fits(e, h[k..], ev, p);
    assert k == LastCut(h, p);
    SqueezeSearch(e, h[k..], ev, p, 0);
    hide Squeeze, FirstSummarised, Raws;
    assert IsSqueeze(e, h[k..], ev, p, Squeeze(e, h[k..], ev, p.limit, 0));
  }

  /** The groups removed and those kept are the input in two parts, each kept one in its frame. */
  lemma GroupsAccounted(e: Estimator, h: seq<Group>, ev: seq<Datum>, p: Profile)
    requires Built(e, h, ev, p).Ok?
    ensures var b := Built(e, h, ev, p).value;
      && |b.trimming.removedGroups| + |b.history| == |h| == b.trimming.originalGroups
      && b.trimming.retainedGroups == |b.history|
      && b.trimming.removedGroups == h[..|h| - |b.history|]
      && (forall i | 0 <= i < |b.history| :: SameFrame(h[|h| - |b.history| + i], b.history[i]))
      && b.trimming.after == e(b.history, b.evidence, false) == e(b.history, b.evidence, true) <= p.limit
  {
    TrimmedFrames(e, h, ev, p);
    hide Trimmed, Raws, SameFrame, Fits, Kept, Dropped;
    StagesInOrder(e, h, ev, p);
  }

  /** What a bundle and its summary say of evidence and results, in terms of the three stages. */
  lemma BundleOf(e: Estimator, h: seq<Group>, ev: seq<Datum>, p: Profile)
    requires Built(e, h, ev, p).Ok?
    ensures var b, t := Built(e, h, ev, p).value, Trimmed(e, h, ev, p);
      && t.dropped <= |h| && |b.history| == |h| - t.dropped
      && (if t.deduplicated then b.evidence == Kept(ev, |ev|) && b.trimming.removedEvidence == DatumShas(Dropped(ev, |ev|))
          else b.evidence == ev && b.trimming.removedEvidence == [])
      && var recent := h[t.dropped..];
         && t.summarised <= |Raws(recent)| && b.history == FirstSummarised(recent, t.summarised)
         && b.trimming.compressedResults == Shas(recent, Raws(recent)[..t.summarised])
  {
    StagesInOrder(e, h, ev, p);
    TrimmedFrames(e, h, ev, p);
    var t := Trimmed(e, h, ev, p);
    assert t.history == FirstSummarised(h[t.dropped..], t.summarised);
    hide Trimmed, Raws, SameFrame, Fits, Kept, Dropped, FirstSummarised, Shas, DatumShas;
  }

  /** Two increasing lists share out the positions below `n`. */
  ghost predicate ShareOut(n: nat, kept: seq<nat>, removed: seq<nat>) {
    && Increasing(kept) && Increasing(removed) && |kept| + |removed| == n
    && forall i: nat :: (i in kept || i in removed <==> i < n) && !(i in kept && i in removed)
  }

  predicate ItemsAt(ev: seq<Datum>, items: seq<Datum>, at: seq<nat>) {
    && |items| == |at|
    && forall m | 0 <= m < |at| :: at[m] < |ev| && items[m] == ev[at[m]]
  }

  predicate ShasAt(ev: seq<Datum>, shas: seq<string>, at: seq<nat>) {
    && |shas| == |at|
    && forall m | 0 <= m < |at| :: at[m] < |ev| && shas[m] == ev[at[m]].sha
  }

  /** `kept` and `removed` share out the evidence; the first lists what a bundle carries, the second what its
      summary reports as removed, item by item. */
  ghost predicate SharedOut(ev: seq<Datum>, evidence: seq<Datum>, reported: seq<string>, kept: seq<nat>, removed: seq<nat>) {
    ShareOut(|ev|, kept, removed) && ItemsAt(ev, evidence, kept) && ShasAt(ev, reported, removed)
  }

  lemma KeptItems(ev: seq<Datum>)
    ensures ItemsAt(ev, Kept(ev, |ev|), KeptAt(ev, |ev|)) && Increasing(KeptAt(ev, |ev|))
    ensures forall i: nat :: i in KeptAt(ev, |ev|) <==> i < |ev| && !Superseded(ev, i)
  {
    KeptExact(ev, |ev|);
    hide Kept, KeptAt, Superseded;
  }

  lemma DroppedItems(ev: seq<Datum>)
    ensures ShasAt(ev, DatumShas(Dropped(ev, |ev|)), DroppedAt(ev, |ev|)) && Increasing(DroppedAt(ev, |ev|))
    ensures forall i: nat :: i in DroppedAt(ev, |ev|) <==> i < |ev| && Superseded(ev, i)
  {
    DroppedExact(ev, |ev|);
    hide Dropped, DroppedAt, Superseded;
  }

  /** A later item has the same kind, namespace and source. */
  predicate FollowedByLike(ev: seq<Datum>, i: nat)
    requires i < |ev|
  {
    exists j | i < j < |ev| ::
      ev[j].kind == ev[i].kind && ev[j].namespace == ev[i].namespace && ev[j].sourceRef == ev[i].sourceRef
  }

  lemma SupersededExactly(ev: seq<Datum>, i: nat)
    requires i < |ev|
    ensures Superseded(ev, i) <==> FollowedByLike(ev, i)
  {
    if j :| i < j < |ev| && SameIdentity(ev[i], ev[j]) {
      assert ev[j].kind == ev[i].kind && ev[j].namespace == ev[i].namespace && ev[j].sourceRef == ev[i].sourceRef;
    }
    if j :| i < j < |ev| && ev[j].kind == ev[i].kind && ev[j].namespace == ev[i].namespace && ev[j].sourceRef == ev[i].sourceRef {
      assert SameIdentity(ev[i], ev[j]);
    }
  }

  lemma SplitShares(n: nat, kept: seq<nat>, removed: seq<nat>)
    requires Increasing(kept) && Increasing(removed) && |kept| + |removed| == n
    requires forall i: nat :: i in removed ==> i < n
    requires forall i: nat :: i in kept <==> i < n && i !in removed
    ensures ShareOut(n, kept, removed)
  {
    hide Increasing;
  }

  lemma IdentityShares(ev: seq<Datum>)
    ensures ShareOut(|ev|, KeptAt(ev, |ev|), DroppedAt(ev, |ev|))
    ensures ItemsAt(ev, Kept(ev, |ev|), KeptAt(ev, |ev|)) && ShasAt(ev, DatumShas(Dropped(ev, |ev|)), DroppedAt(ev, |ev|))
    ensures forall i: nat :: i in DroppedAt(ev, |ev|) <==> i < |ev| && Superseded(ev, i)
  {
    KeptItems(ev);
    DroppedItems(ev);
    EvidenceSizes(ev);
    var n, kept, removed := |ev|, KeptAt(ev, |ev|), DroppedAt(ev, |ev|);
    assert |kept| == |Kept(ev, n)| && |removed| == |DatumShas(Dropped(ev, n))| == |Dropped(ev, n)|;
    hide Kept, Dropped, KeptAt, DroppedAt, Superseded, Increasing, ItemsAt, ShasAt, DatumShas, ShareOut;
    SplitShares(n, kept, removed);
  }

  lemma SharedByIdentity(ev: seq<Datum>)
    ensures SharedOut(ev, Kept(ev, |ev|), DatumShas(Dropped(ev, |ev|)), KeptAt(ev, |ev|), DroppedAt(ev, |ev|))
    ensures forall i: nat | i < |ev| :: i in DroppedAt(ev, |ev|) <==> FollowedByLike(ev, i)
  {
    IdentityShares(ev);
    hide Kept, Dropped, KeptAt, DroppedAt, Superseded, FollowedByLike, ItemsAt, ShasAt, DatumShas, ShareOut;
    forall i: nat | i < |ev|
      ensures i in DroppedAt(ev, |ev|) <==> FollowedByLike(ev, i)
    {
      SupersededExactly(ev, i);
    }
  }

  function Positions(n: nat): seq<nat> {
    seq(n, i => i)
  }

  lemma SharedWhole(ev: seq<Datum>)
    ensures SharedOut(ev, ev, [], Positions(|ev|), [])
  {
    forall i: nat
      ensures i in Positions(|ev|) <==> i < |ev|
    {
      assert i < |ev| ==> Positions(|ev|)[i] == i;
    }
  }

  /** Every item of evidence is kept or reported as removed, at its own place; removed are none, or exactly
      those that a later item of their identity follows. */
  lemma EvidenceAccounted(e: Estimator, h: seq<Group>, ev: seq<Datum>, p: Profile) returns (kept: seq<nat>, removed: seq<nat>)
    requires Built(e, h, ev, p).Ok?
    ensures var b := Built(e, h, ev, p).value; SharedOut(ev, b.evidence, b.trimming.removedEvidence, kept, removed)
    ensures removed == [] || forall i: nat | i < |ev| :: i in removed <==> FollowedByLike(ev, i)
  {
    BundleOf(e, h, ev, p);
    SharedByIdentity(ev);
    SharedWhole(ev);
    hide *;
    if Trimmed(e, h, ev, p).deduplicated {
      kept, removed := KeptAt(ev, |ev|), DroppedAt(ev, |ev|);
    } else {
      kept, removed := Positions(|ev|), [];
    }
  }

  /** Exactly the results at these positions were made summaries. */
  ghost predicate SummarisedAt(h: seq<Group>, after: seq<Group>, at: seq<(nat, nat)>) {
    && |after| == |h|
    && forall g: nat, n: nat :: Position(h, (g, n)) ==>
         && Position(after, (g, n))
         && Results(after[g])[n] == if (g, n) in at then Summarised(Results(h[g])[n]) else Results(h[g])[n]
  }

  /** A summarised result keeps its call, name and public summary, and in place of its content carries its digest, its
      summary and its error class. */
  lemma SummaryKeeps(r: ToolResult)
    ensures var s := Summarised(r);
      && s.content == Digested(r.sha, r.summary, r.errorClass) && !s.raw
      && s.callId == r.callId && s.name == r.name && s.summary == r.summary && s.sha == r.sha && s.errorClass == r.errorClass
  {
  }

  /** In a bundle the digest at each summarised place is the one reported there, with the summary and the error class
      of the result it stands for. */
  lemma DigestsMatch(h: seq<Group>, after: seq<Group>, at: seq<(nat, nat)>, i: nat)
    requires at <= Raws(h) && SummarisedAt(h, after, at) && i < |at|
    ensures Position(h, at[i]) && Position(after, at[i]) && Results(h[at[i].0])[at[i].1].raw
    ensures var (g, n) := at[i];
      var result, was := Results(after[g])[n], Results(h[g])[n];
      && result.content == Digested(Shas(h, at)[i], was.summary, was.errorClass) && !result.raw
      && result.callId == was.callId && result.name == was.name
  {
    RawsExact(h);
    assert at[i] in Raws(h) by {
      assert Raws(h)[i] == at[i];
    }
    assert at[i] in at;
    hide Raws;
    SummaryKeeps(Results(h[at[i].0])[at[i].1]);
  }

  lemma SummarisedExactly(h: seq<Group>, j: nat)
    requires j <= |Raws(h)|
    ensures SummarisedAt(h, FirstSummarised(h, j), Raws(h)[..j])
  {
    SummariseAllFrame(h, Raws(h)[..j]);
    assert |FirstSummarised(h, j)| == |h|;
    hide Raws, FirstSummarised, SameFrame, Results, Summarised;
    forall g: nat, n: nat | Position(h, (g, n))
      ensures Position(FirstSummarised(h, j), (g, n))
      ensures Results(FirstSummarised(h, j)[g])[n]
           == if (g, n) in Raws(h)[..j] then Summarised(Results(h[g])[n]) else Results(h[g])[n]
    {
      FirstSummarisedExact(h, j, g, n);
    }
  }

  /** The digests reported as compressed are those of the first raw results of the retained groups, in order,
      and exactly these results are summaries in the bundle where they were raw in the input. */
  lemma ResultsAccounted(e: Estimator, h: seq<Group>, ev: seq<Datum>, p: Profile) returns (at: seq<(nat, nat)>)
    requires Built(e, h, ev, p).Ok?
    ensures var b := Built(e, h, ev, p).value;
      && |b.history| <= |h|
      && var recent := h[|h| - |b.history|..];
         at <= Raws(recent) && b.trimming.compressedResults == Shas(recent, at) && SummarisedAt(recent, b.history, at)
  {
    BundleOf(e, h, ev, p);
    hide *;
    var t := Trimmed(e, h, ev, p);
    var recent := h[t.dropped..];
    assert |h| - |Built(e, h, ev, p).value.history| == t.dropped;
    at := Raws(recent)[..t.summarised];
    SummarisedExactly(recent, t.summarised);
  }

  /** Kept plus removed accounts for every group, every result and every item of evidence. */
  lemma NothingUnaccounted(e: Estimator, h: seq<Group>, ev: seq<Datum>, p: Profile)
      returns (kept: seq<nat>, removed: seq<nat>, at: seq<(nat, nat)>)
    requires Built(e, h, ev, p).Ok?
    ensures removed == [] || forall i: nat | i < |ev| :: i in removed <==> FollowedByLike(ev, i)
    ensures var b := Built(e, h, ev, p).value;
      && |b.trimming.removedGroups| + |b.history| == |h| == b.trimming.originalGroups
      && b.trimming.removedGroups == h[..|h| - |b.history|]
      && (forall i | 0 <= i < |b.history| :: SameFrame(h[|h| - |b.history| + i], b.history[i]))
      && SharedOut(ev, b.evidence, b.trimming.removedEvidence, kept, removed)
      && var recent := h[|h| - |b.history|..];
         at <= Raws(recent) && b.trimming.compressedResults == Shas(recent, at) && SummarisedAt(recent, b.history, at)
  {
    hide *;
    GroupsAccounted(e, h, ev, p);
    kept, removed := EvidenceAccounted(e, h, ev, p);
    at := ResultsAccounted(e, h, ev, p);
  }

  lemma TrimmedFrames(e: Estimator, h: seq<Group>, ev: seq<Datum>, p: Profile)
    ensures var t := Trimmed(e, h, ev, p);
      && t.dropped <= |h| && |t.history| == |h| - t.dropped && t.after == e(t.history, t.evidence, false)
      && forall i | 0 <= i < |t.history| :: SameFrame(h[t.dropped + i], t.history[i])
  {
    StagesInOrder(e, h, ev, p);
    var t := Trimmed(e, h, ev, p);
    var recent := h[t.dropped..];
    assert t.history == FirstSummarised(recent, t.summarised) && t.after == e(t.history, t.evidence, false);
    hide Trimmed, SummariseAll, RawBefore, SameFrame, Fits;
    SummariseAllFrame(recent, Raws(recent)[..t.summarised]);
  }

  lemma EvidenceSizes(ev: seq<Datum>)
    ensures |Kept(ev, |ev|)| + |Dropped(ev, |ev|)| == |ev|
  {
    hide Kept, Dropped;
    KeptPartition(ev, |ev|);
    assert ev[..|ev|] == ev;
    SizesAdd(Kept(ev, |ev|), Dropped(ev, |ev|), ev);
  }

  lemma SizesAdd(a: seq<Datum>, b: seq<Datum>, c: seq<Datum>)
    requires multiset(a) + multiset(b) == multiset(c)
    ensures |a| + |b| == |c|
  {
    assert |multiset(a) + multiset(b)| == |multiset(c)|;
  }

  // ---- the provisioned estimator ----

  function Weight(h: seq<Group>): nat {
    if h == [] then 0 else Weight(h[..|h| - 1]) + h[|h| - 1].turn.weight
  }

  /** It counts the messages and tools, and for the history only each turn's token weight. */
  function Provisioned(wire: seq<Datum> -> nat): Estimator {
    (h, ev, hashed) => wire(ev) + Weight(h)
  }

  lemma {:induction false} SameWeight(g: seq<Group>, h: seq<Group>)
    requires |g| == |h| && forall i | 0 <= i < |g| :: SameFrame(g[i], h[i])
    ensures Weight(g) == Weight(h)
  {
    if g != [] {
      SameWeight(g[..|g| - 1], h[..|h| - 1]);
    }
  }

  /** With that estimator summarising never lowers the estimate: it summarises nothing or everything, and
      if it summarises anything the evidence stage runs as well. The hashes never change the estimate. */
  lemma NothingOrEverything(wire: seq<Datum> -> nat, h: seq<Group>, ev: seq<Datum>, p: Profile)
    ensures var t := Trimmed(Provisioned(wire), h, ev, p);
      && t.dropped <= |h|
      && (t.summarised == 0 || t.summarised == |Raws(h[t.dropped..])|)
      && (t.summarised > 0 ==> t.deduplicated)
    ensures Built(Provisioned(wire), h, ev, p) != Err(EstimateChangedAfterHashing)
  {
    var e := Provisioned(wire);
    var k := Cut(e, h, ev, p);
    var recent := h[k..];
    var j := Squeeze(e, recent, ev, p.limit, 0);
    SqueezeSearch(e, recent, ev, p, 0);
    SummariseAllFrame(recent, Raws(recent)[..j]);
    SameWeight(recent, FirstSummarised(recent, j));
    assert FirstSummarised(recent, 0) == recent;
    hide Raws, FirstSummarised, Squeeze, Cut, Weight, SummaryOf;
    assert Fits(e, FirstSummarised(recent, j), ev, p) <==> Fits(e, recent, ev, p);
  }

  // ---- what trimming hands to the gateway ----

  /** Trimming and summarising keep every check of the history true. */
  lemma TrimmedHistoryOk(e: Estimator, r: Request, p: Profile)
    requires HistoryOk(r.history, r.scope, r.attempt, r.sequence)
    ensures HistoryOk(Trimmed(e, r.history, r.evidence, p).history, r.scope, r.attempt, r.sequence)
  {
    var h := r.history;
    StagesInOrder(e, h, r.evidence, p);
    var t := Trimmed(e, h, r.evidence, p);
    var recent := h[t.dropped..];
    assert t.history == FirstSummarised(recent, t.summarised);
    hide Trimmed, FirstSummarised, RawBefore, Fits, Closed, Increasing, AllBelow;
    forall g | 0 <= g < |recent|
      ensures |t.history| == |recent| && Closed(t.history[g]) && t.history[g].turn == recent[g].turn
    {
      FirstSummarisedClosed(recent, t.summarised, g);
    }
    SummariseAllFrame(recent, Raws(recent)[..t.summarised]);
    LaterSequences(r, t.dropped, t.history);
  }

  /** So a bundle that is built passes the same checks at the gateway, and building fails for no other reason
      than the budget or the hashes. */
  lemma BuiltHistoryOk(e: Estimator, r: Request, p: Profile)
    requires HistoryOk(r.history, r.scope, r.attempt, r.sequence)
    ensures match Built(e, r.history, r.evidence, p)
      case Ok(b) => HistoryOk(b.history, r.scope, r.attempt, r.sequence)
      case Err(error) => error == MandatoryOverBudget || error == EstimateChangedAfterHashing
  {
    hide HistoryOk, Trimmed, SummaryOf;
    TrimmedHistoryOk(e, r, p);
  }

  lemma LaterSequences(r: Request, k: nat, history: seq<Group>)
    requires Increasing(Sequences(r.history)) && AllBelow(Sequences(r.history), r.sequence)
    requires k <= |r.history| && |history| == |r.history| - k
    requires forall g | 0 <= g < |history| :: history[g].turn == r.history[k..][g].turn
    ensures Increasing(Sequences(history)) && AllBelow(Sequences(history), r.sequence)
  {
    assert forall i | 0 <= i < |history| :: Sequences(history)[i] == Sequences(r.history)[k + i];
  }

  lemma FirstSummarisedClosed(h: seq<Group>, j: nat, g: nat)
    requires j <= |Raws(h)| && g < |h| && Closed(h[g])
    ensures |FirstSummarised(h, j)| == |h| && Closed(FirstSummarised(h, j)[g])
    ensures FirstSummarised(h, j)[g].turn == h[g].turn
  {
    SummariseAllFrame(h, Raws(h)[..j]);
    var a := FirstSummarised(h, j)[g];
    forall n: nat | n < |Results(h[g])|
      ensures n < |Results(a)| && Results(a)[n].callId == Results(h[g])[n].callId && Results(a)[n].name == Results(h[g])[n].name
    {
      FirstSummarisedExact(h, j, g, n);
    }
    hide FirstSummarised, Raws;
    assert SameFrame(h[g], a);
    if a.ToolExchange? {
      forall i | 0 <= i < |a.calls|
        ensures a.results[i].callId == a.calls[i].id && a.results[i].name == a.calls[i].name
      {
        assert Results(a)[i].callId == Results(h[g])[i].callId;
      }
    }
  }

  /** A history is accepted exactly if each group is closed and of the attempt, and the sequences rise from group to
      group and stay below the request's. */
  lemma HistoryExactly(h: seq<Group>, scope: string, attempt: nat, sequence: nat)
    ensures HistoryOk(h, scope, attempt, sequence) <==>
      && (forall i | 0 <= i < |h| ::
           Closed(h[i]) && h[i].turn.scope == scope && h[i].turn.attempt == attempt && h[i].turn.sequence < sequence)
      && forall i, j | 0 <= i < j < |h| :: h[i].turn.sequence < h[j].turn.sequence
  {
    hide Closed;
    var s := Sequences(h);
    assert |s| == |h| && forall i | 0 <= i < |h| :: s[i] == h[i].turn.sequence;
    if HistoryOk(h, scope, attempt, sequence) {
      forall i | 0 <= i < |h|
        ensures h[i].turn.sequence < sequence
      {
        assert s[i] < sequence;
      }
      forall i, j | 0 <= i < j < |h|
        ensures h[i].turn.sequence < h[j].turn.sequence
      {
        assert s[i] < s[j];
      }
    }
  }

  /** An exchange is closed exactly if it makes one to eight calls, has one result for each, in order, under the same
      id and name, and its turn expects exactly these ids. */
  lemma ClosedExactly(turn: TurnRef, calls: seq<ToolCall>, results: seq<ToolResult>)
    ensures Closed(ToolExchange(turn, calls, results)) <==>
      && 1 <= |calls| <= 8 && |results| == |calls| == |turn.expected|
      && forall i | 0 <= i < |calls| ::
           turn.expected[i] == calls[i].id && results[i].callId == calls[i].id && results[i].name == calls[i].name
    ensures Closed(Assistant(turn)) <==> turn.expected == []
  {
    assert |CallIds(calls)| == |calls| && forall i | 0 <= i < |calls| :: CallIds(calls)[i] == calls[i].id;
    if Closed(ToolExchange(turn, calls, results)) {
      assert CallIds(calls) == turn.expected;
    }
  }
}
