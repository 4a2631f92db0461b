/** Equal payloads force equal commands and target versions, up to the roundings, and conversely. */
module CanonicalCommandTheorems {
  import opened Common
  import opened JsonText
  import opened CanonicalJson
  import opened CanonicalTheorems
  import opened CanonicalCommand

  // ---- objects given by pairs ----

  predicate UniquePairs(pairs: seq<(string, Json)>) {
    forall i, j | 0 <= i < j < |pairs| :: pairs[i].0 != pairs[j].0
  }

  lemma {:induction false} PairKeys(pairs: seq<(string, Json)>)
    ensures forall k :: k in Keys(FromPairs(pairs)) <==> exists i | 0 <= i < |pairs| :: pairs[i].0 == k
  {
    if pairs != [] {
      PairKeys(pairs[1..]);
      forall k
        ensures k in Keys(FromPairs(pairs)) <==> exists i | 0 <= i < |pairs| :: pairs[i].0 == k
      {
        if k in Keys(FromPairs(pairs[1..])) {
          var i :| 0 <= i < |pairs[1..]| && pairs[1..][i].0 == k;
          assert pairs[i + 1].0 == k;
        }
        if exists i | 0 <= i < |pairs| :: pairs[i].0 == k {
          var i :| 0 <= i < |pairs| && pairs[i].0 == k;
          assert i > 0 ==> pairs[1..][i - 1].0 == k;
        }
      }
    }
  }

  /** Each pair is found under its key. */
  lemma {:induction false} PairFound(pairs: seq<(string, Json)>, i: nat)
    requires UniquePairs(pairs) && i < |pairs|
    ensures pairs[i].0 in FieldMeanings(FromPairs(pairs))
    ensures FieldMeanings(FromPairs(pairs))[pairs[i].0] == Meaning(pairs[i].1)
  {
    hide Meaning;
    if i > 0 {
      PairFound(pairs[1..], i - 1);
      assert pairs[0].0 != pairs[i].0;
    }
  }

  lemma {:induction false} PairsProper(pairs: seq<(string, Json)>)
    requires UniquePairs(pairs) && forall i | 0 <= i < |pairs| :: Proper(pairs[i].1)
    ensures ProperFields(FromPairs(pairs))
  {
    if pairs != [] {
      var rest := pairs[1..];
      assert forall i | 0 <= i < |rest| :: rest[i] == pairs[i + 1];
      PairsProper(rest);
      PairKeys(rest);
      assert Proper(pairs[0].1);
      hide Proper, UniquePairs;
      assert forall i | 0 <= i < |rest| :: rest[i].0 != pairs[0].0;
    }
  }

  /** Objects of one shape with one meaning have the same meanings throughout. */
  lemma SameValues(p: seq<(string, Json)>, q: seq<(string, Json)>)
    requires UniquePairs(p) && UniquePairs(q) && |p| == |q| && forall i | 0 <= i < |p| :: p[i].0 == q[i].0
    requires FieldMeanings(FromPairs(p)) == FieldMeanings(FromPairs(q))
    ensures forall i | 0 <= i < |p| :: Meaning(p[i].1) == Meaning(q[i].1)
  {
    hide Meaning, FieldMeanings, FromPairs, UniquePairs;
    forall i | 0 <= i < |p|
      ensures Meaning(p[i].1) == Meaning(q[i].1)
    {
      PairFound(p, i);
      PairFound(q, i);
    }
  }

  lemma {:induction false} ListMeans(s: seq<Json>)
    ensures |ItemMeanings(FromList(s))| == |s|
    ensures forall i | 0 <= i < |s| :: ItemMeanings(FromList(s))[i] == Meaning(s[i])
  {
    if s != [] {
      ListMeans(s[1..]);
      hide Meaning;
    }
  }

  lemma {:induction false} ListProper(s: seq<Json>)
    requires forall i | 0 <= i < |s| :: Proper(s[i])
    ensures ProperItems(FromList(s))
  {
    if s != [] {
      assert forall i | 0 <= i < |s[1..]| :: s[1..][i] == s[i + 1];
      ListProper(s[1..]);
    }
  }

  // ---- leaves ----

  lemma DigitCharInjective(c: nat, d: nat)
    requires c < 10 && d < 10 && DigitChar(c) == DigitChar(d)
    ensures c == d
  {
    DigitCharValue(c);
    DigitCharValue(d);
  }

  lemma IntTextInjective(m: int, n: int)
    requires IntText(m) == IntText(n)
    ensures m == n
  {
    IntReads(m, "");
    IntReads(n, "");
  }

  lemma UtcZInjective(m: int, n: int)
    ensures UtcZ(m) == UtcZ(n) <==> WholeSecond(m) == WholeSecond(n)
  {
    if UtcZ(m) == UtcZ(n) {
      var a, b := IntText(WholeSecond(m)), IntText(WholeSecond(n));
      assert |a + "Z"| == |b + "Z"| && (a + "Z")[..|a|] == a && (b + "Z")[..|b|] == b;
      IntTextInjective(WholeSecond(m), WholeSecond(n));
    }
  }

  /** Quantising moves a ratio by at most half a unit of the fourth place. */
  lemma QuantizedClose(millionths: nat)
    ensures -50 <= 100 * Quantized(millionths) - millionths <= 50
    ensures millionths <= 1000000 ==> Quantized(millionths) <= 10000
  {
  }

  lemma DecimalTextInjective(m: nat, n: nat)
    requires m <= 1000000 && n <= 1000000
    ensures DecimalText(m) == DecimalText(n) <==> Quantized(m) == Quantized(n)
  {
    if DecimalText(m) == DecimalText(n) {
      var p, q := Quantized(m), Quantized(n);
      var a, b := DecimalText(m), DecimalText(n);
      assert a[0] == b[0] && a[2] == b[2] && a[3] == b[3] && a[4] == b[4] && a[5] == b[5];
      DigitCharInjective(p / 10000, q / 10000);
      DigitCharInjective(p / 1000 % 10, q / 1000 % 10);
      DigitCharInjective(p / 100 % 10, q / 100 % 10);
      DigitCharInjective(p / 10 % 10, q / 10 % 10);
      DigitCharInjective(p % 10, q % 10);
      hide *;
      SameDigits(p, q);
    }
  }

  lemma SameDigits(p: nat, q: nat)
    requires p / 10000 == q / 10000 && p / 1000 % 10 == q / 1000 % 10 && p / 100 % 10 == q / 100 % 10
    requires p / 10 % 10 == q / 10 % 10 && p % 10 == q % 10
    ensures p == q
  {
    Recombined(p);
    Recombined(q);
  }

  lemma Recombined(p: nat)
    ensures p == 10000 * (p / 10000) + 1000 * (p / 1000 % 10) + 100 * (p / 100 % 10) + 10 * (p / 10 % 10) + p % 10
  {
    LastDigit(p, 1);
    LastDigit(p, 10);
    LastDigit(p, 100);
    LastDigit(p, 1000);
  }

  lemma LastDigit(p: nat, unit: nat)
    requires unit == 1 || unit == 10 || unit == 100 || unit == 1000
    ensures p / unit == 10 * (p / (10 * unit)) + p / unit % 10
  {
    if unit == 1 {
    } else if unit == 10 {
    } else if unit == 100 {
    } else {
    }
  }

  // ---- nested references ----

  lemma EvidenceMeans(a: EvidenceRef, b: EvidenceRef)
    requires Meaning(EvidenceJson(a)) == Meaning(EvidenceJson(b))
    ensures a == b
  {
    var p := [("kind", Text(a.kind)), ("ref", Text(a.ref)), ("digest", Text(a.digest))];
    var q := [("kind", Text(b.kind)), ("ref", Text(b.ref)), ("digest", Text(b.digest))];
    SameValues(p, q);
    assert Meaning(p[0].1) == Meaning(q[0].1) && Meaning(p[1].1) == Meaning(q[1].1) && Meaning(p[2].1) == Meaning(q[2].1);
  }

  lemma MetricMeans(a: MetricRef, b: MetricRef)
    requires Meaning(MetricJson(a)) == Meaning(MetricJson(b))
    ensures a == b
  {
    var p, q := [("name", Text(a.name)), ("revision", Text(a.revision))], [("name", Text(b.name)), ("revision", Text(b.revision))];
    SameValues(p, q);
    assert Meaning(p[0].1) == Meaning(q[0].1) && Meaning(p[1].1) == Meaning(q[1].1);
  }

  lemma SellerMeans(a: string, b: string)
    requires Meaning(SellerJson(a)) == Meaning(SellerJson(b))
    ensures a == b
  {
    var p := [("namespace", Text("product:seller-target")), ("token", Text(a))];
    var q := [("namespace", Text("product:seller-target")), ("token", Text(b))];
    SameValues(p, q);
    assert Meaning(p[1].1) == Meaning(q[1].1);
  }

  lemma TaskMeans(a: TaskRef, b: TaskRef)
    requires Meaning(TaskJson(a)) == Meaning(TaskJson(b))
    ensures a == b
  {
    var p, q := [("task_id", Text(a.id)), ("version", Num(a.version))], [("task_id", Text(b.id)), ("version", Num(b.version))];
    SameValues(p, q);
    assert Meaning(p[0].1) == Meaning(q[0].1) && Meaning(p[1].1) == Meaning(q[1].1);
  }

  lemma HitMeans(a: string, c: string, b: string, d: string)
    requires Meaning(HitJson(a, c)) == Meaning(HitJson(b, d))
    ensures a == b && c == d
  {
    var p, q := [("hit_id", Text(a)), ("evidence_digest", Text(c))], [("hit_id", Text(b)), ("evidence_digest", Text(d))];
    SameValues(p, q);
    assert Meaning(p[0].1) == Meaning(q[0].1) && Meaning(p[1].1) == Meaning(q[1].1);
  }

  lemma BacktestMeans(a: string, c: string, b: string, d: string)
    requires Meaning(BacktestJson(a, c)) == Meaning(BacktestJson(b, d))
    ensures a == b && c == d
  {
    var p := [("backtest_id", Text(a)), ("rule_spec_sha256", Text(c))];
    var q := [("backtest_id", Text(b)), ("rule_spec_sha256", Text(d))];
    SameValues(p, q);
    assert Meaning(p[0].1) == Meaning(q[0].1) && Meaning(p[1].1) == Meaning(q[1].1);
  }

  lemma EvidencesMean(a: seq<EvidenceRef>, b: seq<EvidenceRef>)
    requires Meaning(Arr(FromList(Evidences(a)))) == Meaning(Arr(FromList(Evidences(b))))
    ensures a == b
  {
    var x, y := Evidences(a), Evidences(b);
    ListMeans(x);
    ListMeans(y);
    assert ItemMeanings(FromList(x)) == ItemMeanings(FromList(y));
    hide Meaning, FromList, ItemMeanings, EvidenceJson;
    forall i | 0 <= i < |a|
      ensures a[i] == b[i]
    {
      assert Meaning(x[i]) == Meaning(y[i]);
      EvidenceMeans(a[i], b[i]);
    }
  }

  lemma TextsMean(a: seq<string>, b: seq<string>)
    requires Meaning(Arr(FromList(Texts(a)))) == Meaning(Arr(FromList(Texts(b))))
    ensures a == b
  {
    var x, y := Texts(a), Texts(b);
    ListMeans(x);
    ListMeans(y);
    assert ItemMeanings(FromList(x)) == ItemMeanings(FromList(y));
    hide FromList, ItemMeanings;
    forall i | 0 <= i < |a|
      ensures a[i] == b[i]
    {
      assert Meaning(x[i]) == Meaning(y[i]);
    }
  }

  lemma VersionsMean(a: seq<(string, nat)>, b: seq<(string, nat)>)
    requires Dictionary(a) && Dictionary(b)
    ensures FieldMeanings(FromPairs(VersionPairs(a))) == FieldMeanings(FromPairs(VersionPairs(b))) <==> VersionMap(a) == VersionMap(b)
  {
    VersionMeans(a);
    VersionMeans(b);
  }

  function VersionMap(versions: seq<(string, nat)>): map<string, nat> {
    if versions == [] then map[] else VersionMap(versions[1..])[versions[0].0 := versions[0].1]
  }

  lemma {:induction false} VersionMeans(a: seq<(string, nat)>)
    ensures FieldMeanings(FromPairs(VersionPairs(a))).Keys == VersionMap(a).Keys
    ensures forall k <- VersionMap(a) :: FieldMeanings(FromPairs(VersionPairs(a)))[k] == VNum(VersionMap(a)[k])
  {
    if a != [] {
      VersionMeans(a[1..]);
      assert VersionPairs(a)[1..] == VersionPairs(a[1..]);
    }
  }

  // ---- whole commands ----

  lemma CommonUnique(c: Command)
    ensures UniquePairs(CommonPairs(c))
  {
  }

  lemma KindUnique(k: Kind)
    requires Command(k, [], 0).Valid()
    ensures UniquePairs(KindPairs(k))
    ensures forall i | 0 <= i < |KindPairs(k)| ::
      KindPairs(k)[i].0 != "type" && KindPairs(k)[i].0 != "evidence_refs" && KindPairs(k)[i].0 != "expected_target_version"
  {
    hide UtcZ, DecimalText, SellerJson, MetricJson, TaskJson, HitJson, BacktestJson, OptionJson, Texts, FromList, Quantized;
  }

  lemma CommandUnique(c: Command)
    requires c.Valid()
    ensures UniquePairs(CommonPairs(c) + KindPairs(c.kind))
  {
    CommonUnique(c);
    KindUnique(c.kind);
    hide KindPairs;
  }

  lemma SameTypeName(a: Kind, b: Kind)
    requires TypeName(a) == TypeName(b)
    ensures Rank(a) == Rank(b)
  {
  }

  /** Which variant a command is. */
  function Rank(k: Kind): nat {
    match k
    case OpenSellerRiskCase(_, _, _, _, _, _, _, _, _, _) => 0
    case CreateTask(_, _, _) => 1
    case CreateFromAlertHit(_, _, _, _) => 2
    case CreateAlertRule(_, _, _, _, _, _, _, _, _) => 3
    case Assign(_, _) => 4
    case Transition(_, _, _, _) => 5
    case AddConclusion(_, _, _) => 6
    case Close(_, _, _) => 7
  }

  predicate SameMeanings(p: seq<(string, Json)>, q: seq<(string, Json)>) {
    |p| == |q| && forall i | 0 <= i < |p| :: p[i].0 == q[i].0 && Meaning(p[i].1) == Meaning(q[i].1)
  }

  lemma SameRankSameKeys(a: Kind, b: Kind)
    requires Rank(a) == Rank(b) && Command(a, [], 0).Valid() && Command(b, [], 0).Valid()
    ensures |KindPairs(a)| == |KindPairs(b)| && forall i | 0 <= i < |KindPairs(a)| :: KindPairs(a)[i].0 == KindPairs(b)[i].0
  {
    hide UtcZ, DecimalText, SellerJson, MetricJson, TaskJson, HitJson, BacktestJson, OptionJson, Texts, FromList, Quantized;
  }

  lemma RiskValues(a: Kind, b: Kind)
    requires a.OpenSellerRiskCase? && b.OpenSellerRiskCase? && Command(a, [], 0).Valid() && Command(b, [], 0).Valid()
    requires SameMeanings(KindPairs(a), KindPairs(b))
    ensures Meaning(SellerJson(a.token)) == Meaning(SellerJson(b.token))
    ensures Meaning(MetricJson(a.metric)) == Meaning(MetricJson(b.metric))
    ensures UtcZ(a.startedAt) == UtcZ(b.startedAt) && UtcZ(a.endedAt) == UtcZ(b.endedAt)
    ensures a.numerator == b.numerator && a.denominator == b.denominator
    ensures DecimalText(a.observed) == DecimalText(b.observed) && DecimalText(a.threshold) == DecimalText(b.threshold)
    ensures a.title == b.title && a.priority == b.priority
  {
    hide UtcZ, DecimalText, SellerJson, MetricJson, Quantized, WholeSecond, FromPairs, FieldMeanings;
    var p, q := KindPairs(a), KindPairs(b);
    assert Meaning(p[0].1) == Meaning(q[0].1) && Meaning(p[3].1) == Meaning(q[3].1);
    assert Meaning(p[1].1) == Meaning(q[1].1) && Meaning(p[2].1) == Meaning(q[2].1);
    assert Meaning(p[4].1) == Meaning(q[4].1) && Meaning(p[5].1) == Meaning(q[5].1);
    assert Meaning(p[6].1) == Meaning(q[6].1) && Meaning(p[7].1) == Meaning(q[7].1);
    assert Meaning(p[8].1) == Meaning(q[8].1) && Meaning(p[9].1) == Meaning(q[9].1);
  }

  lemma RiskMeans(a: Kind, b: Kind)
    requires a.OpenSellerRiskCase? && b.OpenSellerRiskCase? && Command(a, [], 0).Valid() && Command(b, [], 0).Valid()
    requires SameMeanings(KindPairs(a), KindPairs(b))
    ensures Rounded(a) == Rounded(b)
  {
    hide UtcZ, DecimalText, SellerJson, MetricJson, Quantized, WholeSecond, KindPairs, SameMeanings, Meaning;
    RiskValues(a, b);
    SellerMeans(a.token, b.token);
    MetricMeans(a.metric, b.metric);
    UtcZInjective(a.startedAt, b.startedAt);
    UtcZInjective(a.endedAt, b.endedAt);
    DecimalTextInjective(a.observed, b.observed);
    DecimalTextInjective(a.threshold, b.threshold);
  }

  lemma RuleValues(a: Kind, b: Kind)
    requires a.CreateAlertRule? && b.CreateAlertRule? && Command(a, [], 0).Valid() && Command(b, [], 0).Valid()
    requires SameMeanings(KindPairs(a), KindPairs(b))
    ensures Meaning(BacktestJson(a.backtest, a.ruleSha)) == Meaning(BacktestJson(b.backtest, b.ruleSha))
    ensures Meaning(MetricJson(a.metric)) == Meaning(MetricJson(b.metric))
    ensures a.grain == b.grain && a.window == b.window && a.comparator == b.comparator && a.minimum == b.minimum
    ensures DecimalText(a.threshold) == DecimalText(b.threshold)
    ensures Meaning(Arr(FromList(Texts(a.filters)))) == Meaning(Arr(FromList(Texts(b.filters))))
  {
    hide DecimalText, BacktestJson, MetricJson, Quantized, Texts, FromList, FromPairs, FieldMeanings, ItemMeanings;
    var p, q := KindPairs(a), KindPairs(b);
    assert Meaning(p[0].1) == Meaning(q[0].1) && Meaning(p[1].1) == Meaning(q[1].1);
    assert Meaning(p[2].1) == Meaning(q[2].1) && Meaning(p[3].1) == Meaning(q[3].1);
    assert Meaning(p[4].1) == Meaning(q[4].1) && Meaning(p[5].1) == Meaning(q[5].1);
    assert Meaning(p[6].1) == Meaning(q[6].1) && Meaning(p[7].1) == Meaning(q[7].1);
  }

  lemma RuleMeans(a: Kind, b: Kind)
    requires a.CreateAlertRule? && b.CreateAlertRule? && Command(a, [], 0).Valid() && Command(b, [], 0).Valid()
    requires SameMeanings(KindPairs(a), KindPairs(b))
    ensures Rounded(a) == Rounded(b)
  {
    hide DecimalText, BacktestJson, MetricJson, Quantized, Texts, FromList, KindPairs, SameMeanings, Meaning;
    RuleValues(a, b);
    BacktestMeans(a.backtest, a.ruleSha, b.backtest, b.ruleSha);
    MetricMeans(a.metric, b.metric);
    DecimalTextInjective(a.threshold, b.threshold);
    TextsMean(a.filters, b.filters);
  }

  lemma OtherMeans(a: Kind, b: Kind)
    requires Rank(a) == Rank(b) && !a.OpenSellerRiskCase? && !a.CreateAlertRule?
    requires Command(a, [], 0).Valid() && Command(b, [], 0).Valid()
    requires SameMeanings(KindPairs(a), KindPairs(b))
    ensures a == b
  {
    var p, q := KindPairs(a), KindPairs(b);
    assert Meaning(p[0].1) == Meaning(q[0].1) && Meaning(p[1].1) == Meaning(q[1].1);
    assert |p| >= 3 ==> Meaning(p[2].1) == Meaning(q[2].1);
    assert |p| >= 4 ==> Meaning(p[3].1) == Meaning(q[3].1);
    hide TaskJson, HitJson, SameMeanings;
    if a.CreateFromAlertHit? {
      HitMeans(a.hit, a.hitDigest, b.hit, b.hitDigest);
    } else if !a.CreateTask? {
      TaskMeans(a.task, b.task);
    }
  }

  lemma KindMeans(a: Kind, b: Kind)
    requires Rank(a) == Rank(b) && Command(a, [], 0).Valid() && Command(b, [], 0).Valid()
    requires SameMeanings(KindPairs(a), KindPairs(b))
    ensures Rounded(a) == Rounded(b)
  {
    hide KindPairs, SameMeanings;
    if a.OpenSellerRiskCase? {
      RiskMeans(a, b);
    } else if a.CreateAlertRule? {
      RuleMeans(a, b);
    } else {
      OtherMeans(a, b);
    }
  }

  lemma RoundedPairs(a: Kind, b: Kind)
    requires Command(a, [], 0).Valid() && Command(b, [], 0).Valid() && Rounded(a) == Rounded(b)
    ensures TypeName(a) == TypeName(b) && KindPairs(a) == KindPairs(b)
  {
    hide SellerJson, MetricJson, TaskJson, HitJson, BacktestJson, OptionJson, Texts, FromList;
  }

  /** Equal JSON values of two commands, exactly. */
  lemma CommandDecides(c: Command, d: Command)
    requires c.Valid() && d.Valid()
    ensures Meaning(CommandJson(c)) == Meaning(CommandJson(d)) <==>
      Rounded(c.kind) == Rounded(d.kind) && c.evidence == d.evidence && c.expected == d.expected
  {
    if Meaning(CommandJson(c)) == Meaning(CommandJson(d)) {
      CommandMeans(c, d);
    }
    if Rounded(c.kind) == Rounded(d.kind) && c.evidence == d.evidence && c.expected == d.expected {
      RoundedPairs(c.kind, d.kind);
      hide KindPairs, Meaning, FromPairs;
      assert CommonPairs(c) == CommonPairs(d);
    }
  }

  lemma CommandMeans(c: Command, d: Command)
    requires c.Valid() && d.Valid() && Meaning(CommandJson(c)) == Meaning(CommandJson(d))
    ensures Rounded(c.kind) == Rounded(d.kind) && c.evidence == d.evidence && c.expected == d.expected
  {
    var p, q := CommonPairs(c) + KindPairs(c.kind), CommonPairs(d) + KindPairs(d.kind);
    hide KindPairs, FromPairs, FieldMeanings, Evidences, FromList, ItemMeanings;
    CommandUnique(c);
    CommandUnique(d);
    hide UniquePairs;
    PairFound(p, 0);
    PairFound(q, 0);
    assert p[0] == ("type", Text(TypeName(c.kind))) && q[0] == ("type", Text(TypeName(d.kind)));
    SameTypeName(c.kind, d.kind);
    SameRankSameKeys(c.kind, d.kind);
    assert forall i | 0 <= i < |p| :: p[i].0 == q[i].0;
    SameValues(p, q);
    assert p[1].1 == Arr(FromList(Evidences(c.evidence))) && q[1].1 == Arr(FromList(Evidences(d.evidence)));
    assert p[2].1 == Num(c.expected) && q[2].1 == Num(d.expected);
    EvidencesMean(c.evidence, d.evidence);
    var k, l := KindPairs(c.kind), KindPairs(d.kind);
    assert forall i | 0 <= i < |k| :: p[i + 3] == k[i] && q[i + 3] == l[i];
    hide Meaning;
    assert SameMeanings(k, l);
    KindMeans(c.kind, d.kind);
  }

  // ---- the payload ----

  lemma NestedProper(c: Command)
    requires c.Valid()
    ensures Proper(CommandJson(c))
  {
    var pairs := CommonPairs(c) + KindPairs(c.kind);
    CommandUnique(c);
    EvidencesProper(c.evidence);
    KindProper(c.kind);
    hide KindPairs, FromPairs, Evidences, FromList, UniquePairs;
    forall i | 0 <= i < |pairs|
      ensures Proper(pairs[i].1)
    {
      if i >= 3 {
        assert pairs[i] == KindPairs(c.kind)[i - 3];
      }
    }
    PairsProper(pairs);
  }

  lemma EvidencesProper(s: seq<EvidenceRef>)
    ensures ProperItems(FromList(Evidences(s)))
  {
    forall i | 0 <= i < |s|
      ensures Proper(Evidences(s)[i])
    {
      PairsProper([("kind", Text(s[i].kind)), ("ref", Text(s[i].ref)), ("digest", Text(s[i].digest))]);
    }
    ListProper(Evidences(s));
  }

  lemma TwoProper(k: string, v: Json, l: string, w: Json)
    requires k != l && Proper(v) && Proper(w)
    ensures Proper(Obj(FromPairs([(k, v), (l, w)])))
  {
    PairsProper([(k, v), (l, w)]);
  }

  lemma KindProper(k: Kind)
    requires Command(k, [], 0).Valid()
    ensures forall i | 0 <= i < |KindPairs(k)| :: Proper(KindPairs(k)[i].1)
  {
    hide UtcZ, DecimalText, FromPairs, FromList, Texts, Quantized;
    if k.OpenSellerRiskCase? {
      TwoProper("namespace", Text("product:seller-target"), "token", Text(k.token));
      TwoProper("name", Text(k.metric.name), "revision", Text(k.metric.revision));
    } else if k.CreateAlertRule? {
      TwoProper("backtest_id", Text(k.backtest), "rule_spec_sha256", Text(k.ruleSha));
      TwoProper("name", Text(k.metric.name), "revision", Text(k.metric.revision));
      TextsProper(k.filters);
    } else if k.CreateFromAlertHit? {
      TwoProper("hit_id", Text(k.hit), "evidence_digest", Text(k.hitDigest));
    } else if !k.CreateTask? {
      TwoProper("task_id", Text(k.task.id), "version", Num(k.task.version));
    }
  }

  lemma TextsProper(s: seq<string>)
    ensures ProperItems(FromList(Texts(s)))
  {
    ListProper(Texts(s));
  }

  lemma VersionsProper(versions: seq<(string, nat)>)
    requires Dictionary(versions)
    ensures Proper(Obj(FromPairs(VersionPairs(versions))))
  {
    PairsProper(VersionPairs(versions));
  }

  function PayloadPairs(c: Command, versions: seq<(string, nat)>, schema: nat): seq<(string, Json)>
    requires c.Valid()
  {
    [("command", CommandJson(c)), ("schema_version", Num(schema)), ("target_versions", Obj(FromPairs(VersionPairs(versions))))]
  }

  lemma PayloadProper(c: Command, versions: seq<(string, nat)>, schema: nat)
    requires c.Valid() && Dictionary(versions)
    ensures Proper(PayloadJson(c, versions, schema))
  {
    NestedProper(c);
    VersionsProper(versions);
    hide CommandJson, VersionPairs;
    PairsProper(PayloadPairs(c, versions, schema));
  }

  lemma PayloadMeans(c: Command, v: seq<(string, nat)>, s: nat, d: Command, w: seq<(string, nat)>, t: nat)
    requires c.Valid() && d.Valid()
    ensures Meaning(PayloadJson(c, v, s)) == Meaning(PayloadJson(d, w, t)) <==>
      && Meaning(CommandJson(c)) == Meaning(CommandJson(d)) && s == t
      && FieldMeanings(FromPairs(VersionPairs(v))) == FieldMeanings(FromPairs(VersionPairs(w)))
  {
    var p, q := PayloadPairs(c, v, s), PayloadPairs(d, w, t);
    hide CommandJson, VersionPairs;
    if Meaning(PayloadJson(c, v, s)) == Meaning(PayloadJson(d, w, t)) {
      SameValues(p, q);
      assert Meaning(p[0].1) == Meaning(q[0].1) && Meaning(p[1].1) == Meaning(q[1].1) && Meaning(p[2].1) == Meaning(q[2].1);
    } else {
      PayloadFields(p);
      PayloadFields(q);
    }
  }

  lemma PayloadFields(p: seq<(string, Json)>)
    requires |p| == 3
    ensures FieldMeanings(FromPairs(p))
      == map[][p[2].0 := Meaning(p[2].1)][p[1].0 := Meaning(p[1].1)][p[0].0 := Meaning(p[0].1)]
  {
    hide Meaning;
    var two := p[1..];
    var one := two[1..];
    assert one[1..] == [];
    assert FromPairs(one) == Field(p[2].0, p[2].1, Empty);
    assert FromPairs(two) == Field(p[1].0, p[1].1, FromPairs(one));
    assert FieldMeanings(FromPairs(one)) == map[][p[2].0 := Meaning(p[2].1)];
  }

  /** Two payloads have equal bytes exactly when they agree on the schema version, on the target versions as
      dictionaries, and on the commands with instants cut to the second and ratios to four places. */
  lemma PayloadDecides(c: Command, v: seq<(string, nat)>, s: nat, d: Command, w: seq<(string, nat)>, t: nat)
    requires c.Valid() && d.Valid() && Dictionary(v) && Dictionary(w)
    ensures Payload(c, v, s) == Payload(d, w, t) <==>
      && Rounded(c.kind) == Rounded(d.kind) && c.evidence == d.evidence && c.expected == d.expected
      && VersionMap(v) == VersionMap(w) && s == t
  {
    PayloadProper(c, v, s);
    PayloadProper(d, w, t);
    PrintDecidesMeaning(PayloadJson(c, v, s), PayloadJson(d, w, t));
    PayloadMeans(c, v, s, d, w, t);
    CommandDecides(c, d);
    VersionsMean(v, w);
  }

  /** The rounding loses something: two rules whose thresholds differ in the fifth place share one payload,
      so an approval of one is an approval of the other. */
  lemma DistinctCommandsOnePayload(filters: seq<string>, evidence: seq<EvidenceRef>) returns (c: Command, d: Command)
    ensures c != d && c.Valid() && d.Valid()
    ensures Payload(c, [("task", 0)], 1) == Payload(d, [("task", 0)], 1)
  {
    var metric := MetricRef("late_delivery_rate", "v1");
    c := Command(CreateAlertRule("b", "h", metric, "seller", "week", "greater_than", 120001, 1, filters), evidence, 0);
    d := Command(CreateAlertRule("b", "h", metric, "seller", "week", "greater_than", 120049, 1, filters), evidence, 0);
    PayloadDecides(c, [("task", 0)], 1, d, [("task", 0)], 1);
  }
}
