/** Which JSON object a command is projected to, field by field. */
module CanonicalFields {
  import opened Common
  import opened JsonText
  import opened CanonicalJson
  import opened CanonicalTheorems
  import opened CanonicalCommand
  import opened CanonicalCommandTheorems

  predicate Has(f: map<string, Value>, name: string, v: Value) {
    name in f && f[name] == v
  }

  /** An instant as the payload writes it: whole seconds, in UTC. */
  function Instant(micros: int): Value {
    VText(UtcZ(micros))
  }

  function Ratio(millionths: nat): Value
    requires millionths <= 1000000
  {
    VText(DecimalText(millionths))
  }

  function MetricValue(m: MetricRef): Value {
    VObj(map["name" := VText(m.name), "revision" := VText(m.revision)])
  }

  function TaskValue(t: TaskRef): Value {
    VObj(map["task_id" := VText(t.id), "version" := VNum(t.version)])
  }

  function EvidenceValue(e: EvidenceRef): Value {
    VObj(map["kind" := VText(e.kind), "ref" := VText(e.ref), "digest" := VText(e.digest)])
  }

  /** The fields a variant has besides the three that all have. */
  function OwnFields(k: Kind): set<string> {
    match k
    case OpenSellerRiskCase(_, _, _, _, _, _, _, _, _, _) =>
      {"seller_ref", "observation_started_at", "observation_ended_at", "metric_ref", "numerator", "denominator", "observed",
       "threshold", "title", "priority"}
    case CreateTask(_, _, _) => {"title", "priority", "public_summary"}
    case CreateFromAlertHit(_, _, _, _) => {"alert_hit_ref", "title", "priority"}
    case CreateAlertRule(_, _, _, _, _, _, _, _, _) =>
      {"alert_backtest_ref", "metric_ref", "grain", "window", "comparator", "threshold", "minimum_denominator", "filter_refs"}
    case Assign(_, _) => {"task_ref", "assignee_ref"}
    case Transition(_, _, _, _) => {"task_ref", "from_status", "to_status", "reason_code"}
    case AddConclusion(_, _, _) => {"task_ref", "conclusion_code", "conclusion_summary"}
    case Close(_, _, _) => {"task_ref", "conclusion_ref", "risk_disposition"}
  }

  /** What the variant's own fields hold. */
  predicate OwnValues(k: Kind, f: map<string, Value>)
    requires Command(k, [], 0).Valid()
  {
    match k
    case OpenSellerRiskCase(token, startedAt, endedAt, metric, numerator, denominator, observed, threshold, title, priority) =>
      && Has(f, "type", VText("open_seller_risk_case"))
      && Has(f, "seller_ref", VObj(map["namespace" := VText("product:seller-target"), "token" := VText(token)]))
      && Has(f, "observation_started_at", Instant(startedAt)) && Has(f, "observation_ended_at", Instant(endedAt))
      && Has(f, "metric_ref", MetricValue(metric)) && Has(f, "numerator", VNum(numerator))
      && Has(f, "denominator", VNum(denominator)) && Has(f, "observed", Ratio(observed))
      && Has(f, "threshold", Ratio(threshold)) && Has(f, "title", VText(title)) && Has(f, "priority", VText(priority))
    case CreateTask(title, priority, summary) =>
      && Has(f, "type", VText("create_investigation_task"))
      && Has(f, "title", VText(title)) && Has(f, "priority", VText(priority)) && Has(f, "public_summary", VText(summary))
    case CreateFromAlertHit(hit, hitDigest, title, priority) =>
      && Has(f, "type", VText("create_investigation_from_alert_hit"))
      && Has(f, "alert_hit_ref", VObj(map["hit_id" := VText(hit), "evidence_digest" := VText(hitDigest)]))
      && Has(f, "title", VText(title)) && Has(f, "priority", VText(priority))
    case CreateAlertRule(backtest, ruleSha, metric, grain, window, comparator, threshold, minimum, filters) =>
      && Has(f, "type", VText("create_and_enable_metric_alert_rule"))
      && Has(f, "alert_backtest_ref", VObj(map["backtest_id" := VText(backtest), "rule_spec_sha256" := VText(ruleSha)]))
      && Has(f, "metric_ref", MetricValue(metric)) && Has(f, "grain", VText(grain)) && Has(f, "window", VText(window))
      && Has(f, "comparator", VText(comparator)) && Has(f, "threshold", Ratio(threshold))
      && Has(f, "minimum_denominator", VNum(minimum))
      && "filter_refs" in f && IsTexts(f["filter_refs"], filters)
    case Assign(task, assignee) =>
      && Has(f, "type", VText("assign_investigation"))
      && Has(f, "task_ref", TaskValue(task)) && Has(f, "assignee_ref", VText(assignee))
    case Transition(task, fromStatus, toStatus, reason) =>
      && Has(f, "type", VText("transition_investigation"))
      && Has(f, "task_ref", TaskValue(task)) && Has(f, "from_status", VText(fromStatus))
      && Has(f, "to_status", VText(toStatus)) && Has(f, "reason_code", VText(reason))
    case AddConclusion(task, code, summary) =>
      && Has(f, "type", VText("add_investigation_conclusion"))
      && Has(f, "task_ref", TaskValue(task)) && Has(f, "conclusion_code", VText(code))
      && Has(f, "conclusion_summary", VText(summary))
    case Close(task, conclusion, disposition) =>
      && Has(f, "type", VText("close_investigation"))
      && Has(f, "task_ref", TaskValue(task)) && Has(f, "conclusion_ref", VText(conclusion))
      && Has(f, "risk_disposition", if disposition.None? then VNull else VText(disposition.value))
  }

  predicate IsTexts(v: Value, texts: seq<string>) {
    v.VArr? && |v.items| == |texts| && forall i | 0 <= i < |texts| :: v.items[i] == VText(texts[i])
  }

  predicate IsEvidence(v: Value, refs: seq<EvidenceRef>) {
    v.VArr? && |v.items| == |refs| && forall i | 0 <= i < |refs| :: v.items[i] == EvidenceValue(refs[i])
  }

  // ---- objects of two and three fields ----

  lemma TwoFields(k: string, v: Json, l: string, w: Json)
    requires k != l
    ensures Meaning(Obj(FromPairs([(k, v), (l, w)]))) == VObj(map[k := Meaning(v), l := Meaning(w)])
  {
    hide Meaning;
    var p := [(k, v), (l, w)];
    var one := p[1..];
    assert one == [(l, w)] && one[1..] == [];
    assert FromPairs(one) == Field(l, w, Empty);
    assert FieldMeanings(FromPairs(one)) == map[][l := Meaning(w)];
    assert FromPairs(p) == Field(k, v, FromPairs(one));
    assert map[][l := Meaning(w)][k := Meaning(v)] == map[k := Meaning(v), l := Meaning(w)];
    ObjMeans(FromPairs(p));
  }

  lemma ObjMeans(f: Fields)
    ensures Meaning(Obj(f)) == VObj(FieldMeanings(f))
  {
  }

  lemma ArrMeans(i: Items)
    ensures Meaning(Arr(i)) == VArr(ItemMeanings(i))
  {
  }

  lemma EvidenceIs(e: EvidenceRef)
    ensures Meaning(EvidenceJson(e)) == EvidenceValue(e)
  {
    var p := [("kind", Text(e.kind)), ("ref", Text(e.ref)), ("digest", Text(e.digest))];
    PayloadFields(p);
    ObjMeans(FromPairs(p));
  }

  lemma EvidencesAre(refs: seq<EvidenceRef>)
    ensures IsEvidence(Meaning(Arr(FromList(Evidences(refs)))), refs)
  {
    ListMeans(Evidences(refs));
    ArrMeans(FromList(Evidences(refs)));
    hide Meaning, EvidenceJson, EvidenceValue;
    forall i | 0 <= i < |refs|
      ensures ItemMeanings(FromList(Evidences(refs)))[i] == EvidenceValue(refs[i])
    {
      EvidenceIs(refs[i]);
    }
  }

  lemma TextsAre(texts: seq<string>)
    ensures IsTexts(Meaning(Arr(FromList(Texts(texts)))), texts)
  {
    ListMeans(Texts(texts));
    ArrMeans(FromList(Texts(texts)));
  }

  // ---- the fields of a command ----

  /** Every pair is a field, and every field a pair. */
  lemma PairsAreFields(p: seq<(string, Json)>, f: map<string, Value>)
    requires UniquePairs(p) && f == FieldMeanings(FromPairs(p))
    ensures forall i | 0 <= i < |p| :: Has(f, p[i].0, Meaning(p[i].1))
    ensures forall name :: name in f <==> exists i | 0 <= i < |p| :: p[i].0 == name
  {
    hide Meaning, FieldMeanings, FromPairs, UniquePairs, Keys;
    forall i | 0 <= i < |p|
      ensures Has(f, p[i].0, Meaning(p[i].1))
    {
      PairFound(p, i);
    }
    PairKeys(p);
    KeysMean(FromPairs(p));
  }

  lemma {:induction false} KeysMean(f: Fields)
    ensures FieldMeanings(f).Keys == Keys(f)
  {
    if f.Field? {
      KeysMean(f.rest);
      hide Meaning;
    }
  }

  lemma OwnNames(k: Kind, name: string)
    requires Command(k, [], 0).Valid()
    ensures (exists i | 0 <= i < |KindPairs(k)| :: KindPairs(k)[i].0 == name) <==> name in OwnFields(k)
  {
    hide UtcZ, DecimalText, SellerJson, MetricJson, TaskJson, HitJson, BacktestJson, OptionJson, Texts, FromList, Quantized;
    var p := KindPairs(k);
    assert forall i | 0 <= i < |p| :: p[i].0 in OwnFields(k);
    assert name in OwnFields(k) ==> exists i | 0 <= i < |p| :: p[i].0 == name by {
      match k {
        case OpenSellerRiskCase(_, _, _, _, _, _, _, _, _, _) =>
          assert p[0].0 == "seller_ref" && p[1].0 == "observation_started_at" && p[2].0 == "observation_ended_at";
          assert p[3].0 == "metric_ref" && p[4].0 == "numerator" && p[5].0 == "denominator" && p[6].0 == "observed";
          assert p[7].0 == "threshold" && p[8].0 == "title" && p[9].0 == "priority";
        case CreateTask(_, _, _) => assert p[0].0 == "title" && p[1].0 == "priority" && p[2].0 == "public_summary";
        case CreateFromAlertHit(_, _, _, _) => assert p[0].0 == "alert_hit_ref" && p[1].0 == "title" && p[2].0 == "priority";
        case CreateAlertRule(_, _, _, _, _, _, _, _, _) =>
          assert p[0].0 == "alert_backtest_ref" && p[1].0 == "metric_ref" && p[2].0 == "grain" && p[3].0 == "window";
          assert p[4].0 == "comparator" && p[5].0 == "threshold" && p[6].0 == "minimum_denominator" && p[7].0 == "filter_refs";
        case Assign(_, _) => assert p[0].0 == "task_ref" && p[1].0 == "assignee_ref";
        case Transition(_, _, _, _) =>
          assert p[0].0 == "task_ref" && p[1].0 == "from_status" && p[2].0 == "to_status" && p[3].0 == "reason_code";
        case AddConclusion(_, _, _) =>
          assert p[0].0 == "task_ref" && p[1].0 == "conclusion_code" && p[2].0 == "conclusion_summary";
        case Close(_, _, _) => assert p[0].0 == "task_ref" && p[1].0 == "conclusion_ref" && p[2].0 == "risk_disposition";
      }
    }
  }

  /** The pairs of a variant among the fields of its command. */
  predicate HoldsPairs(p: seq<(string, Json)>, f: map<string, Value>) {
    forall i | 0 <= i < |p| :: Has(f, p[i].0, Meaning(p[i].1))
  }

  lemma RiskPairs(k: Kind)
    requires k.OpenSellerRiskCase? && Command(k, [], 0).Valid()
    ensures var p := KindPairs(k);
      && |p| == 10 && p[0] == ("seller_ref", SellerJson(k.token)) && p[3] == ("metric_ref", MetricJson(k.metric))
      && p[1] == ("observation_started_at", Text(UtcZ(k.startedAt))) && p[2] == ("observation_ended_at", Text(UtcZ(k.endedAt)))
      && p[4] == ("numerator", Num(k.numerator)) && p[5] == ("denominator", Num(k.denominator))
      && p[6] == ("observed", Text(DecimalText(k.observed))) && p[7] == ("threshold", Text(DecimalText(k.threshold)))
      && p[8] == ("title", Text(k.title)) && p[9] == ("priority", Text(k.priority))
  {
    hide UtcZ, DecimalText, MetricJson, SellerJson;
  }

  lemma RiskFields(k: Kind, f: map<string, Value>)
    requires k.OpenSellerRiskCase? && Command(k, [], 0).Valid() && HoldsPairs(KindPairs(k), f)
    requires Has(f, "type", VText(TypeName(k)))
    ensures OwnValues(k, f)
  {
    var p := KindPairs(k);
    RiskPairs(k);
    hide UtcZ, DecimalText, MetricJson, SellerJson, HoldsPairs, KindPairs;
    SellerIs(k.token);
    MetricIs(k.metric);
    HeldAt(p, f, 0);
    HeldAt(p, f, 1);
    HeldAt(p, f, 2);
    HeldAt(p, f, 3);
    HeldAt(p, f, 4);
    HeldAt(p, f, 5);
    HeldAt(p, f, 6);
    HeldAt(p, f, 7);
    HeldAt(p, f, 8);
    HeldAt(p, f, 9);
  }

  lemma HeldAt(p: seq<(string, Json)>, f: map<string, Value>, i: nat)
    requires HoldsPairs(p, f) && i < |p|
    ensures Has(f, p[i].0, Meaning(p[i].1))
  {
  }

  lemma SellerIs(token: string)
    ensures Meaning(SellerJson(token)) == VObj(map["namespace" := VText("product:seller-target"), "token" := VText(token)])
  {
    TwoFields("namespace", Text("product:seller-target"), "token", Text(token));
  }

  lemma MetricIs(m: MetricRef)
    ensures Meaning(MetricJson(m)) == MetricValue(m)
  {
    TwoFields("name", Text(m.name), "revision", Text(m.revision));
  }

  lemma TaskIs(t: TaskRef)
    ensures Meaning(TaskJson(t)) == TaskValue(t)
  {
    TwoFields("task_id", Text(t.id), "version", Num(t.version));
  }

  lemma RuleFields(k: Kind, f: map<string, Value>)
    requires k.CreateAlertRule? && Command(k, [], 0).Valid() && HoldsPairs(KindPairs(k), f)
    requires Has(f, "type", VText(TypeName(k)))
    ensures OwnValues(k, f)
  {
    var p := KindPairs(k);
    hide DecimalText, MetricJson, BacktestJson, FromList, Texts, HoldsPairs, IsTexts;
    assert p[0] == ("alert_backtest_ref", BacktestJson(k.backtest, k.ruleSha)) && p[1] == ("metric_ref", MetricJson(k.metric));
    assert p[2] == ("grain", Text(k.grain)) && p[3] == ("window", Text(k.window)) && p[4] == ("comparator", Text(k.comparator));
    assert p[5] == ("threshold", Text(DecimalText(k.threshold))) && p[6] == ("minimum_denominator", Num(k.minimum));
    assert p[7] == ("filter_refs", Arr(FromList(Texts(k.filters)))) && |p| == 8;
    hide KindPairs;
    BacktestIs(k.backtest, k.ruleSha);
    MetricIs(k.metric);
    TextsAre(k.filters);
    HeldAt(p, f, 0);
    HeldAt(p, f, 1);
    HeldAt(p, f, 2);
    HeldAt(p, f, 3);
    HeldAt(p, f, 4);
    HeldAt(p, f, 5);
    HeldAt(p, f, 6);
    HeldAt(p, f, 7);
  }

  lemma BacktestIs(id: string, sha: string)
    ensures Meaning(BacktestJson(id, sha)) == VObj(map["backtest_id" := VText(id), "rule_spec_sha256" := VText(sha)])
  {
    TwoFields("backtest_id", Text(id), "rule_spec_sha256", Text(sha));
  }

  lemma HitIs(id: string, digest: string)
    ensures Meaning(HitJson(id, digest)) == VObj(map["hit_id" := VText(id), "evidence_digest" := VText(digest)])
  {
    TwoFields("hit_id", Text(id), "evidence_digest", Text(digest));
  }

  lemma OtherFields(k: Kind, f: map<string, Value>)
    requires !k.OpenSellerRiskCase? && !k.CreateAlertRule? && Command(k, [], 0).Valid() && HoldsPairs(KindPairs(k), f)
    requires Has(f, "type", VText(TypeName(k)))
    ensures OwnValues(k, f)
  {
    var p := KindPairs(k);
    hide TaskJson, HitJson, HoldsPairs;
    assert |p| >= 2;
    HeldAt(p, f, 0);
    HeldAt(p, f, 1);
    if |p| > 2 {
      HeldAt(p, f, 2);
    }
    if |p| > 3 {
      HeldAt(p, f, 3);
    }
    if k.Assign? || k.Transition? || k.AddConclusion? || k.Close? {
      TaskIs(k.task);
    }
    if k.CreateFromAlertHit? {
      HitIs(k.hit, k.hitDigest);
    }
  }

  /** The object a command is projected to: its variant's fields and the three common ones, and no others; each holds
      the part of the command it is named for, instants to the second and ratios to four places. */
  lemma CommandFields(c: Command)
    requires c.Valid()
    ensures Meaning(CommandJson(c)).VObj?
    ensures var f := Meaning(CommandJson(c)).fields;
      && f.Keys == OwnFields(c.kind) + {"type", "evidence_refs", "expected_target_version"}
      && OwnValues(c.kind, f)
      && Has(f, "expected_target_version", VNum(c.expected))
      && "evidence_refs" in f && IsEvidence(f["evidence_refs"], c.evidence)
  {
    var p := CommonPairs(c) + KindPairs(c.kind);
    var f := FieldMeanings(FromPairs(p));
    hide KindPairs, FromPairs, FieldMeanings, Evidences, FromList, ItemMeanings, OwnValues, IsEvidence, OwnFields;
    ObjMeans(FromPairs(p));
    CommandUnique(c);
    PairsAreFields(p, f);
    hide UniquePairs;
    EvidencesAre(c.evidence);
    assert p[0] == ("type", Text(TypeName(c.kind))) && p[1] == ("evidence_refs", Arr(FromList(Evidences(c.evidence))));
    assert p[2] == ("expected_target_version", Num(c.expected));
    assert Has(f, p[0].0, Meaning(p[0].1)) && Has(f, p[1].0, Meaning(p[1].1)) && Has(f, p[2].0, Meaning(p[2].1));
    KindHeld(c, f);
    NamesOf(c, f);
    if c.kind.OpenSellerRiskCase? {
      RiskFields(c.kind, f);
    } else if c.kind.CreateAlertRule? {
      RuleFields(c.kind, f);
    } else {
      OtherFields(c.kind, f);
    }
  }

  lemma KindHeld(c: Command, f: map<string, Value>)
    requires c.Valid()
    requires var p := CommonPairs(c) + KindPairs(c.kind); forall i | 0 <= i < |p| :: Has(f, p[i].0, Meaning(p[i].1))
    ensures HoldsPairs(KindPairs(c.kind), f)
  {
    hide KindPairs, Meaning, Has;
    var p, k := CommonPairs(c) + KindPairs(c.kind), KindPairs(c.kind);
    assert forall i | 0 <= i < |k| :: p[i + 3] == k[i];
  }

  lemma NamesOf(c: Command, f: map<string, Value>)
    requires c.Valid()
    requires var p := CommonPairs(c) + KindPairs(c.kind);
      forall name :: name in f <==> exists i | 0 <= i < |p| :: p[i].0 == name
    ensures f.Keys == OwnFields(c.kind) + {"type", "evidence_refs", "expected_target_version"}
  {
    var p, k := CommonPairs(c) + KindPairs(c.kind), KindPairs(c.kind);
    hide KindPairs, OwnFields;
    assert p[0].0 == "type" && p[1].0 == "evidence_refs" && p[2].0 == "expected_target_version";
    assert |p| == |k| + 3 && forall i | 3 <= i < |p| :: p[i] == k[i - 3];
    var common := {"type", "evidence_refs", "expected_target_version"};
    assert common == {p[0].0, p[1].0, p[2].0};
    hide CommonPairs;
    forall name
      ensures name in f <==> name in OwnFields(c.kind) + common
    {
      OwnNames(c.kind, name);
      if i :| 0 <= i < |k| && k[i].0 == name {
        assert p[i + 3].0 == name;
      }
    }
  }

  /** The payload: the command, its schema version, and the target versions under their names. */
  lemma PayloadObject(c: Command, versions: seq<(string, nat)>, schema: nat)
    requires c.Valid() && Dictionary(versions)
    ensures Meaning(PayloadJson(c, versions, schema)) == VObj(map[
      "command" := Meaning(CommandJson(c)), "schema_version" := VNum(schema),
      "target_versions" := VObj(FieldMeanings(FromPairs(VersionPairs(versions))))])
    ensures forall i | 0 <= i < |versions| ::
      Has(FieldMeanings(FromPairs(VersionPairs(versions))), versions[i].0, VNum(versions[i].1))
  {
    var p := PayloadPairs(c, versions, schema);
    hide CommandJson;
    PayloadFields(p);
    ObjMeans(FromPairs(p));
    ObjMeans(FromPairs(VersionPairs(versions)));
    assert UniquePairs(VersionPairs(versions));
    PairsAreFields(VersionPairs(versions), FieldMeanings(FromPairs(VersionPairs(versions))));
    assert forall i | 0 <= i < |versions| :: VersionPairs(versions)[i] == (versions[i].0, Num(versions[i].1));
  }

  /** Commands are valid exactly if their ratios are; instants, counts and texts are not restricted here. */
  lemma ValidExactly(c: Command)
    ensures c.Valid() <==>
      && (c.kind.OpenSellerRiskCase? ==> c.kind.observed <= 1000000 && c.kind.threshold <= 1000000)
      && (c.kind.CreateAlertRule? ==> c.kind.threshold <= 1000000)
  {
  }

  // ---- the roundings ----

  function DigitOf(c: char): int {
    c as int - '0' as int
  }

  /** A ratio is written with four decimals, which read back to its ten-thousandths. */
  lemma DecimalReads(millionths: nat)
    requires millionths <= 1000000
    ensures var t := DecimalText(millionths);
      && |t| == 6 && t[1] == '.'
      && 10000 * DigitOf(t[0]) + 1000 * DigitOf(t[2]) + 100 * DigitOf(t[3]) + 10 * DigitOf(t[4]) + DigitOf(t[5])
           == Quantized(millionths)
  {
    QuantizedClose(millionths);
    var q := Quantized(millionths);
    hide Quantized;
    DigitIs(q / 10000);
    DigitIs(q / 1000 % 10);
    DigitIs(q / 100 % 10);
    DigitIs(q / 10 % 10);
    DigitIs(q % 10);
    Recombined(q);
    hide DigitOf, DigitChar;
  }

  lemma DigitIs(d: nat)
    requires d < 10
    ensures DigitOf(DigitChar(d)) == d
  {
  }

  /** They are the nearest, and at exactly half the even ones. */
  lemma QuantizedNearest(millionths: nat)
    ensures var q := Quantized(millionths);
      && 100 * q - 50 <= millionths <= 100 * q + 50
      && (millionths == 100 * q - 50 || millionths == 100 * q + 50 ==> q % 2 == 0)
  {
  }

  /** An instant is cut to the second it lies in. */
  lemma SecondHolds(micros: int)
    ensures 1000000 * WholeSecond(micros) <= micros < 1000000 * WholeSecond(micros) + 1000000
    ensures UtcZ(micros) == IntText(WholeSecond(micros)) + "Z"
  {
  }
}
