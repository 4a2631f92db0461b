/** The canonical payload of an operation command: its field table, its roundings and its digest's input. */
module CanonicalCommand {
  import opened Common
  import opened JsonText
  import opened CanonicalJson

  datatype EvidenceRef = EvidenceRef(kind: string, ref: string, digest: string)

  datatype MetricRef = MetricRef(name: string, revision: string)

  datatype TaskRef = TaskRef(id: string, version: nat)

  /** The command variants; instants are microseconds, ratios are millionths (six places, in 0..1). */
  datatype Kind =
    | OpenSellerRiskCase(
        token: string, startedAt: int, endedAt: int, metric: MetricRef, numerator: nat, denominator: nat,
        observed: nat, threshold: nat, title: string, priority: string)
    | CreateTask(title: string, priority: string, summary: string)
    | CreateFromAlertHit(hit: string, hitDigest: string, title: string, priority: string)
    | CreateAlertRule(
        backtest: string, ruleSha: string, metric: MetricRef, grain: string, window: string, comparator: string,
        threshold: nat, minimum: nat, filters: seq<string>)
    | Assign(task: TaskRef, assignee: string)
    | Transition(task: TaskRef, fromStatus: string, toStatus: string, reason: string)
    | AddConclusion(task: TaskRef, code: string, summary: string)
    | Close(task: TaskRef, conclusion: string, disposition: Option<string>)

  datatype Command = Command(kind: Kind, evidence: seq<EvidenceRef>, expected: nat)
  {
    predicate Valid() {
      match kind
      case OpenSellerRiskCase(_, _, _, _, _, _, observed, threshold, _, _) => observed <= 1000000 && threshold <= 1000000
      case CreateAlertRule(_, _, _, _, _, _, threshold, _, _) => threshold <= 1000000
      case CreateTask(_, _, _) => true
      case CreateFromAlertHit(_, _, _, _) => true
      case Assign(_, _) => true
      case Transition(_, _, _, _) => true
      case AddConclusion(_, _, _) => true
      case Close(_, _, _) => true
    }
  }

  // ---- four decimal places ----

  /** Quantising to four places, ties to the even neighbour. */
  function Quantized(millionths: nat): nat {
    var q, r := millionths / 100, millionths % 100;
    if r < 50 || (r == 50 && q % 2 == 0) then q else q + 1
  }

  function DecimalText(millionths: nat): string
    requires millionths <= 1000000
  {
    var q := Quantized(millionths);
    [DigitChar(q / 10000), '.', DigitChar(q / 1000 % 10), DigitChar(q / 100 % 10), DigitChar(q / 10 % 10), DigitChar(q % 10)]
  }

  // ---- projection ----

  function FromPairs(pairs: seq<(string, Json)>): Fields {
    if pairs == [] then Empty else Field(pairs[0].0, pairs[0].1, FromPairs(pairs[1..]))
  }

  function FromList(items: seq<Json>): Items {
    if items == [] then Nil else Item(items[0], FromList(items[1..]))
  }

  function EvidenceJson(e: EvidenceRef): Json {
    Obj(FromPairs([("kind", Text(e.kind)), ("ref", Text(e.ref)), ("digest", Text(e.digest))]))
  }

  function MetricJson(m: MetricRef): Json {
    Obj(FromPairs([("name", Text(m.name)), ("revision", Text(m.revision))]))
  }

  function SellerJson(token: string): Json {
    Obj(FromPairs([("namespace", Text("product:seller-target")), ("token", Text(token))]))
  }

  function TaskJson(t: TaskRef): Json {
    Obj(FromPairs([("task_id", Text(t.id)), ("version", Num(t.version))]))
  }

  function HitJson(id: string, digest: string): Json {
    Obj(FromPairs([("hit_id", Text(id)), ("evidence_digest", Text(digest))]))
  }

  function BacktestJson(id: string, sha: string): Json {
    Obj(FromPairs([("backtest_id", Text(id)), ("rule_spec_sha256", Text(sha))]))
  }

  function OptionJson(t: Option<string>): Json {
    if t.None? then Null else Text(t.value)
  }

  function TypeName(k: Kind): string {
    match k
    case OpenSellerRiskCase(_, _, _, _, _, _, _, _, _, _) => "open_seller_risk_case"
    case CreateTask(_, _, _) => "create_investigation_task"
    case CreateFromAlertHit(_, _, _, _) => "create_investigation_from_alert_hit"
    case CreateAlertRule(_, _, _, _, _, _, _, _, _) => "create_and_enable_metric_alert_rule"
    case Assign(_, _) => "assign_investigation"
    case Transition(_, _, _, _) => "transition_investigation"
    case AddConclusion(_, _, _) => "add_investigation_conclusion"
    case Close(_, _, _) => "close_investigation"
  }

  /** The variant's own rows of the field table, with what each projects to. */
  function KindPairs(k: Kind): seq<(string, Json)>
    requires Command(k, [], 0).Valid()
  {
    match k
    case OpenSellerRiskCase(token, startedAt, endedAt, metric, numerator, denominator, observed, threshold, title, priority) =>
      [("seller_ref", SellerJson(token)), ("observation_started_at", Text(UtcZ(startedAt))),
       ("observation_ended_at", Text(UtcZ(endedAt))), ("metric_ref", MetricJson(metric)), ("numerator", Num(numerator)),
       ("denominator", Num(denominator)), ("observed", Text(DecimalText(observed))),
       ("threshold", Text(DecimalText(threshold))), ("title", Text(title)), ("priority", Text(priority))]
    case CreateTask(title, priority, summary) =>
      [("title", Text(title)), ("priority", Text(priority)), ("public_summary", Text(summary))]
    case CreateFromAlertHit(hit, hitDigest, title, priority) =>
      [("alert_hit_ref", HitJson(hit, hitDigest)), ("title", Text(title)), ("priority", Text(priority))]
    case CreateAlertRule(backtest, ruleSha, metric, grain, window, comparator, threshold, minimum, filters) =>
      [("alert_backtest_ref", BacktestJson(backtest, ruleSha)), ("metric_ref", MetricJson(metric)), ("grain", Text(grain)),
       ("window", Text(window)), ("comparator", Text(comparator)), ("threshold", Text(DecimalText(threshold))),
       ("minimum_denominator", Num(minimum)), ("filter_refs", Arr(FromList(Texts(filters))))]
    case Assign(task, assignee) => [("task_ref", TaskJson(task)), ("assignee_ref", Text(assignee))]
    case Transition(task, fromStatus, toStatus, reason) =>
      [("task_ref", TaskJson(task)), ("from_status", Text(fromStatus)), ("to_status", Text(toStatus)), ("reason_code", Text(reason))]
    case AddConclusion(task, code, summary) =>
      [("task_ref", TaskJson(task)), ("conclusion_code", Text(code)), ("conclusion_summary", Text(summary))]
    case Close(task, conclusion, disposition) =>
      [("task_ref", TaskJson(task)), ("conclusion_ref", Text(conclusion)), ("risk_disposition", OptionJson(disposition))]
  }

  function Texts(s: seq<string>): seq<Json> {
    seq(|s|, i requires 0 <= i < |s| => Text(s[i]))
  }

  function Evidences(s: seq<EvidenceRef>): seq<Json> {
    seq(|s|, i requires 0 <= i < |s| => EvidenceJson(s[i]))
  }

  function CommonPairs(c: Command): seq<(string, Json)> {
    [("type", Text(TypeName(c.kind))), ("evidence_refs", Arr(FromList(Evidences(c.evidence)))),
     ("expected_target_version", Num(c.expected))]
  }

  function CommandJson(c: Command): Json
    requires c.Valid()
  {
    Obj(FromPairs(CommonPairs(c) + KindPairs(c.kind)))
  }

  /** The target versions, a dictionary given by its entries. */
  function VersionPairs(versions: seq<(string, nat)>): seq<(string, Json)> {
    seq(|versions|, i requires 0 <= i < |versions| => (versions[i].0, Num(versions[i].1)))
  }

  predicate Dictionary(versions: seq<(string, nat)>) {
    forall i, j | 0 <= i < j < |versions| :: versions[i].0 != versions[j].0
  }

  function PayloadJson(c: Command, versions: seq<(string, nat)>, schema: nat): Json
    requires c.Valid()
  {
    Obj(FromPairs([("command", CommandJson(c)), ("schema_version", Num(schema)),
                   ("target_versions", Obj(FromPairs(VersionPairs(versions))))]))
  }

  /** The canonical bytes, as text; their SHA-256 is what approvals and grants bind. */
  function Payload(c: Command, versions: seq<(string, nat)>, schema: nat): string
    requires c.Valid()
  {
    Print(PayloadJson(c, versions, schema))
  }

  /** What the payload keeps of a command: instants to the second, ratios to four places. */
  function Rounded(k: Kind): Kind {
    match k
    case OpenSellerRiskCase(token, startedAt, endedAt, metric, numerator, denominator, observed, threshold, title, priority) =>
      OpenSellerRiskCase(token, WholeSecond(startedAt), WholeSecond(endedAt), metric, numerator, denominator,
        Quantized(observed), Quantized(threshold), title, priority)
    case CreateAlertRule(backtest, ruleSha, metric, grain, window, comparator, threshold, minimum, filters) =>
      CreateAlertRule(backtest, ruleSha, metric, grain, window, comparator, Quantized(threshold), minimum, filters)
    case CreateTask(_, _, _) => k
    case CreateFromAlertHit(_, _, _, _) => k
    case Assign(_, _) => k
    case Transition(_, _, _, _) => k
    case AddConclusion(_, _, _) => k
    case Close(_, _, _) => k
  }
}
