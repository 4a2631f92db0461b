/** The in-memory evaluation store: attempts, results and experiment identities. */
module EvaluationStore {
  import opened Common

  datatype Status = Pending | Running | Succeeded | Failed | InfrastructureError | Interrupted

  /** A task in one interaction mode. */
  datatype Episode = Episode(task: string, mode: char)

  datatype Attempt = Attempt(
    id: nat, run: nat, experiment: string, episode: Episode, number: nat, status: Status, errorClass: Option<string>)

  datatype Outcome = Outcome(status: Status, errorClass: Option<string>, result: Option<nat>)

  datatype Evaluations = Evaluations(
    experiments: map<string, (string, string)>,
    attempts: map<nat, Attempt>,
    results: map<nat, nat>)

  datatype Conflict =
    | ExperimentIdentity
    | AttemptIdentity
    | AttemptSequence
    | StatusTransition
    | SucceededWithError
    | ResultNeedsSuccess
    | ResultRecorded

  const EMPTY := Evaluations(map[], map[], map[])

  predicate IsTerminal(s: Status) {
    s == Succeeded || s == Failed
  }

  /** Attempts of one task and mode of one experiment. */
  predicate Of(a: Attempt, experiment: string, episode: Episode) {
    a.experiment == experiment && a.episode == episode
  }

  function Register(v: Evaluations, a: Attempt): Result<Evaluations, Conflict> {
    if a.id in v.attempts then Err(AttemptIdentity)
    else if exists id <- v.attempts :: SameSlot(v.attempts[id], a) then Err(AttemptSequence)
    else Ok(v.(attempts := v.attempts[a.id := a]))
  }

  /** The uniqueness the store checks is per run, not per experiment. */
  predicate SameSlot(a: Attempt, b: Attempt) {
    a.run == b.run && a.episode == b.episode && a.number == b.number
  }

  function MarkRunning(v: Evaluations, id: nat): Result<Evaluations, Conflict> {
    if id !in v.attempts || v.attempts[id].status != Pending then Err(StatusTransition)
    else Ok(v.(attempts := v.attempts[id := v.attempts[id].(status := Running)]))
  }

  /** The transition and the public result are written together, or not at all. */
  function Finish(v: Evaluations, id: nat, o: Outcome): Result<Evaluations, Conflict> {
    if id !in v.attempts || v.attempts[id].status != Running then Err(StatusTransition)
    else if o.errorClass.Some? && o.status == Succeeded then Err(SucceededWithError)
    else if o.result.Some? && o.status != Succeeded then Err(ResultNeedsSuccess)
    else if o.result.Some? && id in v.results then Err(ResultRecorded)
    else
      var finished := v.attempts[id].(status := o.status, errorClass := o.errorClass);
      Ok(v.(attempts := v.attempts[id := finished],
            results := if o.result.Some? then v.results[id := o.result.value] else v.results))
  }

  /** Tasks with a succeeded or failed attempt. */
  function CompletedTasks(v: Evaluations, experiment: string): set<Episode> {
    set id | id in v.attempts && v.attempts[id].experiment == experiment && IsTerminal(v.attempts[id].status)
      :: v.attempts[id].episode
  }

  /** What `unfinished_attempts` answers: for each task that has attempts but is not completed, an
      attempt with the highest number. */
  ghost predicate IsUnfinished(v: Evaluations, experiment: string, latest: map<Episode, Attempt>) {
    && (forall e <- latest ::
          && e !in CompletedTasks(v, experiment)
          && latest[e].id in v.attempts && v.attempts[latest[e].id] == latest[e]
          && Of(latest[e], experiment, e))
    && (forall id <- v.attempts ::
          var a := v.attempts[id];
          a.experiment == experiment && a.episode !in CompletedTasks(v, experiment) ==>
            a.episode in latest && a.number <= latest[a.episode].number)
  }

  class InMemoryEvaluationStore {
    var experiments: map<string, (string, string)>
    var attempts: map<nat, Attempt>
    var results: map<nat, nat>

    function Contents(): Evaluations
      reads this
    {
      Evaluations(experiments, attempts, results)
    }

    /** Every record is filed under its own id; kept by all the methods below. */
    ghost predicate Keyed()
      reads this
    {
      forall id <- attempts :: attempts[id].id == id
    }

    constructor ()
      ensures Contents() == EMPTY
    {
      experiments, attempts, results := map[], map[], map[];
    }

    method RegisterExperiment(id: string, purpose: string, configHash: string) returns (r: Result<(), Conflict>)
      modifies `experiments
      ensures r.Err? <==> id in old(experiments) && old(experiments)[id] != (purpose, configHash)
      ensures experiments == if r.Err? then old(experiments) else old(experiments)[id := (purpose, configHash)]
    {
      if id in experiments {
        if experiments[id] != (purpose, configHash) {
          return Err(ExperimentIdentity);
        }
        return Ok(());
      }
      experiments := experiments[id := (purpose, configHash)];
      return Ok(());
    }

    method RegisterAttempt(a: Attempt) returns (r: Result<(), Conflict>)
      modifies `attempts
      ensures match Register(old(Contents()), a)
        case Err(e) => r == Err(e) && attempts == old(attempts)
        case Ok(v) => r.Ok? && Contents() == v
    {
      if a.id in attempts {
        return Err(AttemptIdentity);
      }
      var rest := attempts.Keys;
      while rest != {}
        invariant rest <= attempts.Keys
        invariant forall id <- attempts.Keys - rest :: !SameSlot(attempts[id], a)
      {
        var id :| id in rest;
        if SameSlot(attempts[id], a) {
          return Err(AttemptSequence);
        }
        rest := rest - {id};
      }
      attempts := attempts[a.id := a];
      return Ok(());
    }

    method MarkAttemptRunning(id: nat) returns (r: Result<(), Conflict>)
      modifies `attempts
      ensures match MarkRunning(old(Contents()), id)
        case Err(e) => r == Err(e) && attempts == old(attempts)
        case Ok(v) => r.Ok? && Contents() == v
    {
      if id !in attempts || attempts[id].status != Pending {
        return Err(StatusTransition);
      }
      attempts := attempts[id := attempts[id].(status := Running)];
      return Ok(());
    }

    method FinishAttempt(id: nat, o: Outcome) returns (r: Result<(), Conflict>)
      modifies `attempts, `results
      ensures match Finish(old(Contents()), id, o)
        case Err(e) => r == Err(e) && attempts == old(attempts) && results == old(results)
        case Ok(v) => r.Ok? && Contents() == v
    {
      if id !in attempts || attempts[id].status != Running {
        return Err(StatusTransition);
      }
      if o.errorClass.Some? && o.status == Succeeded {
        return Err(SucceededWithError);
      }
      if o.result.Some? && o.status != Succeeded {
        return Err(ResultNeedsSuccess);
      }
      if o.result.Some? && id in results {
        return Err(ResultRecorded);
      }
      attempts := attempts[id := attempts[id].(status := o.status, errorClass := o.errorClass)];
      if o.result.Some? {
        results := results[id := o.result.value];
      }
      return Ok(());
    }

    /** The loop keeps, per task not completed, the attempt with the highest number seen so far. */
    method UnfinishedAttempts(experiment: string) returns (latest: map<Episode, Attempt>)
      requires Keyed()
      ensures IsUnfinished(Contents(), experiment, latest)
    {
      var completed := CompletedTasks(Contents(), experiment);
      latest := map[];
      var rest := attempts.Keys;
      while rest != {}
        invariant rest <= attempts.Keys
        invariant forall e <- latest ::
          && e !in completed
          && latest[e].id in attempts && attempts[latest[e].id] == latest[e]
          && Of(latest[e], experiment, e)
        invariant forall id <- attempts.Keys - rest ::
          var a := attempts[id];
          a.experiment == experiment && a.episode !in completed ==>
            a.episode in latest && a.number <= latest[a.episode].number
      {
        var id :| id in rest;
        rest := rest - {id};
        var a := attempts[id];
        if a.experiment == experiment && a.episode !in completed {
          if a.episode !in latest || a.number > latest[a.episode].number {
            latest := latest[a.episode := a];
          }
        }
      }
    }
  }
}
