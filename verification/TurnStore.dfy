/** Storage of provider-private assistant turns behind opaque references. */
module TurnStore {
  import opened Common
  import opened ModelContracts

  datatype PrivateTurn = PrivateTurn(
    scope: string, attempt: nat, sequence: nat, payload: string, payloadSha: Digest, expected: seq<string>, weight: nat,
    created: int, lastUsed: int, expires: int)

  datatype StateError = DigestMismatch | SequenceDuplicate | NotFound | BindingMismatch | Expired

  type Turns = map<nat, PrivateTurn>

  /** Seconds: twenty-four hours idle, seven days in all. */
  const IDLE_TTL := 86400
  const ABSOLUTE_TTL := 604800

  predicate SameKey(a: PrivateTurn, b: PrivateTurn) {
    a.scope == b.scope && a.attempt == b.attempt && a.sequence == b.sequence
  }

  predicate OfAttempt(t: PrivateTurn, scope: string, attempt: nat) {
    t.scope == scope && t.attempt == attempt
  }

  function RefOf(id: nat, t: PrivateTurn): TurnRef {
    TurnRef(id, t.scope, t.attempt, t.sequence, t.payloadSha, t.expected, t.weight, t.expires)
  }

  function Save(turns: Turns, t: PrivateTurn, id: nat): Result<Turns, StateError> {
    if Sha256(t.payload) != t.payloadSha then Err(DigestMismatch)
    else if exists other <- turns :: SameKey(turns[other], t) then Err(SequenceDuplicate)
    else Ok(turns[id := t])
  }

  function Resolve(turns: Turns, r: TurnRef, now: int): Result<Turns, StateError> {
    if r.id !in turns then Err(NotFound)
    else
      var t := turns[r.id];
      if RefOf(r.id, t) != r then Err(BindingMismatch)
      else if now >= t.expires || now - t.lastUsed > IDLE_TTL then Err(Expired)
      else Ok(turns[r.id := t.(lastUsed := now)])
  }

  function DeleteAttempt(turns: Turns, scope: string, attempt: nat): Turns {
    map id | id in turns && !OfAttempt(turns[id], scope, attempt) :: turns[id]
  }

  /** No attempt stores two turns under one sequence, and every stored payload matches its digest. */
  ghost predicate Sound(turns: Turns) {
    && (forall a, b | a in turns && b in turns :: SameKey(turns[a], turns[b]) ==> a == b)
    && (forall id <- turns :: Sha256(turns[id].payload) == turns[id].payloadSha)
  }

  lemma SaveKeepsSound(turns: Turns, t: PrivateTurn, id: nat)
    requires Sound(turns) && id !in turns && Save(turns, t, id).Ok?
    ensures Sound(Save(turns, t, id).value)
  {
    var turns' := Save(turns, t, id).value;
    assert forall other <- turns :: !SameKey(turns[other], t) && !SameKey(t, turns[other]);
    assert forall other <- turns :: turns'[other] == turns[other];
  }

  lemma ResolveKeepsSound(turns: Turns, r: TurnRef, now: int)
    requires Sound(turns) && Resolve(turns, r, now).Ok?
    ensures Sound(Resolve(turns, r, now).value) && Resolve(turns, r, now).value.Keys == turns.Keys
  {
    var turns' := Resolve(turns, r, now).value;
    forall a, b | a in turns' && b in turns' && SameKey(turns'[a], turns'[b])
      ensures a == b
    {
      assert SameKey(turns[a], turns[b]);
    }
  }

  /** A saved turn is found again under its reference until it expires or idles too long, whatever is saved
      or resolved in between under other references; a reference altered in any field is refused. */
  lemma SavedResolves(turns: Turns, t: PrivateTurn, id: nat, r: TurnRef, now: int)
    requires id !in turns && Save(turns, t, id).Ok?
    ensures var turns' := Save(turns, t, id).value;
      && (Resolve(turns', RefOf(id, t), now).Ok? <==> now < t.expires && now - t.lastUsed <= IDLE_TTL)
      && (Resolve(turns', RefOf(id, t), now).Ok? ==>
            Resolve(turns', RefOf(id, t), now).value == turns[id := t.(lastUsed := now)])
      && (r.id == id && Resolve(turns', r, now).Ok? ==> r == RefOf(id, t))
      && (r.id != id ==> Resolve(turns', r, now).Ok? == Resolve(turns, r, now).Ok?)
  {
  }

  /** A turn is saved exactly if its payload has its digest and its attempt has no turn of its sequence; the digest
      is asked first. */
  lemma SavesExactly(turns: Turns, t: PrivateTurn, id: nat)
    ensures Save(turns, t, id) == Err(DigestMismatch) <==> t.payloadSha != Sha256(t.payload)
    ensures Save(turns, t, id) == Err(SequenceDuplicate) <==> t.payloadSha == Sha256(t.payload) && exists other <- turns ::
      turns[other].scope == t.scope && turns[other].attempt == t.attempt && turns[other].sequence == t.sequence
    ensures Save(turns, t, id).Ok? ==> Save(turns, t, id).value == turns[id := t]
    ensures Save(turns, t, id).Err? ==> Save(turns, t, id).error in {DigestMismatch, SequenceDuplicate}
  {
    assert forall other <- turns :: SameKey(turns[other], t) <==>
      turns[other].scope == t.scope && turns[other].attempt == t.attempt && turns[other].sequence == t.sequence;
    if exists other <- turns ::
         turns[other].scope == t.scope && turns[other].attempt == t.attempt && turns[other].sequence == t.sequence {
      var other :| other in turns
        && turns[other].scope == t.scope && turns[other].attempt == t.attempt && turns[other].sequence == t.sequence;
      assert SameKey(turns[other], t);
    }
  }

  /** A reference names the turn it was issued for in every field. */
  predicate Names(r: TurnRef, t: PrivateTurn) {
    && r.scope == t.scope && r.attempt == t.attempt && r.sequence == t.sequence && r.payload == t.payloadSha
    && r.expected == t.expected && r.weight == t.weight && r.expires == t.expires
  }

  /** A reference resolves exactly if it names a stored turn that has not expired and was used within a day; only
      its time of use is renewed. */
  lemma ResolvesExactly(turns: Turns, r: TurnRef, now: int)
    ensures Resolve(turns, r, now).Ok? <==>
      r.id in turns && Names(r, turns[r.id]) && now < turns[r.id].expires && now <= turns[r.id].lastUsed + 24 * 60 * 60
    ensures Resolve(turns, r, now) == Err(NotFound) <==> r.id !in turns
    ensures Resolve(turns, r, now) == Err(BindingMismatch) <==> r.id in turns && !Names(r, turns[r.id])
    ensures Resolve(turns, r, now).Ok? ==>
      Resolve(turns, r, now).value == turns[r.id := turns[r.id].(lastUsed := now)]
    ensures Resolve(turns, r, now).Err? ==> Resolve(turns, r, now).error in {NotFound, BindingMismatch, Expired}
  {
  }

  /** Deleting an attempt removes exactly its own turns. */
  lemma DeletesExactly(turns: Turns, scope: string, attempt: nat, id: nat)
    ensures var after := DeleteAttempt(turns, scope, attempt);
      && (id in after <==> id in turns && !(turns[id].scope == scope && turns[id].attempt == attempt))
      && (id in after ==> after[id] == turns[id])
  {
  }

  class InMemoryProviderTurnStore {
    var turns: Turns

    constructor ()
      ensures turns == map[]
    {
      turns := map[];
    }

    method SaveTurn(t: PrivateTurn, id: nat) returns (r: Result<TurnRef, StateError>)
      requires id !in turns
      modifies this
      ensures match Save(old(turns), t, id)
        case Err(e) => r == Err(e) && turns == old(turns)
        case Ok(after) => r == Ok(RefOf(id, t)) && turns == after
    {
      if Sha256(t.payload) != t.payloadSha {
        return Err(DigestMismatch);
      }
      var rest := turns.Keys;
      while rest != {}
        invariant rest <= turns.Keys
        invariant forall other <- turns.Keys - rest :: !SameKey(turns[other], t)
      {
        var other :| other in rest;
        if SameKey(turns[other], t) {
          return Err(SequenceDuplicate);
        }
        rest := rest - {other};
      }
      turns := turns[id := t];
      return Ok(RefOf(id, t));
    }

    method ResolveTurn(ref: TurnRef, now: int) returns (r: Result<PrivateTurn, StateError>)
      modifies this
      ensures match Resolve(old(turns), ref, now)
        case Err(e) => r == Err(e) && turns == old(turns)
        case Ok(after) => turns == after && ref.id in after && r == Ok(after[ref.id])
    {
      if ref.id !in turns {
        return Err(NotFound);
      }
      var t := turns[ref.id];
      if RefOf(ref.id, t) != ref {
        return Err(BindingMismatch);
      }
      if now >= t.expires || now - t.lastUsed > IDLE_TTL {
        return Err(Expired);
      }
      turns := turns[ref.id := t.(lastUsed := now)];
      return Ok(turns[ref.id]);
    }

    /** Deletes the matching turns one by one. */
    method DeleteTurns(scope: string, attempt: nat)
      modifies this
      ensures turns == DeleteAttempt(old(turns), scope, attempt)
    {
      ghost var before := turns;
      var rest := set id | id in turns && OfAttempt(turns[id], scope, attempt);
      while rest != {}
        invariant turns.Keys <= before.Keys
        invariant forall id <- turns :: turns[id] == before[id]
        invariant forall id <- before :: id !in turns ==> OfAttempt(before[id], scope, attempt)
        invariant rest <= turns.Keys
        invariant forall id <- turns :: OfAttempt(turns[id], scope, attempt) <==> id in rest
      {
        var id :| id in rest;
        turns := turns - {id};
        rest := rest - {id};
      }
    }
  }
}
