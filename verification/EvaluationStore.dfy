/** The tables behind the evaluation pipeline, keyed by their primary keys, and the statements that
    change them. A digest is modelled by what it is a digest of. */
module EvaluationStore {
  import opened Names
  import opened Decision
  import opened Canonical
  import opened Evaluation

  // ----- Rows -----

  datatype EvaluationRow = EvaluationRow(policyHash: CanonicalPolicy, verdict: Verdict, createdAt: int)

  /** What an idempotency key is bound to: the policy, state, facts and metadata of a request, as
      their canonical encoding shows them. */
  datatype CanonicalRequest = CanonicalRequest(
    policyHash: CanonicalPolicy,
    state: Value,
    facts: map<Name, Value>,
    metadata: map<Name, Name>)

  datatype KeyRow = KeyRow(request: CanonicalRequest, evaluation: nat, expiresAt: int, createdAt: int)

  datatype Tables = Tables(
    evaluations: map<nat, EvaluationRow>,
    keys: map<Name, KeyRow>,
    snapshots: map<CanonicalPolicy, CanonicalPolicy>)

  const RETENTION_BATCH_SIZE := 500

  // ----- Statements -----

  /** An insert that does nothing when the hash is already there. */
  function WithSnapshot(t: Tables, hash: CanonicalPolicy): Tables {
    if hash in t.snapshots then t else t.(snapshots := t.snapshots[hash := hash])
  }

  /** The transaction that records an evaluation and, when there is a key, the key with it. Both
      are plain inserts: an existing primary key rolls back the whole transaction. */
  function Persisted(t: Tables, id: nat, row: EvaluationRow, key: Name, keyRow: KeyRow): Option<Tables> {
    if id in t.evaluations || (key != EMPTY && key in t.keys) then None
    else if key == EMPTY then Some(t.(evaluations := t.evaluations[id := row]))
    else Some(t.(evaluations := t.evaluations[id := row], keys := t.keys[key := keyRow]))
  }

  /** Some of the keys that had expired at now, at most one batch of them. */
  predicate ExpiredKeys(t: Tables, now: int, gone: set<Name>) {
    |gone| <= RETENTION_BATCH_SIZE && forall k | k in gone :: k in t.keys && t.keys[k].expiresAt < now
  }

  /** Some of the evaluations older than the cutoff, at most one batch of them. */
  predicate ExpiredEvaluations(t: Tables, cutoff: int, found: set<nat>) {
    |found| <= RETENTION_BATCH_SIZE && forall id | id in found :: id in t.evaluations && t.evaluations[id].createdAt < cutoff
  }

  function WithoutKeys(t: Tables, gone: set<Name>): Tables {
    t.(keys := t.keys - gone)
  }

  function WithoutEvaluations(t: Tables, gone: set<nat>): Tables {
    t.(evaluations := t.evaluations - gone)
  }

  /** Feedback points at the evaluation it labels. */
  datatype Feedback = Feedback(evaluation: nat, expectedOutcome: Name)

  function WithoutFeedback(feedback: map<nat, Feedback>, gone: set<nat>): map<nat, Feedback> {
    map f | f in feedback && feedback[f].evaluation !in gone :: feedback[f]
  }

  // ----- What the lookup of a key comes to -----

  datatype Lookup = Unused | Conflict | Replayed(evaluation: nat, row: EvaluationRow)

  /** The three reads of replay when nothing changes in between. */
  function LookUp(t: Tables, key: Name, request: CanonicalRequest, now: int): Lookup {
    if key == EMPTY || key !in t.keys || t.keys[key].expiresAt < now then Unused
    else if t.keys[key].request != request then Conflict
    else if t.keys[key].evaluation !in t.evaluations then Unused
    else Replayed(t.keys[key].evaluation, t.evaluations[t.keys[key].evaluation])
  }

  // ----- The database object -----

  /** LIMIT: all of them when they fit, else any batch of them. */
  method Batch<T(==)>(all: set<T>) returns (batch: set<T>)
    ensures batch <= all && |batch| <= RETENTION_BATCH_SIZE
    ensures |batch| < RETENTION_BATCH_SIZE ==> batch == all
  {
    batch := {};
    var left := all;
    while left != {} && |batch| < RETENTION_BATCH_SIZE
      invariant batch + left == all && batch !! left && |batch| <= RETENTION_BATCH_SIZE
      decreases |left|
    {
      var x :| x in left;
      batch, left := batch + {x}, left - {x};
    }
  }

  /** The statement of a retention pass that the database refuses, if any. */
  datatype Refusal = NoRefusal | AtKeys | AtFind | AtFeedback | AtEvaluations

  /** The operations a retention pass reports on. */
  datatype Operation = IdempotencyRecords | Evaluations | FeedbackRows

  class Database {
    var evaluations: map<nat, EvaluationRow>
    var keys: map<Name, KeyRow>
    var snapshots: map<CanonicalPolicy, CanonicalPolicy>
    var feedback: map<nat, Feedback>

    function Contents(): Tables
      reads this
    {
      Tables(evaluations, keys, snapshots)
    }

    constructor ()
      ensures Contents() == Tables(map[], map[], map[]) && feedback == map[]
    {
      evaluations, keys, snapshots, feedback := map[], map[], map[], map[];
    }

    method Replay(key: Name, request: CanonicalRequest, now: int) returns (r: Lookup)
      ensures r == LookUp(Contents(), key, request, now)
    {
      r := Unused;
      if key != EMPTY && key in keys {
        var record := keys[key];
        if record.expiresAt >= now {
          if record.request != request {
            r := Conflict;
          } else if record.evaluation in evaluations {
            r := Replayed(record.evaluation, evaluations[record.evaluation]);
          }
        }
      }
    }

    method EnsureSnapshot(hash: CanonicalPolicy)
      modifies this`snapshots
      ensures Contents() == WithSnapshot(old(Contents()), hash)
    {
      if hash !in snapshots {
        snapshots := snapshots[hash := hash];
      }
    }

    /** The evaluation goes in first; if the key then turns out to be taken, it comes out again. */
    method Persist(id: nat, row: EvaluationRow, key: Name, keyRow: KeyRow) returns (ok: bool)
      modifies this`evaluations, this`keys
      ensures var after := Persisted(old(Contents()), id, row, key, keyRow);
              ok == after.Some? && Contents() == if ok then after.value else old(Contents())
      ensures ok <==> id !in old(evaluations) && (key == EMPTY || key !in old(keys))
      ensures evaluations == if ok then old(evaluations)[id := row] else old(evaluations)
      ensures keys == if ok && key != EMPTY then old(keys)[key := keyRow] else old(keys)
    {
      var before := evaluations;
      ok := id !in evaluations;
      if ok {
        evaluations := evaluations[id := row];
        if key != EMPTY {
          if key in keys {
            evaluations := before;
            ok := false;
          } else {
            keys := keys[key := keyRow];
          }
        }
      }
    }

    /** Deletes one batch of keys that had expired at now; which ones is the database's choice. */
    method ExpireIdempotency(now: int, refusal: Refusal) returns (removed: nat, ok: bool, ghost gone: set<Name>)
      modifies this`keys
      ensures ok <==> !refusal.AtKeys?
      ensures ExpiredKeys(old(Contents()), now, gone) && Contents() == WithoutKeys(old(Contents()), gone) && removed == |gone|
      ensures ok && removed < RETENTION_BATCH_SIZE ==> forall k | k in keys :: keys[k].expiresAt >= now
      ensures gone <= old(keys).Keys && removed == |old(keys)| - |keys|
      ensures forall k :: k in keys <==> k in old(keys) && k !in gone
      ensures forall k | k in keys :: keys[k] == old(keys)[k]
    {
      removed, ok, gone := 0, !refusal.AtKeys?, {};
      assert keys - gone == keys;
      if ok {
        var batch := Batch(set k | k in keys && keys[k].expiresAt < now);
        gone, removed := batch, |batch|;
        keys := keys - batch;
      }
    }

    /** Finds one batch of evaluations older than the cutoff, deletes the feedback on them, then the
        evaluations themselves, each by ID. A refused statement leaves what came before it done. */
    method ExpireEvaluations(cutoff: int, refusal: Refusal)
      returns (removed: nat, labels: nat, ok: bool, ghost found: set<nat>)
      modifies this`evaluations, this`feedback
      ensures ExpiredEvaluations(old(Contents()), cutoff, found)
      ensures ok <==> !refusal.AtFind? && (found == {} || (!refusal.AtFeedback? && !refusal.AtEvaluations?))
      ensures feedback == (if ok || refusal.AtEvaluations? then WithoutFeedback(old(feedback), found) else old(feedback))
      ensures Contents() == WithoutEvaluations(old(Contents()), if ok then found else {})
      ensures removed == (if ok then |found| else 0) && labels == |old(feedback)| - |feedback|
      ensures ok && removed < RETENTION_BATCH_SIZE ==> forall id | id in evaluations :: evaluations[id].createdAt >= cutoff
      ensures forall f :: f in feedback <==> f in old(feedback) && (refusal.AtFeedback? || old(feedback)[f].evaluation !in found)
      ensures forall f | f in feedback :: feedback[f] == old(feedback)[f]
      ensures forall id :: id in evaluations <==> id in old(evaluations) && !(ok && id in found)
      ensures forall id | id in evaluations :: evaluations[id] == old(evaluations)[id]
    {
      removed, labels, ok, found := 0, 0, !refusal.AtFind?, {};
      assert evaluations - found == evaluations && WithoutFeedback(feedback, found) == feedback;
      if ok {
        var ids := Batch(set id | id in evaluations && evaluations[id].createdAt < cutoff);
        found := ids;
        if ids != {} {
          ok := !refusal.AtFeedback?;
          if ok {
            var left := WithoutFeedback(feedback, ids);
            labels := FeedbackRemoved(feedback, ids);
            feedback := left;
            ok := !refusal.AtEvaluations?;
            if ok {
              evaluations := evaluations - ids;
              removed := |ids|;
            }
          }
        }
        assert !ok ==> evaluations - {} == evaluations;
      }
    }

    /** One cleanup pass: keys by their own expiry, then evaluations by age when a window is set. It
        reports what each statement that was reached removed, and stops at a refused one. */
    method Cleanup(now: int, window: int, refusal: Refusal)
      returns (deleted: map<Operation, nat>, ok: bool, ghost goneKeys: set<Name>, ghost found: set<nat>)
      modifies this`keys, this`evaluations, this`feedback
      ensures ok <==> !refusal.AtKeys? &&
                      (window <= 0 || (!refusal.AtFind? && (found == {} || (!refusal.AtFeedback? && !refusal.AtEvaluations?))))
      ensures ExpiredKeys(old(Contents()), now, goneKeys)
      ensures ExpiredEvaluations(WithoutKeys(old(Contents()), goneKeys), now - window, found)
      ensures window <= 0 || refusal.AtKeys? ==> found == {}
      ensures var swept := WithoutKeys(old(Contents()), goneKeys);
              Contents() == if ok then WithoutEvaluations(swept, found) else swept
      ensures feedback == (if ok || refusal.AtEvaluations? then WithoutFeedback(old(feedback), found) else old(feedback))
      ensures deleted == if refusal.AtKeys? || window <= 0 then map[IdempotencyRecords := |goneKeys|]
                         else map[IdempotencyRecords := |goneKeys|, Evaluations := if ok then |found| else 0,
                                  FeedbackRows := |old(feedback)| - |feedback|]
      ensures forall f :: f in feedback <==> f in old(feedback) && (refusal.AtFeedback? || old(feedback)[f].evaluation !in found)
      ensures forall f | f in feedback :: feedback[f] == old(feedback)[f]
      ensures forall k :: k in keys <==> k in old(keys) && k !in goneKeys
      ensures forall k | k in keys :: keys[k] == old(keys)[k]
      ensures forall id :: id in evaluations <==> id in old(evaluations) && !(ok && id in found)
      ensures forall id | id in evaluations :: evaluations[id] == old(evaluations)[id]
    {
      hide ExpiredKeys, WithoutKeys, WithoutEvaluations, WithoutFeedback;
      var removed, labels;
      removed, ok, goneKeys := ExpireIdempotency(now, refusal);
      deleted, found := map[IdempotencyRecords := removed], {};
      NothingGone(Contents(), feedback);
      if ok && window > 0 {
        removed, labels, ok, found := ExpireEvaluations(now - window, refusal);
        deleted := deleted[Evaluations := removed][FeedbackRows := labels];
      }
    }
  }

  /** How many labels a deletion by evaluation ID affects. */
  function FeedbackRemoved(feedback: map<nat, Feedback>, gone: set<nat>): (n: nat)
    ensures n == |feedback| - |WithoutFeedback(feedback, gone)|
  {
    var hit := set f | f in feedback && feedback[f].evaluation in gone;
    assert WithoutFeedback(feedback, gone).Keys == feedback.Keys - hit;
    assert feedback.Keys == hit + (feedback.Keys - hit);
    |hit|
  }

  lemma NothingGone(t: Tables, feedback: map<nat, Feedback>)
    ensures WithoutEvaluations(t, {}) == t && WithoutFeedback(feedback, {}) == feedback
  {
    assert t.evaluations - {} == t.evaluations;
  }
}
