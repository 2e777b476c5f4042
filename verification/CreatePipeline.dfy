/** One Create call executed from end to end on the database object, and the run of the interleaved
    model that it is. */
module CreatePipeline {
  import opened Names
  import opened Decision
  import opened PolicyTheorems
  import opened Evaluation
  import opened EvaluationStore
  import opened Idempotency
  import opened IdempotencyCounterexamples

  /** Only this call and the clock move. */
  ghost predicate Alone(steps: seq<Step>, c: nat) {
    forall a | a in steps :: a.Tick? || (a.Arrive? && a.call == c) || (a.OfCall? && a.call == c)
  }

  lemma Then(g: Settings, s: State, steps: seq<Step>, t: State, c: nat, a: Step) returns (more: seq<Step>, u: State)
    requires Runs(g, s, steps, t) && Alone(steps, c) && Enabled(g, t, a)
    requires a.Tick? || (a.Arrive? && a.call == c) || (a.OfCall? && a.call == c)
    ensures Runs(g, s, more, u) && Alone(more, c) && u == Apply(g, t, a)
  {
    hide Runs, Apply, Enabled;
    RunsOn(g, s, steps, t, a);
    more, u := steps + [a], Apply(g, t, a);
  }

  lemma Moved(g: Settings, s: State, steps: seq<Step>, t: State, c: nat, a: CallStep) returns (more: seq<Step>, u: State)
    requires Runs(g, s, steps, t) && Alone(steps, c) && c in t.calls && CallEnabled(t.calls[c].pc, a)
    requires !a.RecordSnapshot? && !a.BeginDecision? && !a.CommitTransaction?
    ensures Runs(g, s, more, u) && Alone(more, c)
    ensures u == t.(calls := t.calls[c := t.calls[c].(pc := NextPc(g, t, t.calls[c], a))])
  {
    hide Runs, NextPc;
    more, u := Then(g, s, steps, t, c, OfCall(c, a));
  }

  function AfterLookup(found: Lookup): Pc {
    match found
    case Unused => Snapshotting
    case Conflict => Finished(Conflicted)
    case Replayed(id, row) => Finished(Responded(id, row, true))
  }

  /** The lookup of an undisturbed call, from its arrival on. */
  lemma LookupRuns(g: Settings, s: State, c: nat, r: Request, lookupAt: int) returns (steps: seq<Step>, t: State)
    requires c !in s.calls && Admissible(r) && s.clock <= lookupAt
    ensures Runs(g, s, steps, t) && Alone(steps, c)
    ensures t == s.(clock := lookupAt,
                    calls := s.calls[c := Call(r, CanonicalOf(r), AfterLookup(LookUp(s.tables, r.key, CanonicalOf(r), lookupAt)))])
  {
    hide Runs, Admissible, CanonicalOf, DecisionOf, Persisted;
    steps, t := Arrived(g, s, c, r, lookupAt);
    steps, t := Moved(g, s, steps, t, c, ReadKey);
    if t.calls[c].pc.Checking? {
      steps, t := Checked(g, s, steps, t, c);
    }
  }

  /** The reads after a key record was found. */
  lemma Checked(g: Settings, s: State, steps: seq<Step>, t: State, c: nat) returns (more: seq<Step>, u: State)
    requires Runs(g, s, steps, t) && Alone(steps, c) && c in t.calls && t.calls[c].pc.Checking?
    ensures Runs(g, s, more, u) && Alone(more, c)
    ensures var record := t.calls[c].pc.record;
            var pc := if record.expiresAt < t.clock then Snapshotting
                      else if record.request != t.calls[c].canonical then Finished(Conflicted)
                      else if record.evaluation !in t.tables.evaluations then Snapshotting
                      else Finished(Responded(record.evaluation, t.tables.evaluations[record.evaluation], true));
            u == t.(calls := t.calls[c := t.calls[c].(pc := pc)])
  {
    hide Runs, DecisionOf, Persisted;
    more, u := Moved(g, s, steps, t, c, CheckKey);
    if u.calls[c].pc.Fetching? {
      more, u := Moved(g, s, more, u, c, FetchEvaluation);
    }
  }

  lemma Arrived(g: Settings, s: State, c: nat, r: Request, lookupAt: int) returns (steps: seq<Step>, t: State)
    requires c !in s.calls && Admissible(r) && s.clock <= lookupAt
    ensures Runs(g, s, steps, t) && Alone(steps, c)
    ensures t == s.(clock := lookupAt, calls := s.calls[c := Call(r, CanonicalOf(r), Looking)])
  {
    assert Runs(g, s, [], s);
    hide Runs, Admissible, CanonicalOf;
    steps, t := Then(g, s, [], s, c, Arrive(c, r));
    steps, t := Then(g, s, steps, t, c, Tick(lookupAt));
  }

  /** From a key found unused to the end of the decision. */
  lemma DecisionRuns(g: Settings, s: State, steps: seq<Step>, t: State, c: nat, reply: Reply, startedAt: int)
    returns (more: seq<Step>, u: State)
    requires Runs(g, s, steps, t) && Alone(steps, c) && c in t.calls && t.calls[c].pc == Snapshotting && t.clock <= startedAt
    ensures Runs(g, s, more, u) && Alone(more, c)
    ensures var call := t.calls[c];
            var pc := match DecisionOf(call.request.policy, call.request.facts, reply)
                      case Recorded(v) => Persisting(t.nextID, EvaluationRow(call.canonical.policyHash, v, startedAt), reply)
                      case _ => Finished(Errored);
            u == t.(clock := startedAt, nextID := t.nextID + 1, tables := WithSnapshot(t.tables, call.canonical.policyHash),
                    calls := t.calls[c := call.(pc := pc)])
  {
    hide Runs, DecisionOf;
    more, u := Then(g, s, steps, t, c, OfCall(c, RecordSnapshot));
    more, u := Then(g, s, more, u, c, Tick(startedAt));
    more, u := Begun(g, s, more, u, c);
    more, u := Moved(g, s, more, u, c, EndDecision(reply));
  }

  lemma Begun(g: Settings, s: State, steps: seq<Step>, t: State, c: nat) returns (more: seq<Step>, u: State)
    requires Runs(g, s, steps, t) && Alone(steps, c) && c in t.calls && t.calls[c].pc == Starting
    ensures Runs(g, s, more, u) && Alone(more, c)
    ensures u == t.(nextID := t.nextID + 1, calls := t.calls[c := t.calls[c].(pc := Deciding(t.nextID, t.clock))])
  {
    hide Runs;
    more, u := Then(g, s, steps, t, c, OfCall(c, BeginDecision));
  }

  /** The transaction, at its own time. */
  lemma CommitRuns(g: Settings, s: State, steps: seq<Step>, t: State, c: nat, committedAt: int) returns (more: seq<Step>, u: State)
    requires Runs(g, s, steps, t) && Alone(steps, c) && c in t.calls && t.calls[c].pc.Persisting? && t.clock <= committedAt
    ensures Runs(g, s, more, u) && Alone(more, c) && c in u.calls
    ensures var call, pc := t.calls[c], t.calls[c].pc;
            var after := Persisted(t.tables, pc.id, pc.row, call.request.key,
                                   KeyRow(call.canonical, pc.id, committedAt + g.keyRetention, committedAt));
            && u.tables == (if after.Some? then after.value else t.tables)
            && u.calls[c] == call.(pc := Finished(if after.Some? then Responded(pc.id, pc.row, false) else Errored))
  {
    hide Runs;
    more, u := Then(g, s, steps, t, c, Tick(committedAt));
    more, u := Moved(g, s, more, u, c, ReadCommitClock);
    hide Persisted;
    more, u := Then(g, s, more, u, c, OfCall(c, CommitTransaction));
  }

  /** Every fact and every metadata key, in sorted order. */
  method ValidateShape(r: Request) returns (ok: bool)
    ensures ok <==> ShapeAccepted(r)
  {
    var names := SortedNames(r.facts.Keys);
    var i := 0;
    ok := true;
    while i < |names| && ok
      invariant i <= |names|
      invariant ok ==> forall j | 0 <= j < i :: IsFactName(names[j]) && KindOf(r.facts[names[j]]) != NoScalar
      invariant !ok ==> !ShapeAccepted(r)
    {
      ok := IsFactName(names[i]) && KindOf(r.facts[names[i]]) != NoScalar;
      i := i + 1;
    }
    if ok {
      assert forall n | n in r.facts :: n in names;
      ok := ValidateMetadata(r.metadata);
    }
  }

  method ValidateMetadata(metadata: map<Name, Name>) returns (ok: bool)
    ensures ok <==> forall k | k in metadata :: IsFactName(k)
  {
    var names := SortedNames(metadata.Keys);
    ok := true;
    for i := 0 to |names|
      invariant ok <==> forall j | 0 <= j < i :: IsFactName(names[j])
    {
      ok := ok && IsFactName(names[i]);
    }
    assert forall k | k in metadata :: k in names;
  }

  /** Create once its input has passed validation: look the key up, make sure of the snapshot,
      decide, persist. */
  method Admitted(g: Settings, db: Database, r: Request, provider: Provider, id: nat,
                lookupAt: int, startedAt: int, finishedAt: int, committedAt: int, ghost s: State, ghost c: nat)
    returns (response: Response, ghost steps: seq<Step>, ghost t: State)
    requires s.tables == db.Contents() && s.nextID == id && c !in s.calls && Admissible(r)
    requires s.clock <= lookupAt <= startedAt <= committedAt
    modifies db`evaluations, db`keys, db`snapshots, provider
    ensures Runs(g, s, steps, t) && Alone(steps, c)
    ensures t.tables == db.Contents()
    ensures c in t.calls && t.calls[c] == Call(r, CanonicalOf(r), Finished(response))
    ensures var asked := LookUp(s.tables, r.key, CanonicalOf(r), lookupAt) == Unused && AsksProvider(r.policy, r.facts);
            provider.calls == old(provider.calls) + if asked then 1 else 0
  {
    hide Runs, Admissible, CanonicalOf, DecisionOf, LookUp, WithSnapshot, Persisted, Alone, AsksProvider;
    var canonical := CanonicalOf(r);
    steps, t := LookupRuns(g, s, c, r, lookupAt);
    var found := db.Replay(r.key, canonical, lookupAt);
    match found
    case Conflict => response := Conflicted;
    case Replayed(evaluation, row) => response := Responded(evaluation, row, true);
    case Unused =>
      db.EnsureSnapshot(canonical.policyHash);
      steps, t := DecisionRuns(g, s, steps, t, c, provider.reply, startedAt);
      var record, decided := Decide(r.policy, r.facts, provider, startedAt, finishedAt);
      response := Errored;
      if record != null {
        var row := EvaluationRow(canonical.policyHash, record.Contents(), startedAt);
        steps, t := CommitRuns(g, s, steps, t, c, committedAt);
        var ok := db.Persist(id, row, r.key, KeyRow(canonical, id, committedAt + g.keyRetention, committedAt));
        if ok {
          response := Responded(id, row, false);
        }
      }
  }

  /** Create from end to end. A request of the wrong shape touches nothing. Any other, executed on its
      own, with whatever times its clock readings show, is a run of the interleaved model: same tables
      after it, same response. */
  method Create(g: Settings, db: Database, r: Request, provider: Provider, id: nat,
                lookupAt: int, startedAt: int, finishedAt: int, committedAt: int, ghost s: State, ghost c: nat)
    returns (response: Response, ghost steps: seq<Step>, ghost t: State)
    requires s.tables == db.Contents() && s.nextID == id && c !in s.calls && Sound(r.policy)
    requires s.clock <= lookupAt <= startedAt <= committedAt
    modifies db`evaluations, db`keys, db`snapshots, provider
    ensures Runs(g, s, steps, t) && Alone(steps, c)
    ensures t.tables == db.Contents()
    ensures !ShapeAccepted(r) ==> response == Errored && t == s
    ensures ShapeAccepted(r) ==> c in t.calls && t.calls[c] == Call(r, CanonicalOf(r), Finished(response))
    ensures var asked := LookUp(s.tables, r.key, CanonicalOf(r), lookupAt) == Unused && AsksProvider(r.policy, r.facts);
            provider.calls == old(provider.calls) + if ShapeAccepted(r) && asked then 1 else 0
  {
    hide Sound, ShapeAccepted, CanonicalOf, LookUp, AsksProvider;
    var ok := ValidateShape(r);
    if ok {
      hide Runs, Alone;
      response, steps, t := Admitted(g, db, r, provider, id, lookupAt, startedAt, finishedAt, committedAt, s, c);
    } else {
      response, steps, t := Errored, [], s;
    }
  }

  // ----- Retention as steps -----

  /** A sweep of the interleaved model that takes away these keys and, when it gets that far, these
      evaluations. */
  lemma SweepRuns(g: Settings, s: State, w: nat, goneKeys: set<Name>, found: set<nat>, evaluations: bool)
    returns (steps: seq<Step>, t: State)
    requires w !in s.sweeps && ExpiredKeys(s.tables, s.clock, goneKeys)
    requires evaluations ==> g.evaluationRetention > 0
    requires evaluations ==> ExpiredEvaluations(WithoutKeys(s.tables, goneKeys), s.clock - g.evaluationRetention, found)
    ensures Runs(g, s, steps, t) && t.calls == s.calls && t.clock == s.clock && t.log == s.log
    ensures var swept := WithoutKeys(s.tables, goneKeys);
            t.tables == if evaluations then WithoutEvaluations(swept, found) else swept
  {
    hide Runs, ExpiredKeys, ExpiredEvaluations, WithoutKeys, WithoutEvaluations;
    assert Runs(g, s, [], s) by { Still(g, s); }
    steps, t := Swept(g, s, [], s, SweepBegins(w));
    steps, t := Swept(g, s, steps, t, SweepExpiresKeys(w, goneKeys));
    if evaluations {
      steps, t := Swept(g, s, steps, t, SweepFinds(w, found));
      steps, t := Swept(g, s, steps, t, SweepDeletes(w));
    }
  }

  lemma Still(g: Settings, s: State)
    ensures Runs(g, s, [], s)
  {}

  lemma Swept(g: Settings, s: State, steps: seq<Step>, t: State, a: Step) returns (more: seq<Step>, u: State)
    requires Runs(g, s, steps, t) && Enabled(g, t, a)
    ensures Runs(g, s, more, u) && u == Apply(g, t, a)
  {
    hide Runs, Apply, Enabled;
    RunsOn(g, s, steps, t, a);
    more, u := steps + [a], Apply(g, t, a);
  }

  /** A cleanup pass on the database object, refused statements included, is a sweep of the
      interleaved model, cut short where the pass was. */
  method Retain(g: Settings, db: Database, now: int, refusal: Refusal, ghost s: State, ghost w: nat)
    returns (ok: bool, ghost steps: seq<Step>, ghost t: State)
    requires s.tables == db.Contents() && now == s.clock && w !in s.sweeps
    modifies db`keys, db`evaluations, db`feedback
    ensures Runs(g, s, steps, t) && t.tables == db.Contents()
    ensures t.calls == s.calls && t.clock == s.clock && t.log == s.log
  {
    hide Runs, ExpiredKeys, ExpiredEvaluations, WithoutKeys, WithoutEvaluations;
    var deleted;
    ghost var goneKeys, found;
    deleted, ok, goneKeys, found := db.Cleanup(now, g.evaluationRetention, refusal);
    steps, t := SweepRuns(g, s, w, goneKeys, found, ok && g.evaluationRetention > 0);
    NothingGone(WithoutKeys(s.tables, goneKeys), map[]);
  }
}
