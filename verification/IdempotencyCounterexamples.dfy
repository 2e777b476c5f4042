/** Two ways in which repeating a request under its own key fails: the lookup takes the key for
    unused, and then the commit finds it taken. They exist for every request that can be decided. */
module IdempotencyCounterexamples {
  import opened Names
  import opened Evaluation
  import opened EvaluationStore
  import opened Idempotency
  import opened IdempotencyInvariants

  // ----- Building runs -----

  lemma {:induction false} RunsOn(g: Settings, r: State, before: seq<Step>, s: State, a: Step)
    requires Runs(g, r, before, s) && Enabled(g, s, a)
    ensures Runs(g, r, before + [a], Apply(g, s, a))
    decreases |before|
  {
    hide Apply, Enabled;
    if before == [] {
      assert (before + [a])[1..] == [];
    } else {
      RunsOn(g, Apply(g, r, before[0]), before[1..], s, a);
      assert (before + [a])[1..] == before[1..] + [a];
    }
  }

  lemma Extend(g: Settings, s: State, a: Step)
    requires Reachable(g, s) && Enabled(g, s, a)
    ensures Reachable(g, Apply(g, s, a))
  {
    hide Runs, Apply, Enabled, Init;
    var init, steps :| Init(init) && Runs(g, init, steps, s);
    RunsOn(g, init, steps, s, a);
  }

  lemma Begin(g: Settings) returns (s: State)
    ensures Reachable(g, s) && Init(s) && s.clock == 0 && s.nextID == 0
  {
    s := State(0, Tables(map[], map[], map[]), map[], map[], map[], 0);
    assert Runs(g, s, [], s);
  }

  /** A request that can be decided: it gets past validation, it has a key, and on this reply its
      facts lead to a record. */
  ghost predicate Decidable(r: Request, reply: Reply) {
    Admissible(r) && r.key != EMPTY && DecisionOf(r.policy, r.facts, reply).Recorded?
  }

  // ----- One call's steps -----

  lemma Arrives(g: Settings, s: State, c: nat, r: Request, reply: Reply) returns (t: State)
    requires Reachable(g, s) && c !in s.calls && Decidable(r, reply)
    ensures Reachable(g, t) && t == s.(calls := s.calls[c := Call(r, CanonicalOf(r), Looking)])
  {
    hide Reachable, Admissible, DecisionOf, CanonicalOf;
    Extend(g, s, Arrive(c, r));
    t := Apply(g, s, Arrive(c, r));
  }

  lemma Moves(g: Settings, s: State, c: nat, a: CallStep) returns (t: State)
    requires Reachable(g, s) && c in s.calls && CallEnabled(s.calls[c].pc, a)
    requires !a.RecordSnapshot? && !a.BeginDecision? && !a.CommitTransaction?
    ensures Reachable(g, t) && t == s.(calls := s.calls[c := s.calls[c].(pc := NextPc(g, s, s.calls[c], a))])
  {
    hide Reachable, NextPc;
    Extend(g, s, OfCall(c, a));
    t := Apply(g, s, OfCall(c, a));
  }

  lemma Begins(g: Settings, s: State, c: nat) returns (t: State)
    requires Reachable(g, s) && c in s.calls && s.calls[c].pc == Snapshotting
    ensures Reachable(g, t)
    ensures t == s.(calls := s.calls[c := s.calls[c].(pc := Deciding(s.nextID, s.clock))],
                    tables := WithSnapshot(s.tables, s.calls[c].canonical.policyHash), nextID := s.nextID + 1)
  {
    hide Reachable;
    Extend(g, s, OfCall(c, RecordSnapshot));
    var recorded := Apply(g, s, OfCall(c, RecordSnapshot));
    Extend(g, recorded, OfCall(c, BeginDecision));
    t := Apply(g, recorded, OfCall(c, BeginDecision));
  }

  /** From a lookup that found nothing to the commit, with a decision that takes some time. */
  lemma Decides(g: Settings, s: State, c: nat, reply: Reply, delay: nat) returns (t: State)
    requires Reachable(g, s) && c in s.calls && s.calls[c].pc == Snapshotting
    requires Decidable(s.calls[c].request, reply)
    ensures Reachable(g, t) && t.clock == s.clock + delay && t.log == s.log && t.sweeps == s.sweeps && t.nextID == s.nextID + 1
    ensures t.tables.keys == s.tables.keys && t.tables.evaluations == s.tables.evaluations
    ensures c in t.calls && t.calls == s.calls[c := s.calls[c].(pc := t.calls[c].pc)] && t.calls[c].pc.Committing?
    ensures t.calls[c].pc.id == s.nextID && t.calls[c].pc.row.createdAt == s.clock
    ensures t.calls[c].pc.keyRow == KeyRow(s.calls[c].canonical, s.nextID, t.clock + g.keyRetention, t.clock)
  {
    hide Reachable, DecisionOf, Admissible;
    var begun := Begins(g, s, c);
    Extend(g, begun, Tick(begun.clock + delay));
    var waited := Apply(g, begun, Tick(begun.clock + delay));
    var ended := Moves(g, waited, c, EndDecision(reply));
    t := Moves(g, ended, c, ReadCommitClock);
  }

  /** A commit on a free key. */
  lemma CommitsFirst(g: Settings, s: State, c: nat) returns (t: State)
    requires Reachable(g, s) && c in s.calls && s.calls[c].pc.Committing?
    requires s.calls[c].request.key != EMPTY && s.calls[c].request.key !in s.tables.keys && s.calls[c].pc.id !in s.tables.evaluations
    ensures Reachable(g, t) && t.clock == s.clock && t.sweeps == s.sweeps && t.nextID == s.nextID
    ensures t.tables.keys == s.tables.keys[s.calls[c].request.key := s.calls[c].pc.keyRow]
    ensures t.tables.evaluations == s.tables.evaluations[s.calls[c].pc.id := s.calls[c].pc.row]
    ensures t.calls == s.calls[c := s.calls[c].(pc := Finished(Responded(s.calls[c].pc.id, s.calls[c].pc.row, false)))]
  {
    hide Reachable;
    Extend(g, s, OfCall(c, CommitTransaction));
    t := Apply(g, s, OfCall(c, CommitTransaction));
  }

  /** A commit on a taken key. */
  lemma CommitsTooLate(g: Settings, s: State, c: nat) returns (t: State)
    requires Reachable(g, s) && c in s.calls && s.calls[c].pc.Committing?
    requires s.calls[c].request.key != EMPTY && s.calls[c].request.key in s.tables.keys
    ensures Reachable(g, t) && t == s.(calls := s.calls[c := s.calls[c].(pc := Finished(Errored))])
  {
    hide Reachable;
    Extend(g, s, OfCall(c, CommitTransaction));
    t := Apply(g, s, OfCall(c, CommitTransaction));
  }

  /** The first call of all, up to its response. */
  lemma FirstAnswer(g: Settings, r: Request, reply: Reply, delay: nat) returns (t: State)
    requires Decidable(r, reply)
    ensures Reachable(g, t) && t.clock == delay && t.sweeps == map[] && t.calls.Keys == {0}
    ensures t.calls[0].pc.Finished? && t.calls[0].pc.response.Responded?
    ensures t.calls[0].request == r
    ensures t.tables.keys == map[r.key := KeyRow(CanonicalOf(r), 0, delay + g.keyRetention, delay)]
    ensures t.tables.evaluations.Keys == {0} && t.tables.evaluations[0].createdAt == 0
  {
    hide Reachable, DecisionOf, Admissible, CanonicalOf;
    var begin := Begin(g);
    var arrived := Arrives(g, begin, 0, r, reply);
    var looked := Moves(g, arrived, 0, ReadKey);
    assert looked.calls[0].pc == Snapshotting;
    hide NextPc;
    var decided := Decides(g, looked, 0, reply, delay);
    t := CommitsFirst(g, decided, 0);
  }

  // ----- The failures -----

  /** A key that has expired but has not been swept: the same request comes again after the window,
      its lookup takes the key for unused, and its commit fails. */
  lemma UnsweptKeyBlocks(g: Settings, r: Request, reply: Reply) returns (t: State)
    requires Decidable(r, reply)
    ensures Reachable(g, t) && t.clock > g.keyRetention
    ensures 0 in t.calls && t.calls[0].request == r && t.calls[0].pc.Finished? && t.calls[0].pc.response.Responded?
    ensures 1 in t.calls && t.calls[1].request == r && t.calls[1].pc == Finished(Errored)
  {
    hide Reachable, DecisionOf, Admissible, CanonicalOf;
    var first := FirstAnswer(g, r, reply, 0);
    var end := if g.keyRetention >= 0 then g.keyRetention + 1 else 0;
    Extend(g, first, Tick(end));
    var later := Apply(g, first, Tick(end));
    var arrived := Arrives(g, later, 1, r, reply);
    var looked := Moves(g, arrived, 1, ReadKey);
    assert looked.calls[1].pc == Checking(first.tables.keys[r.key]);
    var expired := Moves(g, looked, 1, CheckKey);
    assert expired.calls[1].pc == Snapshotting;
    hide NextPc;
    var decided := Decides(g, expired, 1, reply, 0);
    t := CommitsTooLate(g, decided, 1);
  }

  /** One pass that finds no key expired and retires evaluation 0. */
  lemma PassRetires(g: Settings, s: State) returns (t: State)
    requires Reachable(g, s) && s.sweeps == map[] && g.evaluationRetention > 0
    requires 0 in s.tables.evaluations && s.tables.evaluations[0].createdAt < s.clock - g.evaluationRetention
    ensures Reachable(g, t) && t.calls == s.calls && t.clock == s.clock && t.nextID == s.nextID
    ensures t.tables.keys == s.tables.keys && t.tables.evaluations == s.tables.evaluations - {0}
  {
    hide Reachable;
    Extend(g, s, SweepBegins(0));
    var begun := Apply(g, s, SweepBegins(0));
    Extend(g, begun, SweepExpiresKeys(0, {}));
    var swept := Apply(g, begun, SweepExpiresKeys(0, {}));
    assert swept.tables.keys == s.tables.keys;
    Extend(g, swept, SweepFinds(0, {0}));
    var found := Apply(g, swept, SweepFinds(0, {0}));
    Extend(g, found, SweepDeletes(0));
    t := Apply(g, found, SweepDeletes(0));
  }

  /** A key inside its window whose evaluation is gone. */
  predicate Stale(s: State, key: Name) {
    && key in s.tables.keys && s.tables.keys[key].expiresAt >= s.clock
    && s.tables.keys[key].evaluation !in s.tables.evaluations
  }

  /** A decision slower than the evaluation window, and then a retention pass. */
  lemma RetiredEarly(g: Settings, r: Request, reply: Reply) returns (t: State)
    requires Decidable(r, reply) && g.evaluationRetention > 0 && g.keyRetention >= 0
    ensures Reachable(g, t) && Stale(t, r.key) && t.calls.Keys == {0}
    ensures t.calls[0].request == r && t.calls[0].pc.Finished? && t.calls[0].pc.response.Responded?
    ensures t.tables.keys[r.key].evaluation == 0 && t.tables.keys[r.key].request == CanonicalOf(r)
  {
    hide Reachable, DecisionOf, Admissible, CanonicalOf;
    var first := FirstAnswer(g, r, reply, g.evaluationRetention + 1);
    t := PassRetires(g, first);
  }

  /** The lookup takes a stale key for unused, and the commit fails: whatever the two windows are,
      as long as evaluations are retired at all and keys are kept at all. */
  lemma RetiredEvaluationBlocks(g: Settings, r: Request, reply: Reply) returns (t: State)
    requires Decidable(r, reply) && g.evaluationRetention > 0 && g.keyRetention >= 0
    ensures Reachable(g, t) && Stale(t, r.key)
    ensures 0 in t.calls && t.calls[0].request == r && t.calls[0].pc.Finished? && t.calls[0].pc.response.Responded?
    ensures 1 in t.calls && t.calls[1].request == r && t.calls[1].pc == Finished(Errored)
  {
    hide Reachable, DecisionOf, Admissible, CanonicalOf;
    var retired := RetiredEarly(g, r, reply);
    var arrived := Arrives(g, retired, 1, r, reply);
    var looked := Moves(g, arrived, 1, ReadKey);
    assert looked.calls[1].pc == Checking(retired.tables.keys[r.key]);
    var fetching := Moves(g, looked, 1, CheckKey);
    assert fetching.calls[1].pc == Fetching(0);
    var missing := Moves(g, fetching, 1, FetchEvaluation);
    assert missing.calls[1].pc == Snapshotting;
    hide NextPc;
    var decided := Decides(g, missing, 1, reply, 0);
    t := CommitsTooLate(g, decided, 1);
  }

  /** A stale key means that evaluations are retired, and that the time its evaluation took from its
      start to its commit, plus the key window, exceeds the evaluation window. So keys never go stale
      where the evaluation window covers the key window and the slowest decision. */
  lemma StaleKeysAreSlow(g: Settings, s: State, key: Name)
    requires Reachable(g, s) && Stale(s, key)
    ensures s.tables.keys[key].evaluation in s.log
    ensures var made := s.log[s.tables.keys[key].evaluation];
            && g.evaluationRetention > 0 && g.keyRetention >= 0
            && made.createdAt - made.row.createdAt + g.keyRetention > g.evaluationRetention
  {
    hide Reachable;
    ReachableKeeps(g, s);
    hide FreshIDs, Responses, WindowOver, Ordered, Spaced, SweepsPast, RowsLogged, SnapshotsKept, Origins, Expiries, CommittedFor;
    assert Backed(g, s, key, s.tables.keys[key]);
    assert CommittedFor(s, s.tables.keys[key].evaluation, key, s.tables.keys[key].request);
    assert s.tables.keys[key].evaluation in s.log by { BackedIsLogged(g, s, key); }
  }

  lemma BackedIsLogged(g: Settings, s: State, key: Name)
    requires key in s.tables.keys && Backed(g, s, key, s.tables.keys[key])
    ensures s.tables.keys[key].evaluation in s.log
  {}

  /** Whether a deployment can ever have a stale key can be read off its two windows: it can exactly
      when it retires evaluations and keeps keys at all. */
  lemma StaleKeysExactly(g: Settings, r: Request, reply: Reply)
    requires Decidable(r, reply)
    ensures (exists s, key :: Reachable(g, s) && Stale(s, key)) <==> g.evaluationRetention > 0 && g.keyRetention >= 0
  {
    if g.evaluationRetention > 0 && g.keyRetention >= 0 {
      var t := RetiredEarly(g, r, reply);
    }
    hide Reachable, DecisionOf, Admissible, Stale;
    forall s, key | Reachable(g, s) && Stale(s, key) ensures g.evaluationRetention > 0 && g.keyRetention >= 0 {
      StaleKeysAreSlow(g, s, key);
    }
  }
}
