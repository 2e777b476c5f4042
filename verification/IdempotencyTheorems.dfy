/** What idempotency keys promise over every interleaving of Create calls and retention passes, and
    where a key that should be free still blocks its caller. */
module IdempotencyTheorems {
  import opened Names
  import opened Decision
  import opened QuestionValue
  import opened Policy
  import opened PolicyTheorems
  import opened PolicyRuntime
  import opened AnswerContract
  import opened Canonical
  import opened Evaluation
  import opened EvaluationStore
  import opened Idempotency
  import opened IdempotencyInvariants

  predicate Answered(s: State, c: nat, id: nat) {
    c in s.calls && s.calls[c].pc.Finished? && s.calls[c].pc.response.Responded? && s.calls[c].pc.response.id == id
  }

  lemma AnsweredIsCommitted(g: Settings, s: State, c: nat, id: nat)
    requires Inv(g, s) && Answered(s, c, id)
    ensures CommittedFor(s, id, s.calls[c].request.key, s.calls[c].canonical) && KeyOf(s, id) == s.calls[c].request.key
    ensures s.calls[c].pc.response.row == s.log[id].row
  {
    hide FreshIDs, KeysBacked, CommitsOwned, WindowOver, Ordered, Spaced, SweepsPast, RowsLogged, SnapshotsKept, Origins, Expiries, RowsKept;
  }

  /** Two successful responses under one key that carry different evaluations: the one committed
      later was committed more than the retention window after the earlier one's key was created. */
  lemma DifferentAnswersAreFarApart(g: Settings, s: State, c: nat, d: nat, a: nat, b: nat)
    requires Reachable(g, s) && Answered(s, c, a) && Answered(s, d, b) && a != b
    requires s.calls[c].request.key == s.calls[d].request.key != EMPTY
    ensures a in s.log && b in s.log && s.log[a].order != s.log[b].order
    ensures s.log[a].order < s.log[b].order ==> s.log[b].committedAt > s.log[a].createdAt + g.keyRetention
    ensures s.log[b].order < s.log[a].order ==> s.log[a].committedAt > s.log[b].createdAt + g.keyRetention
  {
    hide Reachable;
    ReachableKeeps(g, s);
    AnsweredIsCommitted(g, s, c, a);
    AnsweredIsCommitted(g, s, d, b);
    hide CommittedFor, FreshIDs, KeysBacked, CommitsOwned, Responses, WindowOver, SweepsPast, RowsLogged, SnapshotsKept, Origins, Expiries, RowsKept, KeyOf, Answered;
  }

  /** Whatever a call answers, new or replayed, some call with the same key that asked for the same
      made it and was told so; and the answering call's own policy, given its own facts and the same
      provider reply, decides exactly that. */
  lemma AnswersAreFaithful(g: Settings, s: State, c: nat, id: nat) returns (maker: nat)
    requires Reachable(g, s) && Answered(s, c, id)
    ensures id in s.log && maker == s.log[id].call && maker in s.calls
    ensures s.calls[maker].pc == Finished(Responded(id, s.log[id].row, false))
    ensures s.calls[maker].request.key == s.calls[c].request.key
    ensures SameRequest(s.calls[maker].request, s.calls[c].request)
    ensures s.calls[c].pc.response.row == s.log[id].row
    ensures DecisionOf(s.calls[c].request.policy, s.calls[c].request.facts, s.log[id].reply) == Recorded(s.log[id].row.verdict)
  {
    hide Reachable, DecisionOf, SameRequest;
    ReachableKeeps(g, s);
    AnsweredIsCommitted(g, s, c, id);
    maker := s.log[id].call;
    OwnerAnswered(g, s, id);
    hide Inv;
    SameRequestDecides(s.calls[maker], s.calls[c], s.log[id].row, s.log[id].reply);
  }

  lemma OwnerAnswered(g: Settings, s: State, id: nat)
    requires Inv(g, s) && id in s.log
    ensures s.log[id].call in s.calls && s.calls[s.log[id].call].pc == Finished(Responded(id, s.log[id].row, false))
    ensures DecidedBy(s.calls[s.log[id].call], s.log[id].row, s.log[id].reply)
    ensures forall c | c in s.calls :: Genuine(s.calls[c])
  {
    hide FreshIDs, KeysBacked, Responses, WindowOver, Ordered, Spaced, SweepsPast, RowsLogged, SnapshotsKept, Expiries, RowsKept, DecidedBy, Genuine;
  }

  lemma SameRequestDecides(made: Call, asked: Call, row: EvaluationRow, reply: Reply)
    requires Genuine(made) && Genuine(asked) && made.canonical == asked.canonical && DecidedBy(made, row, reply)
    ensures SameRequest(made.request, asked.request)
    ensures DecisionOf(asked.request.policy, asked.request.facts, reply) == Recorded(row.verdict)
  {
    hide DecisionOf, Sound, SamePolicy, SameValue, KindOf, CanonicalOf;
    CanonicalTellsApart(made.request, asked.request);
    FormKeepsEverything(made.request.policy, asked.request.policy);
    SameFormDecides(made.request.policy, asked.request.policy, made.request.facts, reply);
    SameFactsDecide(asked.request.policy, made.request.facts, asked.request.facts, reply);
  }

  /** Policies with the same canonical form decide alike. */
  lemma SameFormDecides(p: Compiled, q: Compiled, facts: Facts, reply: Reply)
    requires Sound(p) && Sound(q) && Form(p) == Form(q)
    ensures DecisionOf(p, facts, reply) == DecisionOf(q, facts, reply)
  {
    hide Sound, Form, FactsAccepted, AnswersAccepted, EvaluatePreRules, EvaluateDecisionRules;
    EqualFormsAgree(p, q, facts, if reply.Answered? then reply.answers else map[]);
  }

  /** So does one policy on the same scalar facts, whatever Go types hold their numbers. */
  lemma SameFactsDecide(p: Compiled, f: Facts, g: Facts, reply: Reply)
    requires SameFacts(f, g) && ScalarFacts(f) && ScalarFacts(g)
    ensures DecisionOf(p, f, reply) == DecisionOf(p, g, reply)
  {
    hide SameFacts, ScalarFacts, FactsAccepted, AnswersAccepted, EvaluatePreRules, EvaluateDecisionRules;
    NumberTypesDoNotMatter(p, f, g, if reply.Answered? then reply.answers else map[]);
  }

  /** What a lookup comes to. Without a key, or with one that is unknown or has expired, the request
      is new. Under any other key it gets the stored evaluation, as it was answered, if it asks for the
      same as the request that made it, unless retention has removed that evaluation; and a conflict
      if it asks for anything else. */
  lemma LookupTellsRequestsApart(g: Settings, s: State, r: Request, now: int)
    requires Reachable(g, s) && Sound(r.policy)
    ensures r.key == EMPTY || r.key !in s.tables.keys || s.tables.keys[r.key].expiresAt < now ==>
              LookUp(s.tables, r.key, CanonicalOf(r), now) == Unused
    ensures r.key in s.tables.keys && s.tables.keys[r.key].expiresAt >= now ==>
              var id := s.tables.keys[r.key].evaluation;
              && id in s.log && s.log[id].call in s.calls && s.calls[s.log[id].call].request.key == r.key
              && LookUp(s.tables, r.key, CanonicalOf(r), now) ==
                   if !SameRequest(s.calls[s.log[id].call].request, r) then Conflict
                   else if id in s.tables.evaluations then Replayed(id, s.log[id].row)
                   else Unused
  {
    hide Reachable, SameRequest, CanonicalOf;
    if r.key in s.tables.keys && s.tables.keys[r.key].expiresAt >= now {
      RowsAreBacked(g, s);
      KeyMaker(g, s, r.key);
      var record := s.tables.keys[r.key];
      LookupCompares(s.tables, r, s.calls[s.log[record.evaluation].call].request, now);
    }
    hide Inv, Backed, Sound;
  }

  lemma KeyMaker(g: Settings, s: State, key: Name)
    requires Reachable(g, s) && key in s.tables.keys
    ensures var record := s.tables.keys[key];
            && key != EMPTY && CommittedFor(s, record.evaluation, key, record.request)
            && Genuine(s.calls[s.log[record.evaluation].call])
  {
    hide Reachable, Genuine;
    ReachableKeeps(g, s);
    hide FreshIDs, CommitsOwned, Responses, WindowOver, Ordered, Spaced, SweepsPast, RowsLogged, SnapshotsKept, Expiries, RowsKept, DecidedBy;
    assert Backed(g, s, key, s.tables.keys[key]);
  }

  lemma LookupCompares(t: Tables, r: Request, maker: Request, now: int)
    requires Sound(r.policy) && Admissible(maker) && r.key != EMPTY && r.key in t.keys && t.keys[r.key].expiresAt >= now
    requires t.keys[r.key].request == CanonicalOf(maker)
    ensures LookUp(t, r.key, CanonicalOf(r), now) ==
              if !SameRequest(maker, r) then Conflict
              else if t.keys[r.key].evaluation in t.evaluations
                   then Replayed(t.keys[r.key].evaluation, t.evaluations[t.keys[r.key].evaluation])
                   else Unused
  {
    hide Sound, SameRequest, CanonicalOf, ShapeAccepted;
    CanonicalTellsApart(maker, r);
  }

  // ----- Conflicts and errors commit nothing -----

  lemma FinishedStays(g: Settings, s: State, a: Step, c: nat)
    requires Enabled(g, s, a) && c in s.calls && s.calls[c].pc.Finished?
    ensures var t := Apply(g, s, a); c in t.calls && t.calls[c] == s.calls[c]
  {
    hide NextPc, Persisted, CanonicalOf, Admissible;
  }

  lemma {:induction false} FinishedForGood(g: Settings, s: State, steps: seq<Step>, t: State, c: nat)
    requires Runs(g, s, steps, t) && c in s.calls && s.calls[c].pc.Finished?
    ensures c in t.calls && t.calls[c] == s.calls[c]
    decreases |steps|
  {
    hide Apply, Enabled;
    if steps != [] {
      FinishedStays(g, s, steps[0], c);
      FinishedForGood(g, Apply(g, s, steps[0]), steps[1..], t, c);
    }
  }

  /** A call whose lookup finds an unexpired key bound to another request ends in a conflict, and
      neither then nor in any later state has it committed anything. */
  lemma ConflictCommitsNothing(g: Settings, s: State, c: nat, steps: seq<Step>, t: State)
    requires Reachable(g, s) && c in s.calls && s.calls[c].pc.Checking?
    requires s.calls[c].pc.record.expiresAt >= s.clock && s.calls[c].pc.record.request != s.calls[c].canonical
    requires Runs(g, Apply(g, s, OfCall(c, CheckKey)), steps, t)
    ensures c in t.calls && t.calls[c].pc == Finished(Conflicted)
    ensures forall id | id in t.log :: t.log[id].call != c
    ensures Apply(g, s, OfCall(c, CheckKey)).tables == s.tables
  {
    var next := Apply(g, s, OfCall(c, CheckKey));
    assert next.calls[c].pc == Finished(Conflicted) && next.tables == s.tables;
    hide Reachable, Apply, Inv, Runs;
    ReachableKeeps(g, s);
    StepKeeps(g, s, OfCall(c, CheckKey));
    RunsKeep(g, next, steps, t);
    FinishedForGood(g, next, steps, t, c);
    OnlyAnswersCommitted(g, t, c);
  }

  lemma OnlyAnswersCommitted(g: Settings, s: State, c: nat)
    requires Inv(g, s) && c in s.calls && (s.calls[c].pc == Finished(Conflicted) || s.calls[c].pc == Finished(Errored))
    ensures forall id | id in s.log :: s.log[id].call != c
  {
    hide FreshIDs, KeysBacked, Responses, WindowOver, Ordered, Spaced, SweepsPast, RowsLogged, SnapshotsKept, Expiries, Origins, RowsKept;
  }

  // ----- Rows and snapshots -----

  /** Every key row was committed together with the evaluation it names, for the request it names,
      and every stored evaluation can be reconstructed: its snapshot is there, unchanged, and any
      policy with that canonical form makes the same decision again. */
  lemma RowsAreBacked(g: Settings, s: State)
    requires Reachable(g, s)
    ensures forall k | k in s.tables.keys :: Backed(g, s, k, s.tables.keys[k])
    ensures forall id | id in s.tables.evaluations :: id in s.log && s.tables.evaluations[id] == s.log[id].row
  {
    hide Reachable;
    ReachableKeeps(g, s);
    hide FreshIDs, CommitsOwned, Responses, WindowOver, Ordered, Spaced, SweepsPast, SnapshotsKept, Origins, Expiries, RowsKept, Backed;
  }

  lemma EvaluationsReconstruct(g: Settings, s: State, id: nat, q: Compiled)
    requires Reachable(g, s) && id in s.tables.evaluations && Sound(q)
    requires s.tables.evaluations[id].policyHash in s.tables.snapshots ==>
               s.tables.snapshots[s.tables.evaluations[id].policyHash] == Form(q)
    ensures s.tables.evaluations[id].policyHash in s.tables.snapshots
    ensures id in s.log && s.log[id].call in s.calls
    ensures DecisionOf(q, s.calls[s.log[id].call].request.facts, s.log[id].reply) == Recorded(s.tables.evaluations[id].verdict)
  {
    hide Reachable, Sound, DecisionOf;
    ReachableKeeps(g, s);
    RowsAreBacked(g, s);
    SnapshotPresent(g, s, id);
    OwnerAnswered(g, s, id);
    var made := s.calls[s.log[id].call];
    hide Inv;
    SameFormDecides(made.request.policy, q, made.request.facts, s.log[id].reply);
  }

  lemma SnapshotPresent(g: Settings, s: State, id: nat)
    requires Inv(g, s) && id in s.log
    ensures s.log[id].row.policyHash in s.tables.snapshots
    ensures s.tables.snapshots[s.log[id].row.policyHash] == s.log[id].row.policyHash
  {
    hide FreshIDs, KeysBacked, CommitsOwned, Responses, WindowOver, Ordered, Spaced, SweepsPast, RowsLogged, Origins, Expiries, RowsKept;
  }

  lemma SnapshotStays(g: Settings, s: State, a: Step, h: CanonicalPolicy)
    requires Enabled(g, s, a) && h in s.tables.snapshots
    ensures var t := Apply(g, s, a); h in t.tables.snapshots && t.tables.snapshots[h] == s.tables.snapshots[h]
  {
    hide NextPc, CanonicalOf, Admissible;
  }

  /** No step ever changes or removes a snapshot. */
  lemma {:induction false} SnapshotsNeverChange(g: Settings, s: State, steps: seq<Step>, t: State, h: CanonicalPolicy)
    requires Runs(g, s, steps, t) && h in s.tables.snapshots
    ensures h in t.tables.snapshots && t.tables.snapshots[h] == s.tables.snapshots[h]
    decreases |steps|
  {
    hide Apply, Enabled;
    if steps != [] {
      SnapshotStays(g, s, steps[0], h);
      SnapshotsNeverChange(g, Apply(g, s, steps[0]), steps[1..], t, h);
    }
  }

  /** A caller that got a response can find its row until retention is entitled to remove it: the
      row is there, as it was answered, unless it is older than the evaluation window. */
  lemma AnsweredRowsStay(g: Settings, s: State, c: nat, id: nat)
    requires Reachable(g, s) && Answered(s, c, id)
    ensures id in s.tables.evaluations ==> s.tables.evaluations[id] == s.calls[c].pc.response.row
    ensures id !in s.tables.evaluations ==>
              g.evaluationRetention > 0 && s.calls[c].pc.response.row.createdAt < s.clock - g.evaluationRetention
  {
    hide Reachable, CommittedFor, FreshIDs, KeysBacked, CommitsOwned, Responses, WindowOver, Ordered, Spaced, SweepsPast, SnapshotsKept, Origins, Expiries, KeyOf;
    ReachableKeeps(g, s);
    AnsweredIsCommitted(g, s, c, id);
    AnsweredIsLogged(g, s, c, id);
  }

  lemma AnsweredIsLogged(g: Settings, s: State, c: nat, id: nat)
    requires Inv(g, s) && Answered(s, c, id)
    ensures id in s.log
  {
    AnsweredIsCommitted(g, s, c, id);
    hide Inv;
  }

  // ----- When a commit succeeds -----

  /** A commit succeeds exactly when its call has no key or the key has no row, expired or not; when
      it fails it leaves the tables and the log as they were. */
  lemma CommitNeedsFreeKey(g: Settings, s: State, c: nat)
    requires Reachable(g, s) && c in s.calls && s.calls[c].pc.Committing?
    ensures var t := Apply(g, s, OfCall(c, CommitTransaction)); var key := s.calls[c].request.key;
            && (t.calls[c].pc == Finished(Responded(s.calls[c].pc.id, s.calls[c].pc.row, false)) <==>
                  key == EMPTY || key !in s.tables.keys)
            && (key != EMPTY && key in s.tables.keys ==>
                  t.calls[c].pc == Finished(Errored) && t.tables == s.tables && t.log == s.log)
  {
    hide Reachable, Inv, Apply;
    ReachableKeeps(g, s);
    HeldIsFree(g, s, c);
    CommitOutcome(g, s, c);
  }

  lemma CommitOutcome(g: Settings, s: State, c: nat)
    requires c in s.calls && s.calls[c].pc.Committing? && s.calls[c].pc.id !in s.tables.evaluations
    ensures var t := Apply(g, s, OfCall(c, CommitTransaction)); var key := s.calls[c].request.key;
            && c in t.calls
            && (t.calls[c].pc == Finished(Responded(s.calls[c].pc.id, s.calls[c].pc.row, false)) <==>
                  key == EMPTY || key !in s.tables.keys)
            && (key != EMPTY && key in s.tables.keys ==>
                  t.calls[c].pc == Finished(Errored) && t.tables == s.tables && t.log == s.log)
  {}

  lemma HeldIsFree(g: Settings, s: State, c: nat)
    requires Inv(g, s) && c in s.calls && s.calls[c].pc.Committing?
    ensures s.calls[c].pc.id !in s.tables.evaluations
  {
    hide KeysBacked, CommitsOwned, Responses, WindowOver, Ordered, Spaced, SweepsPast, SnapshotsKept, Origins, Expiries, RowsKept;
  }

  /** When nothing happens between the reads of a lookup, it comes to what one look at the tables
      says: a free key, a conflict, or the stored evaluation. */
  lemma UndisturbedLookup(g: Settings, s: State, c: nat)
    requires c in s.calls && s.calls[c].pc.Looking?
    ensures var found := ApplyCall(g, s, c, ReadKey);
            match LookUp(s.tables, s.calls[c].request.key, s.calls[c].canonical, s.clock)
            case Unused =>
              || found.calls[c].pc == Snapshotting
              || (found.calls[c].pc.Checking? && ApplyCall(g, found, c, CheckKey).calls[c].pc == Snapshotting)
              || (found.calls[c].pc.Checking? && ApplyCall(g, found, c, CheckKey).calls[c].pc.Fetching?
                  && ApplyCall(g, ApplyCall(g, found, c, CheckKey), c, FetchEvaluation).calls[c].pc == Snapshotting)
            case Conflict =>
              found.calls[c].pc.Checking? && ApplyCall(g, found, c, CheckKey).calls[c].pc == Finished(Conflicted)
            case Replayed(id, row) =>
              && found.calls[c].pc.Checking? && ApplyCall(g, found, c, CheckKey).calls[c].pc.Fetching?
              && ApplyCall(g, ApplyCall(g, found, c, CheckKey), c, FetchEvaluation).calls[c].pc == Finished(Responded(id, row, true))
  {
    hide DecisionOf, Persisted;
  }
}
