/** What every interleaving of Create calls and retention passes keeps. */
module IdempotencyInvariants {
  import opened Names
  import opened Decision
  import opened Evaluation
  import opened EvaluationStore
  import opened Idempotency

  // ----- Call steps that commit nothing -----

  ghost predicate Commits(s: State, c: nat) {
    && c in s.calls && s.calls[c].pc.Committing?
    && var pc := s.calls[c].pc;
       Persisted(s.tables, pc.id, pc.row, s.calls[c].request.key, pc.keyRow).Some?
  }

  ghost predicate QuietStep(s: State, c: nat, a: CallStep) {
    c in s.calls && CallEnabled(s.calls[c].pc, a) && !(a.CommitTransaction? && Commits(s, c))
  }

  ghost function AfterQuiet(g: Settings, s: State, c: nat, a: CallStep): State
    requires QuietStep(s, c, a)
  {
    ApplyCall(g, s, c, a)
  }

  /** Such a step moves its own call and leaves the rows, the keys and the log alone. */
  lemma QuietEffect(g: Settings, s: State, c: nat, a: CallStep)
    requires QuietStep(s, c, a)
    ensures var t := AfterQuiet(g, s, c, a);
            && t == s.(calls := t.calls, tables := s.tables.(snapshots := t.tables.snapshots), nextID := t.nextID)
            && c in s.calls && CallEnabled(s.calls[c].pc, a) && c in t.calls && t.calls == s.calls[c := t.calls[c]]
            && t.calls[c] == s.calls[c].(pc := NextPc(g, s, s.calls[c], a))
            && t.nextID == s.nextID + (if a.BeginDecision? then 1 else 0)
            && !s.calls[c].pc.Finished?
            && (!a.RecordSnapshot? ==> t.tables == s.tables)
            && (a.RecordSnapshot? ==> t.tables == WithSnapshot(s.tables, s.calls[c].canonical.policyHash))
  {
    hide NextPc, Persisted;
  }

  lemma QuietKeepsIDs(g: Settings, s: State, c: nat, a: CallStep)
    requires QuietStep(s, c, a) && FreshIDs(s)
    ensures FreshIDs(AfterQuiet(g, s, c, a))
  {
    QuietEffect(g, s, c, a);
    HeldByNext(g, s, s.calls[c], a);
    hide AfterQuiet, NextPc, QuietStep;
  }

  lemma HeldByNext(g: Settings, s: State, call: Call, a: CallStep)
    requires CallEnabled(call.pc, a)
    ensures var next := HeldID(NextPc(g, s, call, a));
            next == HeldID(call.pc) || next.None? || (a.BeginDecision? && next == Some(s.nextID))
  {
    hide DecisionOf, Persisted;
  }

  lemma CommittedForKept(s: State, t: State, id: nat, key: Name, canonical: CanonicalRequest)
    requires CommittedFor(s, id, key, canonical)
    requires t.log == s.log && s.calls.Keys <= t.calls.Keys
    requires forall c | c in s.calls :: t.calls[c].request == s.calls[c].request && t.calls[c].canonical == s.calls[c].canonical
    ensures CommittedFor(t, id, key, canonical)
  {}

  /** What the key's record and the evaluation it names are good for after one more step. */
  lemma NextLooksUp(g: Settings, s: State, call: Call, a: CallStep)
    requires CallEnabled(call.pc, a) && !a.CommitTransaction?
    requires forall k | k in s.tables.keys :: Backed(g, s, k, s.tables.keys[k])
    requires call.pc.Checking? ==> Backed(g, s, call.request.key, call.pc.record)
    requires call.pc.Fetching? ==> CommittedFor(s, call.pc.found, call.request.key, call.canonical)
    requires RowsLogged(s)
    ensures var next := NextPc(g, s, call, a);
            && (next.Checking? ==> Backed(g, s, call.request.key, next.record))
            && (next.Fetching? ==> CommittedFor(s, next.found, call.request.key, call.canonical))
            && (next.Finished? && next.response.Responded? ==>
                  && CommittedFor(s, next.response.id, call.request.key, call.canonical)
                  && next.response.row == s.log[next.response.id].row)
  {
    hide DecisionOf, Persisted, CommittedFor;
  }

  /** A failed transaction only fails its call. */
  lemma FailedCommit(g: Settings, s: State, c: nat)
    requires QuietStep(s, c, CommitTransaction)
    ensures NextPc(g, s, s.calls[c], CommitTransaction) == Finished(Errored)
  {
    hide Persisted;
  }

  lemma QuietKeepsKeys(g: Settings, s: State, c: nat, a: CallStep)
    requires QuietStep(s, c, a) && KeysBacked(g, s) && RowsLogged(s) && Responses(s)
    ensures var t := AfterQuiet(g, s, c, a); KeysBacked(g, t) && Responses(t)
  {
    hide AfterQuiet, NextPc, RowsLogged, QuietStep, CommittedFor;
    QuietEffect(g, s, c, a);
    var t := AfterQuiet(g, s, c, a);
    if a.CommitTransaction? { FailedCommit(g, s, c); } else { NextLooksUp(g, s, s.calls[c], a); }
    forall id, key, canonical | CommittedFor(s, id, key, canonical) ensures CommittedFor(t, id, key, canonical) {
      CommittedForKept(s, t, id, key, canonical);
    }
  }

  lemma QuietKeepsOwned(g: Settings, s: State, c: nat, a: CallStep)
    requires QuietStep(s, c, a) && CommitsOwned(s)
    ensures CommitsOwned(AfterQuiet(g, s, c, a))
  {
    QuietEffect(g, s, c, a);
    NextCommits(g, s, s.calls[c], a);
    hide AfterQuiet, NextPc, QuietStep;
  }

  lemma NextCommits(g: Settings, s: State, call: Call, a: CallStep)
    requires CallEnabled(call.pc, a)
    ensures var next := NextPc(g, s, call, a);
            next.Committing? ==>
              && a.ReadCommitClock? && next.keyRow == KeyRow(call.canonical, next.id, s.clock + g.keyRetention, s.clock)
  {
    hide DecisionOf, Persisted;
  }

  lemma QuietKeepsWindows(g: Settings, s: State, c: nat, a: CallStep)
    requires QuietStep(s, c, a) && WindowOver(g, s) && Ordered(s) && Spaced(g, s) && SweepsPast(s) && RowsLogged(s)
    ensures var t := AfterQuiet(g, s, c, a);
            WindowOver(g, t) && Ordered(t) && Spaced(g, t) && SweepsPast(t) && RowsLogged(t)
  {
    hide AfterQuiet, NextPc, QuietStep, KeyOf;
    QuietEffect(g, s, c, a);
    QuietKeys(g, s, c, a);
  }

  lemma QuietKeys(g: Settings, s: State, c: nat, a: CallStep)
    requires QuietStep(s, c, a)
    ensures forall id :: KeyOf(AfterQuiet(g, s, c, a), id) == KeyOf(s, id)
  {
    hide AfterQuiet, NextPc, QuietStep;
    QuietEffect(g, s, c, a);
  }

  lemma NextSnapshot(g: Settings, s: State, call: Call, a: CallStep)
    requires CallEnabled(call.pc, a)
    ensures PastSnapshot(NextPc(g, s, call, a)) ==> PastSnapshot(call.pc) || a.RecordSnapshot?
  {
    hide DecisionOf, Persisted;
  }

  lemma QuietKeepsSnapshots(g: Settings, s: State, c: nat, a: CallStep)
    requires QuietStep(s, c, a) && SnapshotsKept(s)
    ensures SnapshotsKept(AfterQuiet(g, s, c, a))
  {
    QuietEffect(g, s, c, a);
    NextSnapshot(g, s, s.calls[c], a);
    hide AfterQuiet, NextPc, QuietStep;
  }

  lemma NextDecided(g: Settings, s: State, call: Call, a: CallStep)
    requires CallEnabled(call.pc, a)
    requires call.pc.Persisting? ==> DecidedBy(call, call.pc.row, call.pc.reply)
    ensures var next := NextPc(g, s, call, a);
            && (next.Persisting? ==> DecidedBy(call, next.row, next.reply))
            && (next.Committing? ==> DecidedBy(call, next.row, next.reply))
  {
    hide DecisionOf, Persisted;
  }

  /** Whether a row is what a call decides does not depend on how far the call has got. */
  lemma DecidedRegardless(call: Call, pc: Pc, row: EvaluationRow, reply: Reply)
    ensures DecidedBy(call.(pc := pc), row, reply) <==> DecidedBy(call, row, reply)
  {
    hide DecisionOf;
  }

  lemma GenuineRegardless(call: Call, pc: Pc)
    ensures Genuine(call.(pc := pc)) <==> Genuine(call)
  {
    hide Admissible, CanonicalOf;
  }

  lemma QuietKeepsOrigins(g: Settings, s: State, c: nat, a: CallStep)
    requires QuietStep(s, c, a) && Origins(s)
    ensures Origins(AfterQuiet(g, s, c, a))
  {
    hide AfterQuiet, QuietStep, DecidedBy, Genuine, NextPc;
    QuietEffect(g, s, c, a);
    NextDecided(g, s, s.calls[c], a);
    var t := AfterQuiet(g, s, c, a);
    GenuineRegardless(s.calls[c], t.calls[c].pc);
    forall row, reply ensures DecidedBy(t.calls[c], row, reply) <==> DecidedBy(s.calls[c], row, reply) {
      DecidedRegardless(s.calls[c], t.calls[c].pc, row, reply);
    }
  }

  lemma QuietKeepsRows(g: Settings, s: State, c: nat, a: CallStep)
    requires QuietStep(s, c, a) && RowsKept(g, s)
    ensures RowsKept(g, AfterQuiet(g, s, c, a))
  {
    hide AfterQuiet, QuietStep, NextPc, Aged, AllAged;
    QuietEffect(g, s, c, a);
    AgedStays(g, s, AfterQuiet(g, s, c, a));
  }

  /** Age only grows. */
  lemma AgedStays(g: Settings, s: State, t: State)
    requires t.clock >= s.clock && forall id | id in s.log :: id in t.log && t.log[id] == s.log[id]
    ensures forall id | Aged(g, s, id) :: Aged(g, t, id)
    ensures forall ids | AllAged(g, s, ids) :: AllAged(g, t, ids)
  {
    assert forall id | Aged(g, s, id) :: Aged(g, t, id);
    hide Aged;
  }

  lemma QuietKeeps(g: Settings, s: State, c: nat, a: CallStep)
    requires QuietStep(s, c, a) && Inv(g, s)
    ensures Inv(g, AfterQuiet(g, s, c, a))
  {
    hide QuietStep, AfterQuiet, FreshIDs, KeysBacked, CommitsOwned, Responses, WindowOver, Ordered, Spaced, SweepsPast, RowsLogged, SnapshotsKept, Origins, Expiries, RowsKept;
    QuietKeepsIDs(g, s, c, a);
    QuietKeepsKeys(g, s, c, a);
    QuietKeepsOwned(g, s, c, a);
    QuietKeepsWindows(g, s, c, a);
    QuietKeepsSnapshots(g, s, c, a);
    QuietKeepsOrigins(g, s, c, a);
    QuietKeepsExpiries(g, s, c, a);
    QuietKeepsRows(g, s, c, a);
  }

  // ----- A commit -----

  ghost function AfterCommit(g: Settings, s: State, c: nat): State
    requires Commits(s, c)
  {
    ApplyCall(g, s, c, CommitTransaction)
  }

  lemma CommitEffect(g: Settings, s: State, c: nat)
    requires Commits(s, c)
    ensures c in s.calls && s.calls[c].pc.Committing?
    ensures var call, t := s.calls[c], AfterCommit(g, s, c);
            var pc := call.pc;
            && t == s.(calls := t.calls, tables := t.tables, log := t.log)
            && t.calls == s.calls[c := call.(pc := Finished(Responded(pc.id, pc.row, false)))]
            && t.log == s.log[pc.id := Commit(c, pc.row, pc.reply, pc.keyRow.createdAt, s.clock, |s.log|)]
            && t.tables == s.tables.(evaluations := t.tables.evaluations, keys := t.tables.keys)
            && t.tables.evaluations == s.tables.evaluations[pc.id := pc.row]
            && t.tables.keys == (if call.request.key == EMPTY then s.tables.keys else s.tables.keys[call.request.key := pc.keyRow])
            && pc.id !in s.tables.evaluations && (call.request.key == EMPTY || call.request.key !in s.tables.keys)
  {}

  lemma CommitKeepsIDs(g: Settings, s: State, c: nat)
    requires Commits(s, c) && FreshIDs(s)
    ensures FreshIDs(AfterCommit(g, s, c))
  {
    hide AfterCommit, Persisted;
    CommitEffect(g, s, c);
  }

  ghost predicate SameEntry(s: State, t: State, id: nat) {
    id in s.log && id in t.log && t.log[id] == s.log[id]
  }

  lemma CommitKeepsCommittedFor(g: Settings, s: State, c: nat, id: nat, key: Name, canonical: CanonicalRequest)
    requires Commits(s, c) && FreshIDs(s) && CommittedFor(s, id, key, canonical)
    ensures var t := AfterCommit(g, s, c); CommittedFor(t, id, key, canonical) && SameEntry(s, t, id)
  {
    hide AfterCommit, Persisted;
    CommitEffect(g, s, c);
  }

  lemma CommitIsBacked(g: Settings, s: State, c: nat)
    requires Commits(s, c) && CommitsOwned(s)
    requires s.calls[c].pc.keyRow.expiresAt == s.calls[c].pc.keyRow.createdAt + g.keyRetention
    ensures var t := AfterCommit(g, s, c); var pc := s.calls[c].pc;
            && CommittedFor(t, pc.id, s.calls[c].request.key, s.calls[c].canonical) && t.log[pc.id].row == pc.row
            && (s.calls[c].request.key != EMPTY ==> Backed(g, t, s.calls[c].request.key, pc.keyRow))
  {
    hide AfterCommit, Persisted;
    CommitEffect(g, s, c);
  }

  lemma CommitKeepsKeys(g: Settings, s: State, c: nat)
    requires Commits(s, c) && FreshIDs(s) && CommitsOwned(s) && KeysBacked(g, s) && Responses(s)
    requires s.calls[c].pc.keyRow.expiresAt == s.calls[c].pc.keyRow.createdAt + g.keyRetention
    ensures var t := AfterCommit(g, s, c); KeysBacked(g, t) && Responses(t)
  {
    hide AfterCommit, CommittedFor, Commits, FreshIDs, CommitsOwned;
    CommitEffect(g, s, c);
    CommitIsBacked(g, s, c);
    var t := AfterCommit(g, s, c);
    forall id, key, canonical | CommittedFor(s, id, key, canonical) ensures CommittedFor(t, id, key, canonical) && SameEntry(s, t, id) {
      CommitKeepsCommittedFor(g, s, c, id, key, canonical);
    }
  }

  lemma CommitKeepsOwned(g: Settings, s: State, c: nat)
    requires Commits(s, c) && CommitsOwned(s)
    ensures CommitsOwned(AfterCommit(g, s, c))
  {
    hide AfterCommit, Persisted;
    CommitEffect(g, s, c);
  }

  /** The keys of earlier commits; the new one's key is its call's. */
  lemma CommitKeys(g: Settings, s: State, c: nat, id: nat)
    requires Commits(s, c)
    ensures KeyOf(AfterCommit(g, s, c), id) == if id == s.calls[c].pc.id then s.calls[c].request.key else KeyOf(s, id)
  {
    hide AfterCommit, Persisted;
    CommitEffect(g, s, c);
  }

  lemma CommitKeepsWindows(g: Settings, s: State, c: nat)
    requires Commits(s, c) && FreshIDs(s) && CommitsOwned(s) && WindowOver(g, s)
    ensures WindowOver(g, AfterCommit(g, s, c))
  {
    hide AfterCommit, KeyOf, Commits;
    CommitEffect(g, s, c);
    HeldIsNew(s, c);
    forall id {
      CommitKeys(g, s, c, id);
    }
    hide FreshIDs;
  }

  lemma HeldIsNew(s: State, c: nat)
    requires Commits(s, c) && FreshIDs(s)
    ensures s.calls[c].pc.id !in s.log
  {}

  lemma CommitKeepsOrder(g: Settings, s: State, c: nat)
    requires Commits(s, c) && FreshIDs(s) && Ordered(s)
    ensures Ordered(AfterCommit(g, s, c))
  {
    hide AfterCommit, Commits;
    CommitEffect(g, s, c);
    HeldIsNew(s, c);
    hide FreshIDs;
  }

  /** The heart of the matter: a commit under a key finds the key free, so every earlier commit
      under it has outlived its window. */
  lemma CommitKeepsSpacing(g: Settings, s: State, c: nat)
    requires Commits(s, c) && FreshIDs(s) && Ordered(s) && WindowOver(g, s) && Spaced(g, s)
    ensures Spaced(g, AfterCommit(g, s, c))
  {
    hide AfterCommit, KeyOf, Commits;
    CommitEffect(g, s, c);
    HeldIsNew(s, c);
    forall id {
      CommitKeys(g, s, c, id);
    }
    hide FreshIDs;
  }

  lemma CommitKeepsRows(g: Settings, s: State, c: nat)
    requires Commits(s, c) && FreshIDs(s) && SweepsPast(s) && RowsLogged(s)
    ensures var t := AfterCommit(g, s, c); SweepsPast(t) && RowsLogged(t)
  {
    hide AfterCommit, Commits;
    CommitEffect(g, s, c);
    HeldIsNew(s, c);
    hide FreshIDs;
  }

  lemma CommitKeepsSnapshots(g: Settings, s: State, c: nat)
    requires Commits(s, c) && SnapshotsKept(s) && DecidedBy(s.calls[c], s.calls[c].pc.row, s.calls[c].pc.reply)
    ensures SnapshotsKept(AfterCommit(g, s, c))
  {
    hide AfterCommit, Commits, DecisionOf;
    CommitEffect(g, s, c);
  }

  lemma CommitKeepsOrigins(g: Settings, s: State, c: nat)
    requires Commits(s, c) && FreshIDs(s) && Origins(s)
    ensures Origins(AfterCommit(g, s, c))
  {
    hide AfterCommit, Commits, DecidedBy, Genuine, FreshIDs;
    CommitEffect(g, s, c);
    HeldIsNew(s, c);
    var t := AfterCommit(g, s, c);
    GenuineRegardless(s.calls[c], t.calls[c].pc);
    forall row, reply ensures DecidedBy(t.calls[c], row, reply) <==> DecidedBy(s.calls[c], row, reply) {
      DecidedRegardless(s.calls[c], t.calls[c].pc, row, reply);
    }
  }

  lemma CommittingExpiry(g: Settings, s: State, c: nat)
    requires Commits(s, c) && Expiries(g, s)
    ensures s.calls[c].pc.keyRow.expiresAt == s.calls[c].pc.keyRow.createdAt + g.keyRetention
  {}

  lemma CommitKeeps(g: Settings, s: State, c: nat)
    requires Commits(s, c) && Inv(g, s)
    ensures Inv(g, AfterCommit(g, s, c))
  {
    hide Commits, AfterCommit, FreshIDs, KeysBacked, CommitsOwned, Responses, WindowOver, Ordered, Spaced, SweepsPast, RowsLogged, SnapshotsKept, Origins, Expiries, RowsKept;
    CommittingExpiry(g, s, c);
    CommittingDecided(s, c);
    CommitKeepsIDs(g, s, c);
    CommitKeepsKeys(g, s, c);
    CommitKeepsOwned(g, s, c);
    CommitKeepsWindows(g, s, c);
    CommitKeepsOrder(g, s, c);
    CommitKeepsSpacing(g, s, c);
    CommitKeepsRows(g, s, c);
    CommitKeepsSnapshots(g, s, c);
    CommitKeepsOrigins(g, s, c);
    CommitKeepsExpiries(g, s, c);
    CommitKeepsTable(g, s, c);
  }

  lemma CommitKeepsTable(g: Settings, s: State, c: nat)
    requires Commits(s, c) && FreshIDs(s) && RowsKept(g, s)
    ensures RowsKept(g, AfterCommit(g, s, c))
  {
    hide AfterCommit, Commits, FreshIDs, Aged, AllAged;
    CommitEffect(g, s, c);
    HeldIsNew(s, c);
    AgedStays(g, s, AfterCommit(g, s, c));
  }

  lemma CommittingDecided(s: State, c: nat)
    requires Commits(s, c) && Origins(s)
    ensures DecidedBy(s.calls[c], s.calls[c].pc.row, s.calls[c].pc.reply)
  {
    hide DecidedBy, Genuine, Persisted;
  }

  lemma CommitKeepsExpiries(g: Settings, s: State, c: nat)
    requires Commits(s, c) && Expiries(g, s)
    ensures Expiries(g, AfterCommit(g, s, c))
  {
    hide AfterCommit, Commits;
    CommitEffect(g, s, c);
  }

  lemma QuietKeepsExpiries(g: Settings, s: State, c: nat, a: CallStep)
    requires QuietStep(s, c, a) && Expiries(g, s)
    ensures Expiries(g, AfterQuiet(g, s, c, a))
  {
    hide AfterQuiet, NextPc, QuietStep;
    QuietEffect(g, s, c, a);
    NextCommits(g, s, s.calls[c], a);
  }

  // ----- The clock, new calls and retention -----

  lemma ArrivalKeeps(g: Settings, s: State, c: nat, request: Request)
    requires Enabled(g, s, Arrive(c, request)) && Inv(g, s)
    ensures Inv(g, Apply(g, s, Arrive(c, request)))
  {
    var t := Apply(g, s, Arrive(c, request));
    var call := Call(request, CanonicalOf(request), Looking);
    assert t == s.(calls := s.calls[c := call]) && c !in s.calls && Genuine(call) && call.pc == Looking;
    hide Enabled, Apply, Genuine, FreshIDs, KeysBacked, CommitsOwned, Responses, WindowOver, Ordered, Spaced, SweepsPast, RowsLogged, SnapshotsKept, Origins, Expiries, RowsKept;
    ArrivalKeepsRecords(g, s, t, c, call);
    ArrivalKeepsLog(g, s, t, c, call);
    ArrivalKeepsRest(g, s, t, c, call);
    ArrivalKeepsRows(g, s, t, c, call);
  }

  ghost predicate Arrives(s: State, t: State, c: nat, call: Call) {
    t == s.(calls := s.calls[c := call]) && c !in s.calls && call.pc == Looking
  }

  lemma ArrivalKeepsRecords(g: Settings, s: State, t: State, c: nat, call: Call)
    requires Arrives(s, t, c, call)
    requires FreshIDs(s) && KeysBacked(g, s) && Responses(s) && Expiries(g, s)
    ensures FreshIDs(t) && KeysBacked(g, t) && Responses(t) && Expiries(g, t)
  {
    hide CommittedFor;
    forall id, key, canonical | CommittedFor(s, id, key, canonical) ensures CommittedFor(t, id, key, canonical) {
      hide FreshIDs, KeysBacked, Responses, Expiries;
      CommittedForKept(s, t, id, key, canonical);
    }
  }

  lemma ArrivalKeepsLog(g: Settings, s: State, t: State, c: nat, call: Call)
    requires Arrives(s, t, c, call) && CommitsOwned(s)
    requires WindowOver(g, s) && Ordered(s) && Spaced(g, s)
    ensures WindowOver(g, t) && Ordered(t) && Spaced(g, t) && CommitsOwned(t)
  {
    hide KeyOf, CommitsOwned;
    ArrivalKeepsOwned(s, t, c, call);
  }

  lemma ArrivalKeepsOwned(s: State, t: State, c: nat, call: Call)
    requires Arrives(s, t, c, call) && CommitsOwned(s)
    ensures CommitsOwned(t)
    ensures forall id | id in s.log :: KeyOf(t, id) == KeyOf(s, id)
  {}

  lemma ArrivalKeepsRest(g: Settings, s: State, t: State, c: nat, call: Call)
    requires Arrives(s, t, c, call) && Genuine(call)
    requires SnapshotsKept(s) && RowsLogged(s) && SweepsPast(s) && Origins(s)
    ensures SnapshotsKept(t) && RowsLogged(t) && SweepsPast(t) && Origins(t)
  {
    hide Genuine, DecidedBy;
  }

  lemma ArrivalKeepsRows(g: Settings, s: State, t: State, c: nat, call: Call)
    requires Arrives(s, t, c, call) && RowsKept(g, s)
    ensures RowsKept(g, t)
  {
    hide Aged, AllAged;
    AgedStays(g, s, t);
  }

  /** Time passing and retention change nothing a call or the log says. */
  ghost predicate SameCalls(s: State, t: State) {
    t.calls == s.calls && t.log == s.log && t.nextID == s.nextID && t.clock >= s.clock && t.tables.snapshots == s.tables.snapshots
  }

  predicate Outside(a: Step) {
    !a.Arrive? && !a.OfCall?
  }

  lemma OutsideEffect(g: Settings, s: State, a: Step)
    requires Enabled(g, s, a) && Outside(a) && SweepsPast(s)
    ensures var t := Apply(g, s, a);
            && SameCalls(s, t) && SweepsPast(t)
            && t.tables.evaluations.Keys <= s.tables.evaluations.Keys
            && (forall id | id in t.tables.evaluations :: t.tables.evaluations[id] == s.tables.evaluations[id])
            && t.tables.keys.Keys <= s.tables.keys.Keys
            && (forall k | k in t.tables.keys :: t.tables.keys[k] == s.tables.keys[k])
            && (forall k | k in s.tables.keys && k !in t.tables.keys :: s.tables.keys[k].expiresAt < t.clock)
  {
    match a
    case SweepExpiresKeys(w, gone) => assert s.sweeps[w].now <= s.clock;
    case _ =>
  }

  lemma OutsideKeepsCalls(g: Settings, s: State, a: Step)
    requires Enabled(g, s, a) && Outside(a) && SweepsPast(s)
    requires FreshIDs(s) && CommitsOwned(s) && Ordered(s) && Origins(s) && Expiries(g, s)
    ensures var t := Apply(g, s, a); FreshIDs(t) && CommitsOwned(t) && Ordered(t) && Origins(t) && Expiries(g, t)
  {
    hide Apply, Enabled, FreshIDs, CommitsOwned, Ordered, Origins, Expiries, RowsKept;
    OutsideEffect(g, s, a);
    SameCallsKeep(g, s, Apply(g, s, a));
    SameCallsKeepOrigins(s, Apply(g, s, a));
  }

  lemma SameCallsKeep(g: Settings, s: State, t: State)
    requires SameCalls(s, t) && FreshIDs(s) && CommitsOwned(s) && Ordered(s) && Expiries(g, s)
    ensures FreshIDs(t) && CommitsOwned(t) && Ordered(t) && Expiries(g, t)
  {}

  lemma SameCallsKeepOrigins(s: State, t: State)
    requires SameCalls(s, t) && Origins(s)
    ensures Origins(t)
  {
    hide DecidedBy, Genuine;
  }

  lemma OutsideKeepsKeys(g: Settings, s: State, a: Step)
    requires Enabled(g, s, a) && Outside(a) && SweepsPast(s)
    requires KeysBacked(g, s) && Responses(s)
    ensures var t := Apply(g, s, a); KeysBacked(g, t) && Responses(t)
  {
    hide Apply, Enabled, CommittedFor;
    OutsideEffect(g, s, a);
    var t := Apply(g, s, a);
    forall id, key, canonical | CommittedFor(s, id, key, canonical) ensures CommittedFor(t, id, key, canonical) {
      CommittedForKept(s, t, id, key, canonical);
    }
  }

  lemma OutsideKeepsWindows(g: Settings, s: State, a: Step)
    requires Enabled(g, s, a) && Outside(a) && SweepsPast(s) && KeysBacked(g, s)
    requires WindowOver(g, s) && Spaced(g, s) && RowsLogged(s) && SnapshotsKept(s)
    ensures var t := Apply(g, s, a);
            WindowOver(g, t) && Spaced(g, t) && SweepsPast(t) && RowsLogged(t) && SnapshotsKept(t)
  {
    hide Apply, Enabled, CommittedFor, KeyOf;
    OutsideEffect(g, s, a);
    var t := Apply(g, s, a);
    assert forall id :: KeyOf(t, id) == KeyOf(s, id) by { SameKeys(s, t); }
  }

  lemma OutsideKeepsRows(g: Settings, s: State, a: Step)
    requires Enabled(g, s, a) && Outside(a) && SweepsPast(s) && RowsLogged(s) && RowsKept(g, s)
    ensures RowsKept(g, Apply(g, s, a))
  {
    hide Aged, AllAged, Persisted;
    var t := Apply(g, s, a);
    AgedStays(g, s, t);
    match a
    case SweepFinds(w, found) => FoundAreAged(g, s, w, found);
    case SweepDeletes(w) => AgedMembers(g, s, s.sweeps[w].ids);
    case _ =>
  }

  lemma FoundAreAged(g: Settings, s: State, w: nat, found: set<nat>)
    requires Enabled(g, s, SweepFinds(w, found)) && SweepsPast(s) && RowsLogged(s)
    ensures AllAged(g, s, found)
  {
    assert s.sweeps[w].now <= s.clock;
  }

  lemma AgedMembers(g: Settings, s: State, ids: set<nat>)
    requires AllAged(g, s, ids)
    ensures forall id | id in ids :: Aged(g, s, id)
  {
    hide Aged;
  }

  lemma SameKeys(s: State, t: State)
    requires SameCalls(s, t)
    ensures forall id :: KeyOf(t, id) == KeyOf(s, id)
  {}

  lemma StepKeeps(g: Settings, s: State, a: Step)
    requires Inv(g, s) && Enabled(g, s, a)
    ensures Inv(g, Apply(g, s, a))
  {
    hide Inv;
    match a
    case Arrive(c, request) => ArrivalKeeps(g, s, c, request);
    case OfCall(c, step) => if step.CommitTransaction? && Commits(s, c) { CommitKeeps(g, s, c); } else { QuietKeeps(g, s, c, step); }
    case _ => OutsideKeeps(g, s, a);
  }

  lemma OutsideKeeps(g: Settings, s: State, a: Step)
    requires Enabled(g, s, a) && Outside(a) && Inv(g, s)
    ensures Inv(g, Apply(g, s, a))
  {
    hide Apply, Enabled, Outside, FreshIDs, KeysBacked, CommitsOwned, Responses, WindowOver, Ordered, Spaced, SweepsPast, RowsLogged, SnapshotsKept, Origins, Expiries, RowsKept;
    OutsideKeepsCalls(g, s, a);
    OutsideKeepsKeys(g, s, a);
    OutsideKeepsRows(g, s, a);
    OutsideKeepsWindows(g, s, a);
  }

  lemma {:induction false} RunsKeep(g: Settings, s: State, steps: seq<Step>, t: State)
    requires Inv(g, s) && Runs(g, s, steps, t)
    ensures Inv(g, t)
    decreases |steps|
  {
    hide Inv, Apply, Enabled;
    if steps != [] {
      StepKeeps(g, s, steps[0]);
      RunsKeep(g, Apply(g, s, steps[0]), steps[1..], t);
    }
  }

  lemma InitInv(g: Settings, s: State)
    requires Init(s)
    ensures Inv(g, s)
  {
    hide DecidedBy, Genuine, CommittedFor;
  }

  lemma ReachableKeeps(g: Settings, s: State)
    requires Reachable(g, s)
    ensures Inv(g, s)
  {
    hide Inv, Runs, Init;
    var init, steps :| Init(init) && Runs(g, init, steps, s);
    InitInv(g, init);
    RunsKeep(g, init, steps, s);
  }
}
