/** Create calls and retention passes over one database, interleaved statement by statement, with
    a clock that never goes back. */
module Idempotency {
  import opened Names
  import opened Decision
  import opened Policy
  import opened PolicyTheorems
  import opened Canonical
  import opened PolicyRuntime
  import opened Evaluation
  import opened EvaluationStore
  import opened QuestionValue

  // ----- Requests -----

  /** One Create call's input with its policy resolved; an absent key is empty. */
  datatype Request = Request(key: Name, policy: Compiled, state: Value, facts: Facts, metadata: map<Name, Name>)

  /** What every request must look like, whatever its policy: facts are named scalars, and metadata
      keys are names of the same kind. */
  predicate ShapeAccepted(r: Request) {
    && (forall n | n in r.facts :: IsFactName(n) && KindOf(r.facts[n]) != NoScalar)
    && (forall k | k in r.metadata :: IsFactName(k))
  }

  /** A request gets past validation: its policy compiled, and its shape is accepted. */
  ghost predicate Admissible(r: Request) {
    Sound(r.policy) && ShapeAccepted(r)
  }

  /** The canonical request: number representations do not show in its encoding. */
  function CanonicalOf(r: Request): CanonicalRequest {
    CanonicalRequest(Form(r.policy), Normalized(r.state), NormalizedFacts(r.facts), r.metadata)
  }

  /** Two requests ask for the same: equal policies, the same state and facts whatever Go types hold
      their numbers, and equal metadata. The key is not part of it. */
  ghost predicate SameRequest(a: Request, b: Request) {
    && SamePolicy(a.policy, b.policy) && SameValue(a.state, b.state)
    && SameFacts(a.facts, b.facts) && a.metadata == b.metadata
  }

  /** Two requests have equal canonical requests exactly when they ask for the same. */
  lemma CanonicalTellsApart(a: Request, b: Request)
    requires Sound(a.policy) && Sound(b.policy)
    ensures CanonicalOf(a) == CanonicalOf(b) <==> SameRequest(a, b)
  {
    hide Sound, SamePolicy, SameValue, Normalized;
    FormKeepsEverything(a.policy, b.policy);
    NormalizedTellsApart(a.state, b.state);
    FactsTellApart(a.facts, b.facts);
    hide Form, SameFacts;
  }

  function NormalizedFacts(facts: Facts): Facts {
    map n | n in facts :: Normalized(facts[n])
  }

  lemma FactsTellApart(f: Facts, g: Facts)
    ensures NormalizedFacts(f) == NormalizedFacts(g) <==> SameFacts(f, g)
  {
    hide SameValue, Normalized;
    var a, b := NormalizedFacts(f), NormalizedFacts(g);
    assert a.Keys == f.Keys && b.Keys == g.Keys;
    if f.Keys == g.Keys {
      forall n | n in f ensures a[n] == b[n] <==> SameValue(f[n], g[n]) {
        NormalizedTellsApart(f[n], g[n]);
      }
      assert (forall n | n in f :: a[n] == b[n]) ==> a == b;
    }
  }

  /** The deployment's windows. */
  datatype Settings = Settings(keyRetention: int, evaluationRetention: int)

  // ----- State -----

  datatype Response = Responded(id: nat, row: EvaluationRow, replayed: bool) | Conflicted | Errored

  datatype Pc =
    | Looking
    | Checking(record: KeyRow)
    | Fetching(found: nat)
    | Snapshotting
    | Starting
    | Deciding(id: nat, startedAt: int)
    | Persisting(id: nat, row: EvaluationRow, reply: Reply)
    | Committing(id: nat, row: EvaluationRow, reply: Reply, keyRow: KeyRow)
    | Finished(response: Response)

  datatype Call = Call(request: Request, canonical: CanonicalRequest, pc: Pc)

  datatype Sweep = Expiring(now: int) | Finding(now: int) | Deleting(ids: set<nat>)

  /** What a commit recorded; order numbers commits. */
  datatype Commit = Commit(call: nat, row: EvaluationRow, reply: Reply, createdAt: int, committedAt: int, order: nat)

  /** log keeps every evaluation ever committed, by ID, whether or not its row still exists. */
  datatype State = State(
    clock: int,
    tables: Tables,
    calls: map<nat, Call>,
    sweeps: map<nat, Sweep>,
    log: map<nat, Commit>,
    nextID: nat)

  predicate Init(s: State) {
    s.tables == Tables(map[], map[], map[]) && s.calls == map[] && s.sweeps == map[] && s.log == map[]
  }

  // ----- Steps -----

  datatype CallStep =
    | ReadKey                 // the key record, if any
    | CheckKey                // its expiry against the clock, then its request
    | FetchEvaluation
    | RecordSnapshot
    | BeginDecision           // a fresh ID and the start time
    | EndDecision(reply: Reply)
    | ReadCommitClock         // inside the transaction
    | CommitTransaction
    | Abort                   // a database or context error anywhere on the way

  datatype Step =
    | Tick(to: int)
    | Arrive(call: nat, request: Request)
    | OfCall(call: nat, step: CallStep)
    | SweepBegins(sweep: nat)
    | SweepExpiresKeys(sweep: nat, goneKeys: set<Name>)
    | SweepFinds(sweep: nat, found: set<nat>)
    | SweepDeletes(sweep: nat)

  predicate CallEnabled(pc: Pc, a: CallStep) {
    match a
    case ReadKey => pc.Looking?
    case CheckKey => pc.Checking?
    case FetchEvaluation => pc.Fetching?
    case RecordSnapshot => pc.Snapshotting?
    case BeginDecision => pc.Starting?
    case EndDecision(_) => pc.Deciding?
    case ReadCommitClock => pc.Persisting?
    case CommitTransaction => pc.Committing?
    case Abort => !pc.Finished?
  }

  ghost predicate Enabled(g: Settings, s: State, a: Step) {
    match a
    case Tick(to) => to >= s.clock
    case Arrive(c, request) => c !in s.calls && Admissible(request)
    case OfCall(c, step) => c in s.calls && CallEnabled(s.calls[c].pc, step)
    case SweepBegins(w) => w !in s.sweeps
    case SweepExpiresKeys(w, gone) => w in s.sweeps && s.sweeps[w].Expiring? && ExpiredKeys(s.tables, s.sweeps[w].now, gone)
    case SweepFinds(w, found) =>
      && w in s.sweeps && s.sweeps[w].Finding? && g.evaluationRetention > 0
      && ExpiredEvaluations(s.tables, s.sweeps[w].now - g.evaluationRetention, found)
    case SweepDeletes(w) => w in s.sweeps && s.sweeps[w].Deleting?
  }

  /** Where a call goes next. */
  ghost function NextPc(g: Settings, s: State, call: Call, a: CallStep): Pc
    requires CallEnabled(call.pc, a)
  {
    var pc := call.pc;
    match a
    case ReadKey =>
      if call.request.key == EMPTY || call.request.key !in s.tables.keys then Snapshotting
      else Checking(s.tables.keys[call.request.key])
    case CheckKey =>
      if pc.record.expiresAt < s.clock then Snapshotting
      else if pc.record.request != call.canonical then Finished(Conflicted)
      else Fetching(pc.record.evaluation)
    case FetchEvaluation =>
      if pc.found in s.tables.evaluations then Finished(Responded(pc.found, s.tables.evaluations[pc.found], true))
      else Snapshotting
    case RecordSnapshot => Starting
    case BeginDecision => Deciding(s.nextID, s.clock)
    case EndDecision(reply) =>
      (match DecisionOf(call.request.policy, call.request.facts, reply)
       case Recorded(verdict) => Persisting(pc.id, EvaluationRow(call.canonical.policyHash, verdict, pc.startedAt), reply)
       case _ => Finished(Errored))
    case ReadCommitClock =>
      Committing(pc.id, pc.row, pc.reply, KeyRow(call.canonical, pc.id, s.clock + g.keyRetention, s.clock))
    case CommitTransaction =>
      if Persisted(s.tables, pc.id, pc.row, call.request.key, pc.keyRow).Some? then Finished(Responded(pc.id, pc.row, false))
      else Finished(Errored)
    case Abort => Finished(Errored)
  }

  /** A call step moves its own call; three kinds also touch what calls share. */
  ghost function ApplyCall(g: Settings, s: State, c: nat, a: CallStep): State
    requires c in s.calls && CallEnabled(s.calls[c].pc, a)
  {
    var call := s.calls[c];
    var moved := s.(calls := s.calls[c := call.(pc := NextPc(g, s, call, a))]);
    match a
    case RecordSnapshot => moved.(tables := WithSnapshot(s.tables, call.canonical.policyHash))
    case BeginDecision => moved.(nextID := s.nextID + 1)
    case CommitTransaction =>
      var pc := call.pc;
      var after := Persisted(s.tables, pc.id, pc.row, call.request.key, pc.keyRow);
      if after.None? then moved
      else moved.(tables := after.value,
                  log := s.log[pc.id := Commit(c, pc.row, pc.reply, pc.keyRow.createdAt, s.clock, |s.log|)])
    case _ => moved
  }

  ghost function Apply(g: Settings, s: State, a: Step): State
    requires Enabled(g, s, a)
  {
    match a
    case Tick(to) => s.(clock := to)
    case Arrive(c, request) => s.(calls := s.calls[c := Call(request, CanonicalOf(request), Looking)])
    case OfCall(c, step) => ApplyCall(g, s, c, step)
    case SweepBegins(w) => s.(sweeps := s.sweeps[w := Expiring(s.clock)])
    case SweepExpiresKeys(w, gone) =>
      s.(tables := WithoutKeys(s.tables, gone), sweeps := s.sweeps[w := Finding(s.sweeps[w].now)])
    case SweepFinds(w, found) => s.(sweeps := s.sweeps[w := Deleting(found)])
    case SweepDeletes(w) => s.(tables := WithoutEvaluations(s.tables, s.sweeps[w].ids), sweeps := s.sweeps - {w})
  }

  ghost predicate Runs(g: Settings, s: State, steps: seq<Step>, t: State)
    decreases |steps|
  {
    if steps == [] then s == t
    else Enabled(g, s, steps[0]) && Runs(g, Apply(g, s, steps[0]), steps[1..], t)
  }

  ghost predicate Reachable(g: Settings, s: State) {
    exists init, steps :: Init(init) && Runs(g, init, steps, s)
  }

  // ----- The invariant -----

  function HeldID(pc: Pc): Option<nat> {
    match pc
    case Deciding(id, _) => Some(id)
    case Persisting(id, _, _) => Some(id)
    case Committing(id, _, _, _) => Some(id)
    case _ => None
  }

  /** Evaluation IDs are never reused: committed ones and the ones calls hold are all different. */
  ghost predicate FreshIDs(s: State) {
    && (forall id | id in s.log :: id < s.nextID)
    && (forall c | c in s.calls && HeldID(s.calls[c].pc).Some? ::
          HeldID(s.calls[c].pc).value < s.nextID && HeldID(s.calls[c].pc).value !in s.log)
    && (forall c, e | c in s.calls && e in s.calls && c != e && HeldID(s.calls[c].pc).Some? ::
          HeldID(s.calls[c].pc) != HeldID(s.calls[e].pc))
  }

  /** The commit behind an evaluation ID was made for this key and this canonical request. */
  ghost predicate CommittedFor(s: State, id: nat, key: Name, canonical: CanonicalRequest) {
    && id in s.log && s.log[id].call in s.calls
    && s.calls[s.log[id].call].request.key == key && s.calls[s.log[id].call].canonical == canonical
  }

  /** A key row was committed together with its evaluation and says when that was. */
  ghost predicate Backed(g: Settings, s: State, key: Name, record: KeyRow) {
    && key != EMPTY && CommittedFor(s, record.evaluation, key, record.request)
    && s.log[record.evaluation].createdAt == record.createdAt
    && record.expiresAt == record.createdAt + g.keyRetention
  }

  ghost predicate KeysBacked(g: Settings, s: State) {
    && (forall k | k in s.tables.keys :: Backed(g, s, k, s.tables.keys[k]))
    && (forall c | c in s.calls && s.calls[c].pc.Checking? :: Backed(g, s, s.calls[c].request.key, s.calls[c].pc.record))
    && (forall c | c in s.calls && s.calls[c].pc.Fetching? ::
          CommittedFor(s, s.calls[c].pc.found, s.calls[c].request.key, s.calls[c].canonical))
  }

  /** Every commit belongs to the call that returned it as new. */
  ghost predicate CommitsOwned(s: State) {
    && (forall id | id in s.log :: s.log[id].call in s.calls &&
          s.calls[s.log[id].call].pc == Finished(Responded(id, s.log[id].row, false)))
    && (forall id | id in s.log :: s.log[id].createdAt <= s.log[id].committedAt <= s.clock)
    && (forall c | c in s.calls && s.calls[c].pc.Committing? ::
          var pc := s.calls[c].pc;
          pc.keyRow.createdAt <= s.clock && pc.keyRow.evaluation == pc.id && pc.keyRow.request == s.calls[c].canonical)
  }

  ghost predicate Expiries(g: Settings, s: State) {
    forall c | c in s.calls && s.calls[c].pc.Committing? ::
      s.calls[c].pc.keyRow.expiresAt == s.calls[c].pc.keyRow.createdAt + g.keyRetention
  }

  ghost predicate Responses(s: State) {
    forall c | c in s.calls && s.calls[c].pc.Finished? && s.calls[c].pc.response.Responded? ::
      && CommittedFor(s, s.calls[c].pc.response.id, s.calls[c].request.key, s.calls[c].canonical)
      && s.calls[c].pc.response.row == s.log[s.calls[c].pc.response.id].row
  }

  function KeyOf(s: State, id: nat): Name {
    if id in s.log && s.log[id].call in s.calls then s.calls[s.log[id].call].request.key else EMPTY
  }

  /** A commit under a key still holds the key, or its window is over. */
  ghost predicate WindowOver(g: Settings, s: State) {
    forall id | id in s.log && KeyOf(s, id) != EMPTY ::
      || (KeyOf(s, id) in s.tables.keys && s.tables.keys[KeyOf(s, id)].evaluation == id)
      || s.clock > s.log[id].createdAt + g.keyRetention
  }

  ghost predicate Ordered(s: State) {
    && (forall a | a in s.log :: s.log[a].order < |s.log|)
    && (forall a, b | a in s.log && b in s.log && a != b :: s.log[a].order != s.log[b].order)
  }

  ghost predicate Spaced(g: Settings, s: State) {
    forall a, b | a in s.log && b in s.log && s.log[a].order < s.log[b].order && KeyOf(s, a) == KeyOf(s, b) != EMPTY ::
      s.log[b].committedAt > s.log[a].createdAt + g.keyRetention
  }

  ghost predicate SweepsPast(s: State) {
    forall w | w in s.sweeps && !s.sweeps[w].Deleting? :: s.sweeps[w].now <= s.clock
  }

  ghost predicate RowsLogged(s: State) {
    forall id | id in s.tables.evaluations :: id in s.log && s.tables.evaluations[id] == s.log[id].row
  }

  /** The evaluation's retention window is over. */
  ghost predicate Aged(g: Settings, s: State, id: nat) {
    id in s.log && g.evaluationRetention > 0 && s.log[id].row.createdAt < s.clock - g.evaluationRetention
  }

  ghost predicate AllAged(g: Settings, s: State, ids: set<nat>) {
    forall id | id in ids :: Aged(g, s, id)
  }

  /** Committed rows disappear only when they have aged out. */
  ghost predicate RowsKept(g: Settings, s: State) {
    && (forall id | id in s.log :: id in s.tables.evaluations || Aged(g, s, id))
    && (forall w | w in s.sweeps && s.sweeps[w].Deleting? :: AllAged(g, s, s.sweeps[w].ids))
  }

  predicate PastSnapshot(pc: Pc) {
    pc.Starting? || pc.Deciding? || pc.Persisting? || pc.Committing?
  }

  ghost predicate SnapshotsKept(s: State) {
    && (forall h | h in s.tables.snapshots :: s.tables.snapshots[h] == h)
    && (forall id | id in s.log :: s.log[id].row.policyHash in s.tables.snapshots)
    && (forall c | c in s.calls && PastSnapshot(s.calls[c].pc) :: s.calls[c].canonical.policyHash in s.tables.snapshots)
  }

  /** row is what this call's policy decides on its facts and this reply. */
  ghost predicate DecidedBy(call: Call, row: EvaluationRow, reply: Reply) {
    row.policyHash == call.canonical.policyHash && DecisionOf(call.request.policy, call.request.facts, reply) == Recorded(row.verdict)
  }

  ghost predicate Genuine(call: Call) {
    Admissible(call.request) && call.canonical == CanonicalOf(call.request)
  }

  ghost predicate Origins(s: State) {
    && (forall c | c in s.calls :: Genuine(s.calls[c]))
    && (forall c | c in s.calls && s.calls[c].pc.Persisting? :: DecidedBy(s.calls[c], s.calls[c].pc.row, s.calls[c].pc.reply))
    && (forall c | c in s.calls && s.calls[c].pc.Committing? :: DecidedBy(s.calls[c], s.calls[c].pc.row, s.calls[c].pc.reply))
    && (forall id | id in s.log :: s.log[id].call in s.calls && DecidedBy(s.calls[s.log[id].call], s.log[id].row, s.log[id].reply))
  }

  ghost predicate Inv(g: Settings, s: State) {
    && FreshIDs(s) && KeysBacked(g, s) && CommitsOwned(s) && Responses(s)
    && WindowOver(g, s) && Ordered(s) && Spaced(g, s) && SweepsPast(s)
    && RowsLogged(s) && SnapshotsKept(s) && Origins(s) && Expiries(g, s) && RowsKept(g, s)
  }
}
