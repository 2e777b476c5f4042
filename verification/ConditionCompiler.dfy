/** Compiling a condition tree: resolving its operands, type-checking its right-hand values, and
    what the compiled tree has to do with the source. */
module ConditionCompiler {
  import opened Names
  import opened Decision
  import opened Policy

  datatype Phase = PrePhase | DecisionPhase

  /** What the conditions of one policy may refer to. */
  datatype Declarations = Declarations(facts: map<Name, FactType>, questions: map<Name, CompiledQuestion>)

  // ----- Left operands -----

  function ResolveProbabilityKey(q: CompiledQuestion, left: Operand): Result<Name> {
    if left.field != ProbabilityField then
      if left.probabilityKey == EMPTY then Ok(EMPTY) else Err(InvalidCondition)
    else if left.probabilityKey == EMPTY then Err(InvalidCondition)
    else if |left.probabilityKey.text| > MAX_IDENTIFIER_LENGTH then Err(InvalidCondition)
    else
      match q.questionType
      case ChoiceQuestion =>
        if !IsIdentifier(left.probabilityKey) then Err(InvalidCondition)
        else if left.probabilityKey !in q.choiceCriteria then Err(UnknownReference)
        else Ok(left.probabilityKey)
      case ScoreQuestion =>
        if !IsLevelIndex(left.probabilityKey) then Err(InvalidCondition)
        else if Atoi(left.probabilityKey).value >= |q.scoreCriteria| then Err(UnknownReference)
        else Ok(left.probabilityKey)
      case NoulQuestion => Err(TypeMismatch)
      case UnknownQuestion(_) => Err(InvalidCondition)
  }

  function ResolveFactOperand(d: Declarations, left: Operand): Result<CompiledOperand> {
    if left.field != NoField || left.probabilityKey != EMPTY then Err(InvalidCondition)
    else if left.fact !in d.facts then Err(UnknownReference)
    else Ok(FactOperand(left.fact, d.facts[left.fact]))
  }

  function ResolveAnswerOperand(d: Declarations, phase: Phase, left: Operand): Result<CompiledOperand> {
    if phase != DecisionPhase then Err(InvalidCondition)
    else if left.answer !in d.questions then Err(UnknownReference)
    else
      var q := d.questions[left.answer];
      if !FieldIsValid(left.field) then Err(InvalidCondition)
      else if !AvailableOn(left.field, q.questionType) then Err(TypeMismatch)
      else
        match ResolveProbabilityKey(q, left)
        case Ok(key) => Ok(AnswerOperand(left.answer, left.field, q.questionType, key))
        case Err(error) => Err(error)
  }

  function ResolveOperand(d: Declarations, phase: Phase, left: Operand): Result<CompiledOperand> {
    if (left.fact != EMPTY) == (left.answer != EMPTY) then Err(InvalidCondition)
    else if left.fact != EMPTY then ResolveFactOperand(d, left)
    else ResolveAnswerOperand(d, phase, left)
  }

  // ----- Right operands -----

  /** A numeric right-hand value, normalized to float64. */
  function CheckNumber(raw: Value): Result<Value> {
    var number := AsNumber(raw);
    if number.Some? then Ok(Float(number.value)) else Err(TypeMismatch)
  }

  function CheckFactRightValue(raw: Value, factType: FactType, op: Operator): Result<Value> {
    match factType
    case NumberFact => CheckNumber(raw)
    case StringFact =>
      if IsOrdering(op) || !raw.Text? then Err(TypeMismatch)
      else if |raw.text.text| > MAX_STRING_VALUE_LENGTH then Err(InvalidCondition)
      else Ok(raw)
    case BooleanFact => if op !in {Eq, Neq} || !raw.Flag? then Err(TypeMismatch) else Ok(raw)
    case UnknownFact(_) => Err(TypeMismatch)
  }

  function CheckAnswerRightValue(d: Declarations, raw: Value, question: Name, field: AnswerField, op: Operator): Result<Value> {
    if field == ChoiceField then
      if IsOrdering(op) || !raw.Text? then Err(TypeMismatch)
      else if question !in d.questions || raw.text !in d.questions[question].choiceCriteria then Err(UnknownReference)
      else Ok(raw)
    else
      var checked := CheckNumber(raw);
      if checked.Ok? && field in {ConfidenceField, NoulField, ProbabilityField} && !(0.0 <= checked.value.number <= 1.0)
      then Err(InvalidCondition)
      else checked
  }

  function CheckRightValue(d: Declarations, raw: Value, operand: CompiledOperand, op: Operator): Result<Value> {
    match operand
    case FactOperand(_, factType) => CheckFactRightValue(raw, factType, op)
    case AnswerOperand(question, field, _, _) => CheckAnswerRightValue(d, raw, question, field, op)
  }

  function CheckCandidates(d: Declarations, entries: seq<Value>, operand: CompiledOperand): Result<seq<Value>> {
    if entries == [] then Ok([])
    else
      match CheckRightValue(d, entries[0], operand, In)
      case Err(error) => Err(error)
      case Ok(value) =>
        match CheckCandidates(d, entries[1..], operand)
        case Err(error) => Err(error)
        case Ok(values) => Ok([value] + values)
  }

  function CompileRightList(d: Declarations, raw: Value, operand: CompiledOperand): Result<seq<Value>> {
    if !raw.List? || raw.items == [] || |raw.items| > MAX_RIGHT_LIST_LENGTH then Err(InvalidCondition)
    else CheckCandidates(d, raw.items, operand)
  }

  // ----- Leaves and trees -----

  function CompileLeaf(d: Declarations, phase: Phase, left: Operand, op: Operator, right: Value): Result<CompiledCondition> {
    if op.UnknownOperator? then Err(InvalidCondition)
    else
      match ResolveOperand(d, phase, left)
      case Err(error) => Err(error)
      case Ok(operand) => CompileLeafRight(d, operand, op, right)
  }

  function CompileLeafRight(d: Declarations, operand: CompiledOperand, op: Operator, right: Value): Result<CompiledCondition> {
    if op == Exists then
      if !right.Null? && !right.Flag? then Err(InvalidCondition)
      else if operand.AnswerOperand? && operand.field != ConfidenceField then Err(InvalidCondition)
      else Ok(Leaf(operand, op, Null, [], right.Null? || right.flag))
    else if op == In then
      match CompileRightList(d, right, operand)
      case Err(error) => Err(error)
      case Ok(values) => Ok(Leaf(operand, op, Null, values, false))
    else if right.Null? then Err(InvalidCondition)
    else
      match CheckRightValue(d, right, operand, op)
      case Err(error) => Err(error)
      case Ok(value) => Ok(Leaf(operand, op, value, [], false))
  }

  function Branches(c: Condition): nat {
    (if c.all != [] then 1 else 0) + (if c.any != [] then 1 else 0)
    + (if c.negated.Some? then 1 else 0) + (if c.left.Some? then 1 else 0)
  }

  function CompileCondition(d: Declarations, phase: Phase, c: Condition, depth: nat): Result<CompiledCondition>
    decreases c
  {
    if depth > MAX_CONDITION_DEPTH || Branches(c) != 1 then Err(InvalidCondition)
    else if c.all != [] then
      if |c.all| > MAX_CONDITIONS_PER_OP then Err(InvalidCondition)
      else
        match CompileChildren(d, phase, c.all, depth + 1)
        case Err(error) => Err(error)
        case Ok(children) => Ok(AllOf(children))
    else if c.any != [] then
      if |c.any| > MAX_CONDITIONS_PER_OP then Err(InvalidCondition)
      else
        match CompileChildren(d, phase, c.any, depth + 1)
        case Err(error) => Err(error)
        case Ok(children) => Ok(AnyOf(children))
    else if c.negated.Some? then
      match CompileCondition(d, phase, c.negated.value, depth + 1)
      case Err(error) => Err(error)
      case Ok(child) => Ok(Not(child))
    else CompileLeaf(d, phase, c.left.value, c.op, c.right)
  }

  function CompileChildren(d: Declarations, phase: Phase, children: seq<Condition>, depth: nat): Result<seq<CompiledCondition>>
    decreases children
  {
    if children == [] then Ok([])
    else
      match CompileCondition(d, phase, children[0], depth)
      case Err(error) => Err(error)
      case Ok(child) =>
        match CompileChildren(d, phase, children[1..], depth)
        case Err(error) => Err(error)
        case Ok(rest) => Ok([child] + rest)
  }

  /** Compiling a list of children is compiling each of them, and the first failure wins. */
  lemma {:induction false} ChildrenCompile(d: Declarations, phase: Phase, children: seq<Condition>, depth: nat)
    ensures var r := CompileChildren(d, phase, children, depth);
            && (r.Ok? <==> forall i | 0 <= i < |children| :: CompileCondition(d, phase, children[i], depth).Ok?)
            && (r.Ok? ==> |r.value| == |children|)
            && (r.Ok? ==> forall i | 0 <= i < |children| ::
                  CompileCondition(d, phase, children[i], depth) == Ok(r.value[i]))
  {
    if children != [] {
      ChildrenCompile(d, phase, children[1..], depth);
      assert forall i | 0 < i < |children| :: children[i] == children[1..][i - 1];
      hide CompileCondition;
    }
  }

  lemma {:induction false} CandidatesCheck(d: Declarations, entries: seq<Value>, operand: CompiledOperand)
    ensures var r := CheckCandidates(d, entries, operand);
            && (r.Ok? <==> forall i | 0 <= i < |entries| :: CheckRightValue(d, entries[i], operand, In).Ok?)
            && (r.Ok? ==> |r.value| == |entries|)
            && (r.Ok? ==> forall i | 0 <= i < |entries| :: CheckRightValue(d, entries[i], operand, In) == Ok(r.value[i]))
  {
    hide CheckRightValue;
    if entries != [] {
      CandidatesCheck(d, entries[1..], operand);
      assert forall i | 0 < i < |entries| :: entries[i] == entries[1..][i - 1];
    }
  }

  // ----- Meaning -----

  /** A value that counts as a number: one of five Go representations. */
  ghost predicate Numeric(v: Value) {
    v.Number? && (v.kind.Float64? || v.kind.Float32? || v.kind.Int? || v.kind.Int32? || v.kind.Int64?)
  }

  /** AsNumber yields the number of exactly those values, and every value has the kind it looks like. */
  lemma KindsExact(v: Value)
    ensures AsNumber(v) == if Numeric(v) then Some(v.number) else None
    ensures KindOf(v) == if Numeric(v) then NumberScalar else if v.Text? then TextScalar else if v.Flag? then FlagScalar else NoScalar
  {}

  /** Two values are the same scalar: equal as numbers, as texts or as flags. */
  ghost predicate SameScalar(a: Value, b: Value) {
    || (Numeric(a) && Numeric(b) && a.number == b.number)
    || (a.Text? && b.Text? && a.text == b.text)
    || (a.Flag? && b.Flag? && a.flag == b.flag)
  }

  /** What an answer says under a field: its choice, its score, its noul, the confidence when the
      provider gave one, or the probability of a key; each only on the question types that have it. */
  ghost function AnswerPart(a: Answer, field: AnswerField, key: Name): Option<Value> {
    match field
    case ChoiceField => if a.questionType.ChoiceQuestion? then Some(Text(a.choice)) else None
    case ScoreField => if a.questionType.ScoreQuestion? then Some(Number(Float64, a.score)) else None
    case NoulField => if a.questionType.NoulQuestion? then Some(Number(Float64, a.noul)) else None
    case ConfidenceField =>
      if (a.questionType.ChoiceQuestion? || a.questionType.ScoreQuestion?) && a.hasConfidence
      then Some(Number(Float64, a.confidence)) else None
    case ProbabilityField =>
      if (a.questionType.ChoiceQuestion? || a.questionType.ScoreQuestion?) && key in a.probabilities
      then Some(Number(Float64, a.probabilities[key])) else None
    case NoField => None
    case UnknownField(_) => None
  }

  /** What a left operand as written denotes: the fact of that name, or that part of the answer. */
  ghost function Denoted(left: Operand, facts: Facts, answers: Answers): Option<Value> {
    if left.fact != EMPTY then (if left.fact in facts then Some(facts[left.fact]) else None)
    else if left.answer in answers then AnswerPart(answers[left.answer], left.field, left.probabilityKey)
    else None
  }

  ghost predicate Ordered(op: Operator, a: Value, b: Value) {
    && Numeric(a) && Numeric(b)
    && match op
       case Lt => a.number < b.number
       case Lte => a.number <= b.number
       case Gt => a.number > b.number
       case Gte => a.number >= b.number
       case _ => false
  }

  /** The meaning of a leaf as written: exists asks for presence, by default for true; any other
      operator needs the value. */
  ghost predicate LeafMeans(left: Operand, op: Operator, right: Value, facts: Facts, answers: Answers) {
    var value := Denoted(left, facts, answers);
    match op
    case Exists => value.Some? <==> right != Flag(false)
    case Eq => value.Some? && SameScalar(value.value, right)
    case Neq => value.Some? && !SameScalar(value.value, right)
    case In => value.Some? && right.List? && exists i | 0 <= i < |right.items| :: SameScalar(value.value, right.items[i])
    case UnknownOperator(_) => false
    case _ => value.Some? && Ordered(op, value.value, right)
  }

  /** The meaning of a condition as written. */
  ghost predicate Means(c: Condition, facts: Facts, answers: Answers)
    decreases c
  {
    if c.all != [] then forall i | 0 <= i < |c.all| :: Means(c.all[i], facts, answers)
    else if c.any != [] then exists i | 0 <= i < |c.any| :: Means(c.any[i], facts, answers)
    else if c.negated.Some? then !Means(c.negated.value, facts, answers)
    else c.left.Some? && LeafMeans(c.left.value, c.op, c.right, facts, answers)
  }

  /** The comparisons of the evaluator are equality and order of scalars. */
  lemma ScalarEqualIsSame(a: Value, b: Value)
    ensures ScalarEqual(a, b) <==> SameScalar(a, b)
  {}

  lemma {:induction false} AnyEqualIsExists(a: Value, candidates: seq<Value>)
    ensures AnyEqual(a, candidates) <==> exists i | 0 <= i < |candidates| :: SameScalar(a, candidates[i])
  {
    if candidates != [] {
      ScalarEqualIsSame(a, candidates[0]);
      AnyEqualIsExists(a, candidates[1..]);
      assert forall i | 0 < i < |candidates| :: candidates[i] == candidates[1..][i - 1];
    }
  }

  lemma {:induction false} EvaluateAllIsForall(children: seq<CompiledCondition>, facts: Facts, answers: Answers)
    ensures EvaluateAll(children, facts, answers) <==> forall i | 0 <= i < |children| :: Evaluate(children[i], facts, answers)
  {
    if children != [] {
      EvaluateAllIsForall(children[1..], facts, answers);
      assert forall i | 0 < i < |children| :: children[i] == children[1..][i - 1];
      hide Evaluate;
    }
  }

  lemma {:induction false} EvaluateAnyIsExists(children: seq<CompiledCondition>, facts: Facts, answers: Answers)
    ensures EvaluateAny(children, facts, answers) <==> exists i | 0 <= i < |children| :: Evaluate(children[i], facts, answers)
  {
    if children != [] {
      EvaluateAnyIsExists(children[1..], facts, answers);
      assert forall i | 0 < i < |children| :: children[i] == children[1..][i - 1];
      hide Evaluate;
    }
  }

  /** Normalizing a right-hand value does not change what it equals or how it orders. */
  lemma NormalizingKeepsScalar(d: Declarations, raw: Value, operand: CompiledOperand, op: Operator, left: Value)
    requires CheckRightValue(d, raw, operand, op).Ok?
    ensures var v := CheckRightValue(d, raw, operand, op).value;
            && KindOf(v) == KindOf(raw) != NoScalar
            && (SameScalar(left, v) <==> SameScalar(left, raw))
            && (Ordered(op, left, v) <==> Ordered(op, left, raw))
  {}

  /** Reading a part of an answer reads that part, on answers of any type and shape. */
  lemma PartsAreRead(a: Answer, field: AnswerField, key: Name)
    ensures (if field == ProbabilityField then Probability(a, key) else Field(a, field)) == AnswerPart(a, field, key)
  {}

  /** A resolved operand reads what the operand as written denotes. */
  lemma ResolvingKeepsValue(d: Declarations, phase: Phase, left: Operand, facts: Facts, answers: Answers)
    requires ResolveOperand(d, phase, left).Ok?
    ensures ReadOperand(ResolveOperand(d, phase, left).value, facts, answers) == Denoted(left, facts, answers)
  {}

  lemma LeafPreserved(d: Declarations, phase: Phase, left: Operand, op: Operator, right: Value, facts: Facts, answers: Answers)
    requires CompileLeaf(d, phase, left, op, right).Ok?
    ensures CompileLeaf(d, phase, left, op, right).value.Leaf?
    ensures EvaluateLeaf(CompileLeaf(d, phase, left, op, right).value, facts, answers) <==>
            LeafMeans(left, op, right, facts, answers)
  {
    hide ResolveOperand, Denoted, ReadOperand, CheckRightValue, SameScalar, ScalarEqual, Ordered, CompareOrdered, AnyEqual, CompileRightList;
    ResolvingKeepsValue(d, phase, left, facts, answers);
    var operand := ResolveOperand(d, phase, left).value;
    var value := Denoted(left, facts, answers);
    if value.Some? && op == In {
      CompiledListFromList(d, operand, right);
      InPreserved(d, operand, right, value.value);
    } else if value.Some? && op != Exists {
      ScalarPreserved(d, operand, op, right, value.value);
    }
  }

  lemma CompiledListFromList(d: Declarations, operand: CompiledOperand, right: Value)
    requires CompileRightList(d, right, operand).Ok?
    ensures right.List?
  {}

  lemma ScalarPreserved(d: Declarations, operand: CompiledOperand, op: Operator, right: Value, left: Value)
    requires CheckRightValue(d, right, operand, op).Ok?
    ensures var v := CheckRightValue(d, right, operand, op).value;
            && (ScalarEqual(left, v) <==> SameScalar(left, right))
            && (IsOrdering(op) ==> (CompareOrdered(left, v, op) <==> Ordered(op, left, right)))
  {
    hide CheckRightValue, SameScalar, ScalarEqual, Ordered, CompareOrdered;
    NormalizingKeepsScalar(d, right, operand, op, left);
    ScalarEqualIsSame(left, CheckRightValue(d, right, operand, op).value);
    OrderedIsCompare(op, left, CheckRightValue(d, right, operand, op).value);
  }

  lemma OrderedIsCompare(op: Operator, a: Value, b: Value)
    ensures IsOrdering(op) ==> (CompareOrdered(a, b, op) <==> Ordered(op, a, b))
  {}

  lemma InPreserved(d: Declarations, operand: CompiledOperand, right: Value, left: Value)
    requires CompileRightList(d, right, operand).Ok?
    ensures AnyEqual(left, CompileRightList(d, right, operand).value) <==>
            exists i | 0 <= i < |right.items| :: SameScalar(left, right.items[i])
  {
    var values := CompileRightList(d, right, operand).value;
    CandidatesCheck(d, right.items, operand);
    AnyEqualIsExists(left, values);
    forall i | 0 <= i < |right.items| ensures SameScalar(left, values[i]) <==> SameScalar(left, right.items[i]) {
      NormalizingKeepsScalar(d, right.items[i], operand, In, left);
    }
    hide SameScalar, AnyEqual, CheckRightValue, CompileRightList;
  }

  /** Compilation preserves meaning: evaluating the compiled tree is what the source tree says, for
      all facts and all answers, whether or not they conform to the policy. */
  lemma {:induction false} MeaningPreserved(d: Declarations, phase: Phase, c: Condition, depth: nat, facts: Facts, answers: Answers)
    requires CompileCondition(d, phase, c, depth).Ok?
    ensures Evaluate(CompileCondition(d, phase, c, depth).value, facts, answers) <==> Means(c, facts, answers)
    decreases c
  {
    var k := CompileCondition(d, phase, c, depth).value;
    if c.all != [] {
      ChildrenPreserved(d, phase, c.all, depth + 1, facts, answers);
      EvaluateAllIsForall(k.children, facts, answers);
    } else if c.any != [] {
      ChildrenPreserved(d, phase, c.any, depth + 1, facts, answers);
      EvaluateAnyIsExists(k.children, facts, answers);
    } else if c.negated.Some? {
      MeaningPreserved(d, phase, c.negated.value, depth + 1, facts, answers);
    } else {
      LeafPreserved(d, phase, c.left.value, c.op, c.right, facts, answers);
    }
    hide CompileLeaf, LeafMeans, EvaluateLeaf, CompileChildren, EvaluateAll, EvaluateAny;
  }

  lemma {:induction false} ChildrenPreserved(d: Declarations, phase: Phase, children: seq<Condition>, depth: nat, facts: Facts, answers: Answers)
    requires CompileChildren(d, phase, children, depth).Ok?
    ensures var compiled := CompileChildren(d, phase, children, depth).value;
            && |compiled| == |children|
            && forall i | 0 <= i < |children| :: Evaluate(compiled[i], facts, answers) <==> Means(children[i], facts, answers)
    decreases children
  {
    ChildrenCompile(d, phase, children, depth);
    forall i | 0 <= i < |children|
      ensures Evaluate(CompileChildren(d, phase, children, depth).value[i], facts, answers) <==> Means(children[i], facts, answers)
    {
      MeaningPreserved(d, phase, children[i], depth, facts, answers);
    }
  }
}
