/** Which conditions compile, said without the compiler; what a compiled tree can do at run time;
    and how large it can get. */
module ConditionTyping {
  import opened Arithmetic
  import opened Names
  import opened Decision
  import opened Policy
  import opened ConditionCompiler

  // ----- A type system for conditions -----

  datatype OperandType = AnyNumber | UnitInterval | FreeText | Boolean | OneOf(options: set<Name>)

  /** The type of a left operand as written, when it refers to something declared that may be read
      in this phase. */
  ghost function TypeOf(d: Declarations, phase: Phase, left: Operand): Option<OperandType> {
    if left.fact != EMPTY then
      if left.answer != EMPTY || left.field != NoField || left.probabilityKey != EMPTY || left.fact !in d.facts then None
      else
        FactOperandType(d.facts[left.fact])
    else if phase == PrePhase || left.answer !in d.questions then None
    else AnswerType(d.questions[left.answer], left)
  }

  ghost function FactOperandType(t: FactType): Option<OperandType> {
    match t
    case NumberFact => Some(AnyNumber)
    case StringFact => Some(FreeText)
    case BooleanFact => Some(Boolean)
    case UnknownFact(_) => None
  }

  ghost function AnswerType(q: CompiledQuestion, left: Operand): Option<OperandType> {
    if left.field == ProbabilityField then (if NamesPart(q, left.probabilityKey) then Some(UnitInterval) else None)
    else if left.probabilityKey != EMPTY then None
    else
      match (q.questionType, left.field)
      case (ChoiceQuestion, ChoiceField) => Some(OneOf(q.choiceCriteria.Keys))
      case (ChoiceQuestion, ConfidenceField) => Some(UnitInterval)
      case (ScoreQuestion, ScoreField) => Some(AnyNumber)
      case (ScoreQuestion, ConfidenceField) => Some(UnitInterval)
      case (NoulQuestion, NoulField) => Some(UnitInterval)
      case _ => None
  }

  /** A probability key names an option of a choice or a level of a score. */
  ghost predicate NamesPart(q: CompiledQuestion, key: Name) {
    match q.questionType
    case ChoiceQuestion => key in q.choiceCriteria
    case ScoreQuestion => exists level: nat :: level < |q.scoreCriteria| && Itoa(level) == key
    case _ => false
  }

  ghost predicate Inhabits(v: Value, t: OperandType) {
    match t
    case AnyNumber => Numeric(v)
    case UnitInterval => Numeric(v) && 0.0 <= v.number <= 1.0
    case FreeText => v.Text? && |v.text.text| <= MAX_STRING_VALUE_LENGTH
    case Boolean => v.Flag?
    case OneOf(options) => v.Text? && v.text in options
  }

  /** Everything can be tested for equality; only numbers are ordered; only flags cannot be listed. */
  ghost predicate OperatorFits(op: Operator, t: OperandType) {
    match op
    case Eq => true
    case Neq => true
    case In => !t.Boolean?
    case Exists => false
    case UnknownOperator(_) => false
    case _ => t.AnyNumber? || t.UnitInterval?
  }

  /** A leaf is legal when its operand has a type, its operator fits it, and every right-hand value
      inhabits it. exists is legal on facts of any declared type and on confidences. */
  ghost predicate LegalLeaf(d: Declarations, phase: Phase, left: Operand, op: Operator, right: Value) {
    if op == Exists then
      && (right.Null? || right.Flag?)
      && (DeclaredFact(d, left) || (TypeOf(d, phase, left).Some? && left.fact == EMPTY && left.field == ConfidenceField))
    else
      match TypeOf(d, phase, left)
      case None => false
      case Some(t) =>
        && OperatorFits(op, t)
        && if op == In
           then right.List? && 0 < |right.items| <= MAX_RIGHT_LIST_LENGTH && forall v | v in right.items :: Inhabits(v, t)
           else Inhabits(right, t)
  }

  ghost predicate DeclaredFact(d: Declarations, left: Operand) {
    left.fact != EMPTY && left.answer == EMPTY && left.field == NoField && left.probabilityKey == EMPTY && left.fact in d.facts
  }

  /** Exactly one of all, any, not and a leaf is written. */
  ghost predicate OneShape(c: Condition) {
    || (c.all != [] && c.any == [] && c.negated.None? && c.left.None?)
    || (c.all == [] && c.any != [] && c.negated.None? && c.left.None?)
    || (c.all == [] && c.any == [] && c.negated.Some? && c.left.None?)
    || (c.all == [] && c.any == [] && c.negated.None? && c.left.Some?)
  }

  ghost predicate Legal(d: Declarations, phase: Phase, c: Condition)
    decreases c
  {
    && OneShape(c)
    && |c.all| <= MAX_CONDITIONS_PER_OP && |c.any| <= MAX_CONDITIONS_PER_OP
    && (forall i | 0 <= i < |c.all| :: Legal(d, phase, c.all[i]))
    && (forall i | 0 <= i < |c.any| :: Legal(d, phase, c.any[i]))
    && (c.negated.Some? ==> Legal(d, phase, c.negated.value))
    && (c.left.Some? ==> LegalLeaf(d, phase, c.left.value, c.op, c.right))
  }

  /** No node lies more than limit levels below the root. */
  ghost predicate WithinDepth(c: Condition, limit: int)
    decreases c
  {
    && limit >= 0
    && (forall i | 0 <= i < |c.all| :: WithinDepth(c.all[i], limit - 1))
    && (forall i | 0 <= i < |c.any| :: WithinDepth(c.any[i], limit - 1))
    && (c.negated.Some? ==> WithinDepth(c.negated.value, limit - 1))
  }

  /** What compileQuestions guarantees of every question. */
  ghost predicate QuestionFits(q: CompiledQuestion) {
    && !q.questionType.UnknownQuestion?
    && IsListing(q.choiceKeys, q.choiceCriteria.Keys)
    && (q.questionType.ChoiceQuestion? ==> forall key | key in q.choiceCriteria :: IsIdentifier(key))
    && (q.questionType.ScoreQuestion? ==> MIN_SCORE_CRITERIA <= |q.scoreCriteria| <= MAX_SCORE_CRITERIA)
  }

  ghost predicate Declared(d: Declarations) {
    && (forall n | n in d.facts :: IsFactName(n) && !d.facts[n].UnknownFact?)
    && (forall n | n in d.questions :: IsIdentifier(n) && QuestionFits(d.questions[n]))
  }

  // ----- The compiler accepts exactly the legal trees of bounded depth -----

  lemma ShortIndex(level: nat)
    requires level < 10
    ensures |Itoa(level).text| == 1
  {}

  lemma ProbabilityKeyExact(q: CompiledQuestion, left: Operand)
    requires QuestionFits(q) && left.field == ProbabilityField
    ensures ResolveProbabilityKey(q, left).Ok? <==> NamesPart(q, left.probabilityKey)
  {
    if q.questionType.ScoreQuestion? {
      LevelIndexes(left.probabilityKey);
      forall level: nat | level < |q.scoreCriteria| && Itoa(level) == left.probabilityKey
        ensures |left.probabilityKey.text| == 1
      {
        ShortIndex(level);
      }
    }
    hide Atoi, Itoa;
  }

  lemma AnswerOperandExact(d: Declarations, left: Operand)
    requires Declared(d) && left.answer in d.questions
    ensures ResolveAnswerOperand(d, DecisionPhase, left).Ok? <==> AnswerType(d.questions[left.answer], left).Some?
  {
    var q := d.questions[left.answer];
    assert QuestionFits(q);
    if left.field == ProbabilityField {
      ProbabilityKeyExact(q, left);
      hide ResolveProbabilityKey;
    }
    hide NamesPart, QuestionFits, IsLevelIndex;
  }

  lemma OperandExact(d: Declarations, phase: Phase, left: Operand)
    requires Declared(d)
    ensures ResolveOperand(d, phase, left).Ok? <==> TypeOf(d, phase, left).Some?
  {
    hide ResolveAnswerOperand, AnswerType, QuestionFits;
    if left.answer in d.questions && phase == DecisionPhase {
      AnswerOperandExact(d, left);
    }
    EmptyIsNoQuestion(d);
    PreRefusesAnswers(d, left);
    UnknownRefused(d, phase, left);
  }

  lemma EmptyIsNoQuestion(d: Declarations)
    requires Declared(d)
    ensures EMPTY !in d.questions && EMPTY !in d.facts
  {
    hide QuestionFits;
  }

  lemma PreRefusesAnswers(d: Declarations, left: Operand)
    ensures ResolveAnswerOperand(d, PrePhase, left).Err?
  {}

  lemma UnknownRefused(d: Declarations, phase: Phase, left: Operand)
    ensures left.answer !in d.questions ==> ResolveAnswerOperand(d, phase, left).Err?
  {}

  /** The right-hand check and the type judgement agree. */
  lemma RightValueExact(d: Declarations, phase: Phase, left: Operand, op: Operator, v: Value)
    requires Declared(d) && ResolveOperand(d, phase, left).Ok? && op != Exists && !op.UnknownOperator?
    ensures TypeOf(d, phase, left).Some?
    ensures CheckRightValue(d, v, ResolveOperand(d, phase, left).value, op).Ok? <==>
            OperatorFits(op, TypeOf(d, phase, left).value) && Inhabits(v, TypeOf(d, phase, left).value)
  {
    OperandExact(d, phase, left);
    TypedBySource(d, phase, left);
    var operand := ResolveOperand(d, phase, left).value;
    hide ResolveOperand, TypeOf, Declared, OperatorFits, Inhabits, CheckFactRightValue, CheckAnswerRightValue, AnswerType;
    match operand
    case FactOperand(_, factType) => FactValueExact(factType, op, v);
    case AnswerOperand(question, field, _, _) => AnswerValueExact(d, question, left, op, v);
  }

  lemma TypedBySource(d: Declarations, phase: Phase, left: Operand)
    requires ResolveOperand(d, phase, left).Ok? && TypeOf(d, phase, left).Some?
    ensures match ResolveOperand(d, phase, left).value
            case FactOperand(_, factType) => TypeOf(d, phase, left) == FactOperandType(factType)
            case AnswerOperand(question, field, _, _) =>
              && question in d.questions && field == left.field
              && TypeOf(d, phase, left) == AnswerType(d.questions[question], left)
  {
    hide AnswerType, ResolveProbabilityKey;
  }

  lemma FactValueExact(factType: FactType, op: Operator, v: Value)
    requires op != Exists && !op.UnknownOperator? && FactOperandType(factType).Some?
    ensures CheckFactRightValue(v, factType, op).Ok? <==>
            OperatorFits(op, FactOperandType(factType).value) && Inhabits(v, FactOperandType(factType).value)
  {}

  lemma AnswerValueExact(d: Declarations, question: Name, left: Operand, op: Operator, v: Value)
    requires op != Exists && !op.UnknownOperator?
    requires question in d.questions && AnswerType(d.questions[question], left).Some?
    ensures var t := AnswerType(d.questions[question], left).value;
            CheckAnswerRightValue(d, v, question, left.field, op).Ok? <==> OperatorFits(op, t) && Inhabits(v, t)
  {
    hide NamesPart;
  }

  lemma LeafExact(d: Declarations, phase: Phase, left: Operand, op: Operator, right: Value)
    requires Declared(d)
    ensures CompileLeaf(d, phase, left, op, right).Ok? <==> LegalLeaf(d, phase, left, op, right)
  {
    hide Declared, ResolveOperand, TypeOf, CheckRightValue, CompileRightList, OperatorFits, Inhabits, DeclaredFact;
    OperandExact(d, phase, left);
    if ResolveOperand(d, phase, left).Ok? && !op.UnknownOperator? {
      if op == Exists {
        ExistsExact(d, phase, left);
      } else if op == In {
        ListExact(d, phase, left, right);
      } else {
        RightValueExact(d, phase, left, op, right);
        NullInhabitsNothing(TypeOf(d, phase, left).value);
      }
    } else {
      UnresolvedIsNoFact(d, phase, left);
      UnknownFitsNothing(op);
    }
  }

  lemma NullInhabitsNothing(t: OperandType)
    ensures !Inhabits(Null, t)
  {}

  lemma UnknownFitsNothing(op: Operator)
    ensures op.UnknownOperator? ==> forall t :: !OperatorFits(op, t)
  {}

  lemma UnresolvedIsNoFact(d: Declarations, phase: Phase, left: Operand)
    ensures ResolveOperand(d, phase, left).Err? ==> !DeclaredFact(d, left)
  {}

  lemma ExistsExact(d: Declarations, phase: Phase, left: Operand)
    requires ResolveOperand(d, phase, left).Ok?
    ensures var operand := ResolveOperand(d, phase, left).value;
            (operand.FactOperand? || operand.field == ConfidenceField) <==>
            DeclaredFact(d, left) || (left.fact == EMPTY && left.field == ConfidenceField)
  {
    hide ResolveProbabilityKey;
  }

  lemma ListExact(d: Declarations, phase: Phase, left: Operand, right: Value)
    requires Declared(d) && ResolveOperand(d, phase, left).Ok?
    ensures TypeOf(d, phase, left).Some?
    ensures CompileRightList(d, right, ResolveOperand(d, phase, left).value).Ok? <==>
            && OperatorFits(In, TypeOf(d, phase, left).value)
            && right.List? && 0 < |right.items| <= MAX_RIGHT_LIST_LENGTH
            && forall v | v in right.items :: Inhabits(v, TypeOf(d, phase, left).value)
  {
    OperandExact(d, phase, left);
    var operand := ResolveOperand(d, phase, left).value;
    hide Declared, ResolveOperand, TypeOf, CheckRightValue, OperatorFits, Inhabits;
    if right.List? {
      CandidatesCheck(d, right.items, operand);
      forall i | 0 <= i < |right.items|
        ensures CheckRightValue(d, right.items[i], operand, In).Ok? <==>
                OperatorFits(In, TypeOf(d, phase, left).value) && Inhabits(right.items[i], TypeOf(d, phase, left).value)
      {
        RightValueExact(d, phase, left, In, right.items[i]);
      }
      hide CheckCandidates;
    }
  }

  lemma LegalShape(d: Declarations, phase: Phase, c: Condition)
    ensures Branches(c) != 1 ==> !Legal(d, phase, c)
    ensures Branches(c) == 1 ==>
              (Legal(d, phase, c) <==>
               if c.all != [] then |c.all| <= MAX_CONDITIONS_PER_OP && forall i | 0 <= i < |c.all| :: Legal(d, phase, c.all[i])
               else if c.any != [] then |c.any| <= MAX_CONDITIONS_PER_OP && forall i | 0 <= i < |c.any| :: Legal(d, phase, c.any[i])
               else if c.negated.Some? then Legal(d, phase, c.negated.value)
               else LegalLeaf(d, phase, c.left.value, c.op, c.right))
  {
    hide LegalLeaf;
  }

  lemma DepthShape(c: Condition, limit: int)
    ensures limit < 0 ==> !WithinDepth(c, limit)
    ensures Branches(c) == 1 && limit >= 0 ==>
              (WithinDepth(c, limit) <==>
               if c.all != [] then forall i | 0 <= i < |c.all| :: WithinDepth(c.all[i], limit - 1)
               else if c.any != [] then forall i | 0 <= i < |c.any| :: WithinDepth(c.any[i], limit - 1)
               else c.negated.Some? ==> WithinDepth(c.negated.value, limit - 1))
  {}

  /** The compiler accepts exactly the legal trees that nest at most MaxConditionDepth levels. */
  lemma {:induction false} AcceptsExactlyLegal(d: Declarations, phase: Phase, c: Condition, depth: nat)
    requires Declared(d)
    ensures CompileCondition(d, phase, c, depth).Ok? <==> Legal(d, phase, c) && WithinDepth(c, MAX_CONDITION_DEPTH - depth)
    decreases c
  {
    hide Declared, CompileLeaf, LegalLeaf, CompileChildren, Legal, WithinDepth;
    LegalShape(d, phase, c);
    DepthShape(c, MAX_CONDITION_DEPTH - depth);
    if depth <= MAX_CONDITION_DEPTH && Branches(c) == 1 {
      if c.all != [] {
        AcceptsExactlyLegalChildren(d, phase, c.all, depth + 1);
      } else if c.any != [] {
        AcceptsExactlyLegalChildren(d, phase, c.any, depth + 1);
      } else if c.negated.Some? {
        AcceptsExactlyLegal(d, phase, c.negated.value, depth + 1);
      } else {
        LeafExact(d, phase, c.left.value, c.op, c.right);
      }
    }
  }

  lemma {:induction false} AcceptsExactlyLegalChildren(d: Declarations, phase: Phase, children: seq<Condition>, depth: nat)
    requires Declared(d)
    ensures CompileChildren(d, phase, children, depth).Ok? <==>
            forall i | 0 <= i < |children| :: Legal(d, phase, children[i]) && WithinDepth(children[i], MAX_CONDITION_DEPTH - depth)
    decreases children
  {
    ChildrenCompile(d, phase, children, depth);
    forall i | 0 <= i < |children|
      ensures CompileCondition(d, phase, children[i], depth).Ok? <==>
              Legal(d, phase, children[i]) && WithinDepth(children[i], MAX_CONDITION_DEPTH - depth)
    {
      AcceptsExactlyLegal(d, phase, children[i], depth);
    }
    hide CompileChildren, CompileCondition, Legal, WithinDepth;
  }

  // ----- Typed trees -----

  /** What the compiler leaves in a leaf. */
  ghost predicate TypedOperand(d: Declarations, phase: Phase, operand: CompiledOperand) {
    match operand
    case FactOperand(fact, factType) => fact in d.facts && d.facts[fact] == factType
    case AnswerOperand(question, field, questionType, key) =>
      && phase == DecisionPhase && question in d.questions && d.questions[question].questionType == questionType
      && AvailableOn(field, questionType)
      && if field == ProbabilityField then NamesPart(d.questions[question], key) else key == EMPTY
  }

  ghost function ScalarOf(operand: CompiledOperand): ScalarKind {
    match operand
    case FactOperand(_, StringFact) => TextScalar
    case FactOperand(_, BooleanFact) => FlagScalar
    case FactOperand(_, _) => NumberScalar
    case AnswerOperand(_, field, _, _) => if field == ChoiceField then TextScalar else NumberScalar
  }

  ghost predicate TypedLeaf(d: Declarations, phase: Phase, leaf: CompiledCondition)
    requires leaf.Leaf?
  {
    && TypedOperand(d, phase, leaf.operand)
    && match leaf.op
       case Exists => leaf.operand.FactOperand? || leaf.operand.field == ConfidenceField
       case In =>
         0 < |leaf.rightList| <= MAX_RIGHT_LIST_LENGTH && forall v | v in leaf.rightList :: KindOf(v) == ScalarOf(leaf.operand)
       case UnknownOperator(_) => false
       case _ =>
         && KindOf(leaf.rightScalar) == ScalarOf(leaf.operand)
         && (IsOrdering(leaf.op) ==> ScalarOf(leaf.operand) == NumberScalar)
  }

  ghost predicate Typed(d: Declarations, phase: Phase, c: CompiledCondition, limit: int)
    decreases c
  {
    && limit >= 0
    && match c
       case AllOf(children) => TypedChildren(d, phase, children, limit)
       case AnyOf(children) => TypedChildren(d, phase, children, limit)
       case Not(child) => Typed(d, phase, child, limit - 1)
       case Leaf(_, _, _, _, _) => TypedLeaf(d, phase, c)
  }

  ghost predicate TypedChildren(d: Declarations, phase: Phase, children: seq<CompiledCondition>, limit: int)
    decreases children, 0
  {
    && 0 < |children| <= MAX_CONDITIONS_PER_OP
    && forall i | 0 <= i < |children| :: Typed(d, phase, children[i], limit - 1)
  }

  lemma OperandIsTyped(d: Declarations, phase: Phase, left: Operand)
    requires Declared(d) && ResolveOperand(d, phase, left).Ok?
    ensures TypedOperand(d, phase, ResolveOperand(d, phase, left).value)
  {
    hide IsIdentifier, IsFactName, NamesPart, ResolveProbabilityKey;
    if left.fact == EMPTY {
      var q := d.questions[left.answer];
      NoKeyWithoutProbability(q, left);
      if left.field == ProbabilityField {
        ProbabilityKeyExact(q, left);
      }
    }
    hide QuestionFits;
  }

  lemma NoKeyWithoutProbability(q: CompiledQuestion, left: Operand)
    requires ResolveProbabilityKey(q, left).Ok?
    ensures ResolveProbabilityKey(q, left).value == left.probabilityKey
    ensures left.field != ProbabilityField ==> left.probabilityKey == EMPTY
  {}

  lemma RightValueIsTyped(d: Declarations, operand: CompiledOperand, op: Operator, raw: Value)
    requires CheckRightValue(d, raw, operand, op).Ok?
    ensures KindOf(CheckRightValue(d, raw, operand, op).value) == ScalarOf(operand)
    ensures IsOrdering(op) ==> ScalarOf(operand) == NumberScalar
  {}

  lemma LeafIsTyped(d: Declarations, phase: Phase, left: Operand, op: Operator, right: Value)
    requires Declared(d) && CompileLeaf(d, phase, left, op, right).Ok?
    ensures var leaf := CompileLeaf(d, phase, left, op, right).value; leaf.Leaf? && TypedLeaf(d, phase, leaf)
  {
    hide Declared, ResolveOperand, CheckRightValue, TypedOperand, ScalarOf, CheckCandidates;
    OperandIsTyped(d, phase, left);
    var operand := ResolveOperand(d, phase, left).value;
    if op == In {
      CandidatesCheck(d, right.items, operand);
      forall i | 0 <= i < |right.items| ensures KindOf(CheckRightValue(d, right.items[i], operand, In).value) == ScalarOf(operand) {
        RightValueIsTyped(d, operand, In, right.items[i]);
      }
    } else if op != Exists {
      RightValueIsTyped(d, operand, op, right);
    }
    hide KindOf;
  }

  /** Every compiled tree is typed, no deeper than the ceiling, and never wider than 32. */
  lemma {:induction false} CompiledIsTyped(d: Declarations, phase: Phase, c: Condition, depth: nat)
    requires Declared(d) && CompileCondition(d, phase, c, depth).Ok?
    ensures Typed(d, phase, CompileCondition(d, phase, c, depth).value, MAX_CONDITION_DEPTH - depth)
    decreases c
  {
    hide Declared, CompileLeaf, TypedLeaf, CompileChildren;
    if c.all != [] {
      ChildrenAreTyped(d, phase, c.all, depth + 1);
    } else if c.any != [] {
      ChildrenAreTyped(d, phase, c.any, depth + 1);
    } else if c.negated.Some? {
      CompiledIsTyped(d, phase, c.negated.value, depth + 1);
    } else {
      LeafIsTyped(d, phase, c.left.value, c.op, c.right);
    }
  }

  lemma {:induction false} ChildrenAreTyped(d: Declarations, phase: Phase, children: seq<Condition>, depth: nat)
    requires Declared(d) && CompileChildren(d, phase, children, depth).Ok?
    ensures var compiled := CompileChildren(d, phase, children, depth).value;
            && |compiled| == |children|
            && forall i | 0 <= i < |compiled| :: Typed(d, phase, compiled[i], MAX_CONDITION_DEPTH - depth)
    decreases children
  {
    ChildrenCompile(d, phase, children, depth);
    hide CompileChildren, Declared, Typed;
    forall i | 0 <= i < |children| ensures Typed(d, phase, CompileChildren(d, phase, children, depth).value[i], MAX_CONDITION_DEPTH - depth) {
      CompiledIsTyped(d, phase, children[i], depth);
    }
    hide CompileCondition;
  }

  // ----- How large a compiled tree is -----

  function Power(n: nat): (p: nat)
    ensures p >= 1
  {
    if n == 0 then 1 else MAX_CONDITIONS_PER_OP * Power(n - 1)
  }

  /** 1 + 32 + ... + 32^n. */
  function Geometric(n: nat): nat {
    if n == 0 then 1 else 1 + MAX_CONDITIONS_PER_OP * Geometric(n - 1)
  }

  function Leaves(c: CompiledCondition): nat
    decreases c
  {
    match c
    case AllOf(children) => LeavesOf(children)
    case AnyOf(children) => LeavesOf(children)
    case Not(child) => Leaves(child)
    case Leaf(_, _, _, _, _) => 1
  }

  function LeavesOf(children: seq<CompiledCondition>): nat
    decreases children
  {
    if children == [] then 0 else Leaves(children[0]) + LeavesOf(children[1..])
  }

  function Nodes(c: CompiledCondition): nat
    decreases c
  {
    match c
    case AllOf(children) => 1 + NodesOf(children)
    case AnyOf(children) => 1 + NodesOf(children)
    case Not(child) => 1 + Nodes(child)
    case Leaf(_, _, _, _, _) => 1
  }

  function NodesOf(children: seq<CompiledCondition>): nat
    decreases children
  {
    if children == [] then 0 else Nodes(children[0]) + NodesOf(children[1..])
  }

  /** How many comparisons one evaluation performs, stopping where it stops. */
  function Comparisons(c: CompiledCondition, facts: Facts, answers: Answers): nat
    decreases c
  {
    match c
    case AllOf(children) => ComparisonsOf(children, true, facts, answers)
    case AnyOf(children) => ComparisonsOf(children, false, facts, answers)
    case Not(child) => Comparisons(child, facts, answers)
    case Leaf(operand, op, _, rightList, _) =>
      var left := ReadOperand(operand, facts, answers);
      if op == Exists || left.None? then 0
      else if op == In then Candidates(left.value, rightList)
      else 1
  }

  /** A scan over children goes on while they evaluate to goOn. */
  function ComparisonsOf(children: seq<CompiledCondition>, goOn: bool, facts: Facts, answers: Answers): nat
    decreases children
  {
    if children == [] then 0
    else
      Comparisons(children[0], facts, answers)
      + if Evaluate(children[0], facts, answers) == goOn then ComparisonsOf(children[1..], goOn, facts, answers) else 0
  }

  function Candidates(left: Value, rightList: seq<Value>): (n: nat)
    ensures n <= |rightList|
  {
    if rightList == [] then 0
    else if ScalarEqual(left, rightList[0]) then 1
    else 1 + Candidates(left, rightList[1..])
  }

  /** Bounds on a typed tree: its leaves, its nodes, and the work of one evaluation. */
  lemma {:induction false} TypedIsBounded(d: Declarations, phase: Phase, c: CompiledCondition, limit: nat, facts: Facts, answers: Answers)
    requires Typed(d, phase, c, limit)
    ensures Leaves(c) <= Power(limit) && Nodes(c) <= Geometric(limit)
    ensures Comparisons(c, facts, answers) <= MAX_RIGHT_LIST_LENGTH * Leaves(c)
    decreases c, 0
  {
    hide TypedLeaf, LeavesOf, NodesOf, ComparisonsOf, TypedChildren, ReadOperand;
    match c
    case AllOf(children) =>
      TypedChildrenAreBounded(d, phase, children, limit, true, facts, answers);
    case AnyOf(children) =>
      TypedChildrenAreBounded(d, phase, children, limit, false, facts, answers);
    case Not(child) =>
      TypedIsDeep(d, phase, child, limit - 1);
      TypedIsBounded(d, phase, child, limit - 1, facts, answers);
    case Leaf(_, _, _, _, _) =>
      TypedLeafIsBounded(d, phase, c, facts, answers);
  }

  lemma TypedIsDeep(d: Declarations, phase: Phase, c: CompiledCondition, limit: int)
    requires Typed(d, phase, c, limit)
    ensures limit >= 0
  {}

  lemma TypedLeafIsBounded(d: Declarations, phase: Phase, c: CompiledCondition, facts: Facts, answers: Answers)
    requires c.Leaf? && TypedLeaf(d, phase, c)
    ensures Comparisons(c, facts, answers) <= MAX_RIGHT_LIST_LENGTH
  {
    hide TypedOperand, ReadOperand, ScalarOf, KindOf;
  }

  lemma {:induction false} TypedChildrenAreBounded(d: Declarations, phase: Phase, children: seq<CompiledCondition>, limit: int,
                                                   goOn: bool, facts: Facts, answers: Answers)
    requires TypedChildren(d, phase, children, limit)
    ensures limit > 0 && LeavesOf(children) <= Power(limit) && 1 + NodesOf(children) <= Geometric(limit)
    ensures ComparisonsOf(children, goOn, facts, answers) <= MAX_RIGHT_LIST_LENGTH * LeavesOf(children)
    decreases children, 1
  {
    hide Typed;
    TypedIsDeep(d, phase, children[0], limit - 1);
    ChildrenAreBounded(d, phase, children, limit - 1, goOn, facts, answers);
    ProductGrows(|children|, MAX_CONDITIONS_PER_OP, Power(limit - 1));
    ProductGrows(|children|, MAX_CONDITIONS_PER_OP, Geometric(limit - 1));
    hide LeavesOf, NodesOf, ComparisonsOf;
  }

  lemma {:induction false} ChildrenAreBounded(d: Declarations, phase: Phase, children: seq<CompiledCondition>, limit: int,
                                              goOn: bool, facts: Facts, answers: Answers)
    requires forall i | 0 <= i < |children| :: Typed(d, phase, children[i], limit)
    requires children != [] ==> limit >= 0
    ensures limit >= 0 ==> LeavesOf(children) <= |children| * Power(limit) && NodesOf(children) <= |children| * Geometric(limit)
    ensures ComparisonsOf(children, goOn, facts, answers) <= MAX_RIGHT_LIST_LENGTH * LeavesOf(children)
    decreases children, 0
  {
    hide Typed, Evaluate, Comparisons, Leaves, Nodes, Power, Geometric;
    if children != [] {
      TypedIsBounded(d, phase, children[0], limit, facts, answers);
      ChildrenAreBounded(d, phase, children[1..], limit, goOn, facts, answers);
      Distribute(|children| - 1, Power(limit));
      Distribute(|children| - 1, Geometric(limit));
    }
  }

  lemma Distribute(n: int, x: int)
    ensures (n + 1) * x == n * x + x
  {}
}
