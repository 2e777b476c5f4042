/** The canonical form a policy's hash is taken of, and why equal forms mean equal behaviour. */
module Canonical {
  import opened Names
  import opened Decision
  import opened Policy
  import opened ConditionCompiler
  import opened ConditionTyping
  import opened AnswerContract
  import opened PolicyTheorems
  import opened PolicyRuntime

  // ----- The forms; a member that encoding omits when empty is its empty value here -----

  datatype CanonicalCondition = CanonicalCondition(
    kind: string,
    children: seq<CanonicalCondition>,
    fact: Name,
    question: Name,
    field: Name,
    probabilityKey: Name,
    op: Name,
    rightScalar: Value,
    rightList: seq<Value>,
    rightBool: bool)

  datatype CanonicalRule = CanonicalRule(id: Name, description: string, outcome: Name, when: Option<CanonicalCondition>)

  datatype CanonicalQuestion = CanonicalQuestion(
    id: Name,
    questionType: QuestionType,
    instructions: Value,
    noulCriteria: map<Name, Value>,
    choiceCriteria: map<Name, Value>,
    scoreCriteria: seq<Value>)

  datatype CanonicalPolicy = CanonicalPolicy(
    name: Name,
    version: string,
    description: string,
    model: string,
    outcomes: seq<Name>,
    defaultOutcome: Name,
    requiredFacts: map<Name, FactType>,
    optionalFacts: map<Name, FactType>,
    strictInput: bool,
    questions: seq<CanonicalQuestion>,
    preRules: seq<CanonicalRule>,
    decisionRules: seq<CanonicalRule>)

  // ----- The projection -----

  function OperatorName(op: Operator): Name {
    match op
    case Eq => Name("eq")
    case Neq => Name("neq")
    case Lt => Name("lt")
    case Lte => Name("lte")
    case Gt => Name("gt")
    case Gte => Name("gte")
    case In => Name("in")
    case Exists => Name("exists")
    case UnknownOperator(text) => text
  }

  function FieldName(field: AnswerField): Name {
    match field
    case NoField => EMPTY
    case ChoiceField => Name("choice")
    case ScoreField => Name("score")
    case NoulField => Name("noul")
    case ConfidenceField => Name("confidence")
    case ProbabilityField => Name("probability")
    case UnknownField(text) => text
  }

  function LeafForm(leaf: CompiledCondition): CanonicalCondition
    requires leaf.Leaf?
  {
    var bare := CanonicalCondition("leaf", [], EMPTY, EMPTY, EMPTY, EMPTY, OperatorName(leaf.op),
                                   leaf.rightScalar, leaf.rightList, leaf.rightBool);
    match leaf.operand
    case FactOperand(fact, _) => bare.(fact := fact)
    case AnswerOperand(question, field, _, key) =>
      bare.(question := question, field := FieldName(field), probabilityKey := key)
  }

  function Combined(kind: string, children: seq<CanonicalCondition>): CanonicalCondition {
    CanonicalCondition(kind, children, EMPTY, EMPTY, EMPTY, EMPTY, EMPTY, Null, [], false)
  }

  function ConditionForm(c: CompiledCondition): CanonicalCondition
    decreases c
  {
    match c
    case AllOf(children) => Combined("all", seq(|children|, i requires 0 <= i < |children| => ConditionForm(children[i])))
    case AnyOf(children) => Combined("any", seq(|children|, i requires 0 <= i < |children| => ConditionForm(children[i])))
    case Not(child) => Combined("not", [ConditionForm(child)])
    case Leaf(_, _, _, _, _) => LeafForm(c)
  }

  function RuleForm(rule: CompiledRule): CanonicalRule {
    CanonicalRule(rule.id, rule.description, rule.outcome,
                  if rule.condition.None? then None else Some(ConditionForm(rule.condition.value)))
  }

  function QuestionForm(q: CompiledQuestion): CanonicalQuestion {
    CanonicalQuestion(q.id, q.questionType, q.instructions, if q.noulCriteria.None? then map[] else q.noulCriteria.value,
                      q.choiceCriteria, q.scoreCriteria)
  }

  function RuleForms(rules: seq<CompiledRule>): seq<CanonicalRule> {
    seq(|rules|, i requires 0 <= i < |rules| => RuleForm(rules[i]))
  }

  function QuestionForms(p: Compiled): seq<CanonicalQuestion> {
    seq(|p.questionIDs|, i requires 0 <= i < |p.questionIDs| => QuestionForm(QuestionAt(p, p.questionIDs[i])))
  }

  function Form(p: Compiled): CanonicalPolicy {
    CanonicalPolicy(p.name, p.version, p.description, p.model, p.outcomes, p.defaultOutcome, p.requiredFacts, p.optionalFacts,
                    p.strictInput, QuestionForms(p), RuleForms(p.preRules), RuleForms(p.decisionRules))
  }

  // ----- The loops that build it -----

  method CanonicalizeCondition(c: CompiledCondition) returns (form: CanonicalCondition)
    ensures form == ConditionForm(c)
    decreases c, 0
  {
    match c
    case AllOf(_) =>
      var children := CanonicalizeChildren(c.children);
      form := Combined("all", children);
    case AnyOf(_) =>
      var children := CanonicalizeChildren(c.children);
      form := Combined("any", children);
    case Not(_) =>
      var child := CanonicalizeCondition(c.child);
      form := Combined("not", [child]);
    case Leaf(_, _, _, _, _) =>
      form := LeafForm(c);
  }

  method CanonicalizeChildren(children: seq<CompiledCondition>) returns (forms: seq<CanonicalCondition>)
    ensures forms == seq(|children|, i requires 0 <= i < |children| => ConditionForm(children[i]))
    decreases children, 1
  {
    forms := [];
    for i := 0 to |children|
      invariant |forms| == i && forall j | 0 <= j < i :: forms[j] == ConditionForm(children[j])
    {
      var form := CanonicalizeCondition(children[i]);
      forms := forms + [form];
    }
  }

  method CanonicalRules(rules: seq<CompiledRule>) returns (forms: seq<CanonicalRule>)
    ensures forms == RuleForms(rules)
  {
    forms := [];
    for i := 0 to |rules|
      invariant |forms| == i && forall j | 0 <= j < i :: forms[j] == RuleForm(rules[j])
    {
      var entry := CanonicalRule(rules[i].id, rules[i].description, rules[i].outcome, None);
      if rules[i].condition.Some? {
        var condition := CanonicalizeCondition(rules[i].condition.value);
        entry := entry.(when := Some(condition));
      }
      forms := forms + [entry];
    }
  }

  method Canonicalize(p: Compiled) returns (form: CanonicalPolicy)
    ensures form == Form(p)
  {
    var questions := [];
    for i := 0 to |p.questionIDs|
      invariant |questions| == i && forall j | 0 <= j < i :: questions[j] == QuestionForm(QuestionAt(p, p.questionIDs[j]))
    {
      questions := questions + [QuestionForm(QuestionAt(p, p.questionIDs[i]))];
    }
    assert questions == QuestionForms(p);
    var pre := CanonicalRules(p.preRules);
    var decision := CanonicalRules(p.decisionRules);
    form := CanonicalPolicy(p.name, p.version, p.description, p.model, p.outcomes, p.defaultOutcome, p.requiredFacts,
                            p.optionalFacts, p.strictInput, questions, pre, decision);
  }

  // ----- Equal forms, equal behaviour -----

  lemma OperatorNamesDiffer(a: Operator, b: Operator)
    requires !a.UnknownOperator? && !b.UnknownOperator? && OperatorName(a) == OperatorName(b)
    ensures a == b
  {
    var x, y := OperatorName(a).text, OperatorName(b).text;
    assert |x| == |y| && x[0] == y[0] && x[|x| - 1] == y[|y| - 1];
  }

  lemma FieldNamesDiffer(a: AnswerField, b: AnswerField)
    requires FieldIsValid(a) && FieldIsValid(b) && FieldName(a) == FieldName(b)
    ensures a == b
  {
    assert FieldName(a).text[0] == FieldName(b).text[0] && |FieldName(a).text| == |FieldName(b).text|;
  }

  /** Two operands with the same form read the same value, although the form drops their types. */
  lemma SameOperand(d: Declarations, e: Declarations, phase: Phase, a: CompiledCondition, b: CompiledCondition, facts: Facts, answers: Answers)
    requires Declared(d) && Declared(e) && a.Leaf? && b.Leaf?
    requires TypedOperand(d, phase, a.operand) && TypedOperand(e, phase, b.operand)
    requires LeafForm(a) == LeafForm(b)
    ensures ReadOperand(a.operand, facts, answers) == ReadOperand(b.operand, facts, answers)
  {
    NoEmptyNames(d);
    NoEmptyNames(e);
    hide Declared, NamesPart, OperatorName, FieldName, Probability, Field;
    if a.operand.AnswerOperand? && b.operand.AnswerOperand? {
      FieldNamesDiffer(a.operand.field, b.operand.field);
    }
  }

  lemma NoEmptyNames(d: Declarations)
    requires Declared(d)
    ensures EMPTY !in d.facts && EMPTY !in d.questions
  {
    hide QuestionFits;
  }

  lemma SameLeaf(d: Declarations, e: Declarations, phase: Phase, a: CompiledCondition, b: CompiledCondition, facts: Facts, answers: Answers)
    requires Declared(d) && Declared(e) && a.Leaf? && b.Leaf?
    requires TypedLeaf(d, phase, a) && TypedLeaf(e, phase, b)
    requires LeafForm(a) == LeafForm(b)
    ensures EvaluateLeaf(a, facts, answers) == EvaluateLeaf(b, facts, answers)
  {
    hide Declared, TypedOperand, ScalarOf, KindOf, ReadOperand, OperatorName, FieldName, ScalarEqual, CompareOrdered, AnyEqual;
    SameOperand(d, e, phase, a, b, facts, answers);
    OperatorNamesDiffer(a.op, b.op);
  }

  lemma {:induction false} SameCondition(d: Declarations, e: Declarations, phase: Phase, a: CompiledCondition, b: CompiledCondition,
                                         limit: int, facts: Facts, answers: Answers)
    requires Declared(d) && Declared(e) && Typed(d, phase, a, limit) && Typed(e, phase, b, limit)
    requires ConditionForm(a) == ConditionForm(b)
    ensures Evaluate(a, facts, answers) == Evaluate(b, facts, answers)
    decreases a, 1
  {
    hide Declared, TypedLeaf, LeafForm, EvaluateLeaf;
    LeafFormKind(a);
    LeafFormKind(b);
    match a
    case AllOf(_) => SameChildren(d, e, phase, a.children, b.children, ConditionForm(a), limit - 1, facts, answers);
    case AnyOf(_) => SameChildren(d, e, phase, a.children, b.children, ConditionForm(a), limit - 1, facts, answers);
    case Not(_) =>
      assert ConditionForm(a).children[0] == ConditionForm(b).children[0];
      SameCondition(d, e, phase, a.child, b.child, limit - 1, facts, answers);
    case Leaf(_, _, _, _, _) => SameLeaf(d, e, phase, a, b, facts, answers);
  }

  /** The kind in a form tells the four shapes of a condition apart. */
  lemma LeafFormKind(c: CompiledCondition)
    ensures ConditionForm(c).kind == match c case AllOf(_) => "all" case AnyOf(_) => "any" case Not(_) => "not" case Leaf(_, _, _, _, _) => "leaf"
    ensures ConditionForm(c).kind[1] == match c case AllOf(_) => 'l' case AnyOf(_) => 'n' case Not(_) => 'o' case Leaf(_, _, _, _, _) => 'e'
  {}

  lemma {:induction false} SameChildren(d: Declarations, e: Declarations, phase: Phase, a: seq<CompiledCondition>, b: seq<CompiledCondition>,
                                        form: CanonicalCondition, limit: int, facts: Facts, answers: Answers)
    requires Declared(d) && Declared(e) && |a| == |b| == |form.children|
    requires forall i | 0 <= i < |a| :: Typed(d, phase, a[i], limit) && Typed(e, phase, b[i], limit)
    requires forall i | 0 <= i < |a| :: ConditionForm(a[i]) == form.children[i] == ConditionForm(b[i])
    ensures EvaluateAll(a, facts, answers) == EvaluateAll(b, facts, answers)
    ensures EvaluateAny(a, facts, answers) == EvaluateAny(b, facts, answers)
    decreases a, 0
  {
    hide Declared, Typed, ConditionForm, Evaluate;
    if a != [] {
      SameCondition(d, e, phase, a[0], b[0], limit, facts, answers);
      SameChildren(d, e, phase, a[1..], b[1..], form.(children := form.children[1..]), limit, facts, answers);
    }
  }

  lemma {:induction false} SameFirstMatch(d: Declarations, e: Declarations, outs: set<Name>, phase: Phase, a: seq<CompiledRule>, b: seq<CompiledRule>, facts: Facts, answers: Answers)
    requires Declared(d) && Declared(e) && RuleForms(a) == RuleForms(b)
    requires forall i | 0 <= i < |a| :: RuleSound(d, outs, a[i], phase)
    requires forall i | 0 <= i < |b| :: RuleSound(e, outs, b[i], phase)
    ensures var x, y := FirstMatch(a, facts, answers), FirstMatch(b, facts, answers);
            && (x.Some? <==> y.Some?)
            && (x.Some? ==> x.value.id == y.value.id && x.value.outcome == y.value.outcome)
  {
    hide Declared, Typed, ConditionForm, Evaluate;
    assert |RuleForms(a)| == |a| && |RuleForms(b)| == |b|;
    if a != [] {
      assert RuleForm(a[0]) == RuleForms(a)[0] == RuleForms(b)[0] == RuleForm(b[0]);
      if a[0].condition.Some? {
        SameCondition(d, e, phase, a[0].condition.value, b[0].condition.value, MAX_CONDITION_DEPTH, facts, answers);
      }
      assert RuleForms(a[1..]) == RuleForms(a)[1..] && RuleForms(b[1..]) == RuleForms(b)[1..];
      SameFirstMatch(d, e, outs, phase, a[1..], b[1..], facts, answers);
    }
  }

  lemma FormAt(p: Compiled, i: nat)
    requires QuestionsFit(p) && i < |p.questionIDs|
    ensures p.questionIDs[i] in p.questions && |QuestionForms(p)| == |p.questionIDs|
    ensures QuestionForms(p)[i] == QuestionForm(QuestionAt(p, p.questionIDs[i]))
    ensures QuestionForms(p)[i].id == p.questionIDs[i]
  {
    hide QuestionFits, Ascending;
    assert p.questionIDs[i] in p.questionIDs;
  }

  lemma SameQuestions(p: Compiled, q: Compiled)
    requires QuestionsFit(p) && QuestionsFit(q) && QuestionForms(p) == QuestionForms(q)
    ensures p.questionIDs == q.questionIDs && p.questions.Keys == q.questions.Keys
    ensures forall id | id in p.questions :: QuestionForm(p.questions[id]) == QuestionForm(q.questions[id])
  {
    hide QuestionFits, QuestionForm, QuestionForms, Ascending;
    SameIDs(p, q);
    forall id | id in p.questions ensures id in q.questions && QuestionForm(p.questions[id]) == QuestionForm(q.questions[id]) {
      assert id in p.questionIDs;
      var i :| 0 <= i < |p.questionIDs| && p.questionIDs[i] == id;
      FormAt(p, i);
      FormAt(q, i);
    }
  }

  lemma SameIDs(p: Compiled, q: Compiled)
    requires QuestionsFit(p) && QuestionsFit(q) && QuestionForms(p) == QuestionForms(q)
    ensures p.questionIDs == q.questionIDs
  {
    assert |p.questionIDs| == |QuestionForms(p)| == |QuestionForms(q)| == |q.questionIDs|;
    hide QuestionForms, QuestionsFit, QuestionForm;
    forall i | 0 <= i < |p.questionIDs| ensures p.questionIDs[i] == q.questionIDs[i] {
      FormAt(p, i);
      FormAt(q, i);
    }
  }

  lemma SameAnswerVerdict(x: CompiledQuestion, y: CompiledQuestion, a: Answer)
    requires QuestionFits(x) && QuestionFits(y) && QuestionForm(x) == QuestionForm(y)
    ensures AnswerAccepted(x, a) <==> AnswerAccepted(y, a)
  {
    OneListing(x.choiceKeys, y.choiceKeys, x.choiceCriteria.Keys);
    hide IsDistribution, IsListing;
  }

  /** Two policies that compiled, from whatever documents, and have the same canonical form, accept
      the same facts and the same answers and select the same outcome, by the same rule, on every
      input. */
  lemma EqualFormsAgree(p: Compiled, q: Compiled, facts: Facts, answers: Answers)
    requires Sound(p) && Sound(q) && Form(p) == Form(q)
    ensures FactsAccepted(p, facts) <==> FactsAccepted(q, facts)
    ensures AnswersAccepted(p, answers) <==> AnswersAccepted(q, answers)
    ensures EvaluatePreRules(p, facts) == EvaluatePreRules(q, facts)
    ensures EvaluateDecisionRules(p, facts, answers) == EvaluateDecisionRules(q, facts, answers)
  {
    hide Typed, Declared, QuestionsFit, FirstMatch, RuleForms, QuestionForms, NoDuplicates, AnswerAccepted, ScopeOf;
    var outcomes := set o | o in p.outcomes;
    SameFirstMatch(ScopeOf(p), ScopeOf(q), outcomes, PrePhase, p.preRules, q.preRules, facts, map[]);
    SameFirstMatch(ScopeOf(p), ScopeOf(q), outcomes, DecisionPhase, p.decisionRules, q.decisionRules, facts, answers);
    SameAnswersVerdict(p, q, answers);
    hide RulesSound;
  }

  lemma SameAnswersVerdict(p: Compiled, q: Compiled, answers: Answers)
    requires QuestionsFit(p) && QuestionsFit(q) && QuestionForms(p) == QuestionForms(q)
    ensures AnswersAccepted(p, answers) <==> AnswersAccepted(q, answers)
  {
    hide AnswerAccepted, QuestionForms, QuestionForm, QuestionFits;
    SameQuestions(p, q);
    forall id | id in p.questions && id in answers
      ensures AnswerAccepted(p.questions[id], answers[id]) <==> AnswerAccepted(q.questions[id], answers[id])
    {
      SameAnswerVerdict(p.questions[id], q.questions[id], answers[id]);
    }
    hide IsListing;
  }

  // ----- What a form keeps -----

  /** Two sets of declarations that type every operand alike. */
  ghost predicate SameTypes(d: Declarations, e: Declarations) {
    && d.facts == e.facts && d.questions.Keys == e.questions.Keys
    && forall id | id in d.questions :: d.questions[id].questionType == e.questions[id].questionType
  }

  /** The types the form of a leaf drops are those of the declarations. */
  lemma OperandOfForm(d: Declarations, e: Declarations, phase: Phase, a: CompiledCondition, b: CompiledCondition)
    requires Declared(d) && Declared(e) && SameTypes(d, e) && a.Leaf? && b.Leaf?
    requires TypedOperand(d, phase, a.operand) && TypedOperand(e, phase, b.operand)
    requires LeafForm(a) == LeafForm(b)
    ensures a.operand == b.operand
  {
    NoEmptyNames(d);
    NoEmptyNames(e);
    hide Declared, NamesPart, OperatorName, FieldName;
    if a.operand.AnswerOperand? && b.operand.AnswerOperand? {
      FieldNamesDiffer(a.operand.field, b.operand.field);
    }
  }

  lemma LeafOfForm(d: Declarations, e: Declarations, phase: Phase, a: CompiledCondition, b: CompiledCondition)
    requires Declared(d) && Declared(e) && SameTypes(d, e) && a.Leaf? && b.Leaf?
    requires TypedLeaf(d, phase, a) && TypedLeaf(e, phase, b)
    requires LeafForm(a) == LeafForm(b)
    ensures a == b
  {
    hide Declared, SameTypes, TypedOperand, ScalarOf, KindOf, OperatorName, FieldName;
    OperandOfForm(d, e, phase, a, b);
    OperatorNamesDiffer(a.op, b.op);
  }

  /** A typed condition can be told from its form. */
  lemma {:induction false} ConditionOfForm(d: Declarations, e: Declarations, phase: Phase, a: CompiledCondition, b: CompiledCondition, limit: int)
    requires Declared(d) && Declared(e) && SameTypes(d, e) && Typed(d, phase, a, limit) && Typed(e, phase, b, limit)
    requires ConditionForm(a) == ConditionForm(b)
    ensures a == b
    decreases a, 1
  {
    hide Declared, SameTypes, TypedLeaf, LeafForm;
    LeafFormKind(a);
    LeafFormKind(b);
    match a
    case AllOf(_) => ChildrenOfForm(d, e, phase, a.children, b.children, ConditionForm(a), limit - 1);
    case AnyOf(_) => ChildrenOfForm(d, e, phase, a.children, b.children, ConditionForm(a), limit - 1);
    case Not(_) =>
      assert ConditionForm(a).children[0] == ConditionForm(b).children[0];
      ConditionOfForm(d, e, phase, a.child, b.child, limit - 1);
    case Leaf(_, _, _, _, _) => LeafOfForm(d, e, phase, a, b);
  }

  lemma {:induction false} ChildrenOfForm(d: Declarations, e: Declarations, phase: Phase, a: seq<CompiledCondition>, b: seq<CompiledCondition>,
                                          form: CanonicalCondition, limit: int)
    requires Declared(d) && Declared(e) && SameTypes(d, e) && |a| == |b| == |form.children|
    requires forall i | 0 <= i < |a| :: Typed(d, phase, a[i], limit) && Typed(e, phase, b[i], limit)
    requires forall i | 0 <= i < |a| :: ConditionForm(a[i]) == form.children[i] == ConditionForm(b[i])
    ensures a == b
    decreases a, 0
  {
    hide Declared, SameTypes, Typed, ConditionForm;
    forall i | 0 <= i < |a| ensures a[i] == b[i] {
      ConditionOfForm(d, e, phase, a[i], b[i], limit);
    }
  }

  lemma RulesOfForm(d: Declarations, e: Declarations, outs: set<Name>, phase: Phase, a: seq<CompiledRule>, b: seq<CompiledRule>)
    requires Declared(d) && Declared(e) && SameTypes(d, e) && RuleForms(a) == RuleForms(b)
    requires forall i | 0 <= i < |a| :: RuleSound(d, outs, a[i], phase)
    requires forall i | 0 <= i < |b| :: RuleSound(e, outs, b[i], phase)
    ensures a == b
  {
    hide Declared, SameTypes, Typed, ConditionForm;
    assert |a| == |RuleForms(a)| == |RuleForms(b)| == |b|;
    forall i | 0 <= i < |a| ensures a[i] == b[i] {
      assert RuleForm(a[i]) == RuleForms(a)[i] == RuleForms(b)[i] == RuleForm(b[i]);
      if a[i].condition.Some? {
        ConditionOfForm(d, e, phase, a[i].condition.value, b[i].condition.value, MAX_CONDITION_DEPTH);
      }
    }
  }

  /** Equal in every member, except that an absent and an empty noul criteria map pass for the same. */
  ghost predicate SameQuestion(a: CompiledQuestion, b: CompiledQuestion) {
    && a.id == b.id && a.questionType == b.questionType && a.instructions == b.instructions
    && a.choiceCriteria == b.choiceCriteria && a.choiceKeys == b.choiceKeys && a.scoreCriteria == b.scoreCriteria
    && (a.noulCriteria == b.noulCriteria || (a.noulCriteria in {None, Some(map[])} && b.noulCriteria in {None, Some(map[])}))
  }

  /** Equal in every member, questions as above. */
  ghost predicate SamePolicy(p: Compiled, q: Compiled) {
    && p.name == q.name && p.version == q.version && p.description == q.description && p.model == q.model
    && p.outcomes == q.outcomes && p.defaultOutcome == q.defaultOutcome
    && p.requiredFacts == q.requiredFacts && p.optionalFacts == q.optionalFacts && p.strictInput == q.strictInput
    && p.questionIDs == q.questionIDs && p.questions.Keys == q.questions.Keys
    && (forall id | id in p.questions :: SameQuestion(p.questions[id], q.questions[id]))
    && p.preRules == q.preRules && p.decisionRules == q.decisionRules
  }

  lemma QuestionOfForm(a: CompiledQuestion, b: CompiledQuestion)
    requires QuestionFits(a) && QuestionFits(b)
    ensures QuestionForm(a) == QuestionForm(b) <==> SameQuestion(a, b)
  {
    if QuestionForm(a) == QuestionForm(b) {
      OneListing(a.choiceKeys, b.choiceKeys, a.choiceCriteria.Keys);
    }
    hide IsListing;
  }

  lemma QuestionsOfForm(p: Compiled, q: Compiled)
    requires QuestionsFit(p) && QuestionsFit(q) && QuestionForms(p) == QuestionForms(q)
    ensures p.questionIDs == q.questionIDs && p.questions.Keys == q.questions.Keys
    ensures forall id | id in p.questions :: SameQuestion(p.questions[id], q.questions[id])
  {
    hide QuestionForms, QuestionForm, QuestionFits, IsListing, SameQuestion;
    SameQuestions(p, q);
    forall id | id in p.questions ensures SameQuestion(p.questions[id], q.questions[id]) {
      QuestionOfForm(p.questions[id], q.questions[id]);
    }
  }

  lemma FormsOfQuestions(p: Compiled, q: Compiled)
    requires QuestionsFit(p) && QuestionsFit(q) && p.questionIDs == q.questionIDs && p.questions.Keys == q.questions.Keys
    requires forall id | id in p.questions :: SameQuestion(p.questions[id], q.questions[id])
    ensures QuestionForms(p) == QuestionForms(q)
  {
    hide QuestionForm, QuestionFits, SameQuestion;
    forall i | 0 <= i < |p.questionIDs| ensures QuestionForms(p)[i] == QuestionForms(q)[i] {
      var id := p.questionIDs[i];
      assert id in p.questionIDs;
      QuestionOfForm(p.questions[id], q.questions[id]);
    }
  }

  lemma RulesOfForms(p: Compiled, q: Compiled)
    requires Sound(p) && Sound(q) && Form(p) == Form(q) && SameTypes(ScopeOf(p), ScopeOf(q))
    ensures p.preRules == q.preRules && p.decisionRules == q.decisionRules
  {
    hide Typed, Declared, SameTypes, QuestionsFit, RuleForms, QuestionForms, NoDuplicates, ScopeOf;
    var outcomes := set o | o in p.outcomes;
    RulesOfForm(ScopeOf(p), ScopeOf(q), outcomes, PrePhase, p.preRules, q.preRules);
    RulesOfForm(ScopeOf(p), ScopeOf(q), outcomes, DecisionPhase, p.decisionRules, q.decisionRules);
    hide RulesSound;
  }

  /** The form of a compiled policy keeps all there is to it: two policies have equal forms exactly
      when they are equal in every member, up to absent and empty noul criteria. */
  lemma FormKeepsEverything(p: Compiled, q: Compiled)
    requires Sound(p) && Sound(q)
    ensures Form(p) == Form(q) <==> SamePolicy(p, q)
  {
    hide RulesSound, Declared, QuestionsFit, NoDuplicates, RuleForms, QuestionForms, SameQuestion;
    if Form(p) == Form(q) {
      QuestionsOfForm(p, q);
      assert SameTypes(ScopeOf(p), ScopeOf(q)) by { TypesOfQuestions(p, q); }
      RulesOfForms(p, q);
    }
    if SamePolicy(p, q) {
      FormsOfQuestions(p, q);
    }
    hide Sound;
  }

  lemma TypesOfQuestions(p: Compiled, q: Compiled)
    requires p.requiredFacts == q.requiredFacts && p.optionalFacts == q.optionalFacts && p.questions.Keys == q.questions.Keys
    requires forall id | id in p.questions :: SameQuestion(p.questions[id], q.questions[id])
    ensures SameTypes(ScopeOf(p), ScopeOf(q))
  {}
}
