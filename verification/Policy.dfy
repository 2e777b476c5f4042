/** Policy documents, compiled policies, and what evaluating a compiled policy means. */
module Policy {
  import opened Names
  import opened Decision

  // ----- Ceilings -----

  const MAX_OUTCOMES := 32
  const MAX_QUESTIONS := 64
  const MAX_REQUIRED_FACTS := 128
  const MAX_RULES := 128
  const MAX_CONDITION_DEPTH := 8
  const MAX_CONDITIONS_PER_OP := 32
  const MAX_RIGHT_LIST_LENGTH := 64
  const MIN_CHOICE_CRITERIA := 2
  const MAX_CHOICE_CRITERIA := 255
  const MIN_SCORE_CRITERIA := 2
  const MAX_SCORE_CRITERIA := 10
  const MAX_DESCRIPTION_LENGTH := 512
  const MAX_INSTRUCTIONS_LENGTH := 4096
  const MAX_CRITERIA_TEXT_LENGTH := 1024
  const MAX_VERSION_LENGTH := 32
  const MAX_STRING_VALUE_LENGTH := 1024

  // ----- Documents -----

  datatype Operator = Eq | Neq | Lt | Lte | Gt | Gte | In | Exists | UnknownOperator(text: Name)

  predicate IsOrdering(op: Operator) {
    op in {Lt, Lte, Gt, Gte}
  }

  /** The left side of a leaf as written; an absent name is empty. */
  datatype Operand = Operand(fact: Name, answer: Name, field: AnswerField, probabilityKey: Name)

  /** One node of the condition tree as written, where nothing yet says that exactly one of all,
      any, negated and left is set. */
  datatype Condition = Condition(
    all: seq<Condition>,
    any: seq<Condition>,
    negated: Option<Condition>,
    left: Option<Operand>,
    op: Operator,
    right: Value)

  datatype Rule = Rule(id: Name, description: string, when: Option<Condition>, outcome: Name)

  datatype Question = Question(questionType: QuestionType, instructions: Value, criteria: Value)

  datatype Input = Input(requiredFacts: map<Name, FactType>, optionalFacts: map<Name, FactType>, strict: bool)

  datatype Document = Document(
    apiVersion: Name,
    kind: Name,
    name: Name,
    version: string,
    description: string,
    model: string,
    outcomes: seq<Name>,
    defaultOutcome: Name,
    input: Input,
    preRules: seq<Rule>,
    questions: map<Name, Question>,
    decisionRules: seq<Rule>)

  datatype Error =
    | UnsupportedAPIVersion
    | UnsupportedKind
    | InvalidDocument
    | InvalidMetadata
    | InvalidOutcome
    | InvalidQuestion
    | InvalidFact
    | InvalidRule
    | InvalidCondition
    | TypeMismatch
    | UnknownReference
    | ProviderProtocol
    | ValidationFailed

  datatype Result<T> = Ok(value: T) | Err(error: Error)

  // ----- Compiled policies -----

  datatype CompiledOperand =
    | FactOperand(fact: Name, factType: FactType)
    | AnswerOperand(question: Name, field: AnswerField, questionType: QuestionType, probabilityKey: Name)

  datatype CompiledCondition =
    | AllOf(children: seq<CompiledCondition>)
    | AnyOf(children: seq<CompiledCondition>)
    | Not(child: CompiledCondition)
    | Leaf(operand: CompiledOperand, op: Operator, rightScalar: Value, rightList: seq<Value>, rightBool: bool)

  datatype CompiledQuestion = CompiledQuestion(
    id: Name,
    questionType: QuestionType,
    instructions: Value,
    noulCriteria: Option<map<Name, Value>>,
    choiceCriteria: map<Name, Value>,
    choiceKeys: seq<Name>,
    scoreCriteria: seq<Value>)

  datatype CompiledRule = CompiledRule(id: Name, description: string, condition: Option<CompiledCondition>, outcome: Name)

  datatype Compiled = Compiled(
    name: Name,
    version: string,
    description: string,
    model: string,
    outcomes: seq<Name>,
    defaultOutcome: Name,
    requiredFacts: map<Name, FactType>,
    optionalFacts: map<Name, FactType>,
    strictInput: bool,
    questions: map<Name, CompiledQuestion>,
    questionIDs: seq<Name>,
    preRules: seq<CompiledRule>,
    decisionRules: seq<CompiledRule>)

  /** What a Go map yields for a missing question. */
  const NO_QUESTION := CompiledQuestion(EMPTY, UnknownQuestion(EMPTY), Null, None, map[], [], [])

  function QuestionAt(p: Compiled, id: Name): CompiledQuestion {
    if id in p.questions then p.questions[id] else NO_QUESTION
  }

  // ----- Evaluating a compiled condition -----

  function ScalarEqual(left: Value, right: Value): bool {
    var l, r := AsNumber(left), AsNumber(right);
    if l.Some? && r.Some? then l == r
    else if l.Some? != r.Some? then false
    else
      match left
      case Text(text) => right.Text? && text == right.text
      case Flag(flag) => right.Flag? && flag == right.flag
      case _ => false
  }

  function CompareOrdered(left: Value, right: Value, op: Operator): bool {
    var l, r := AsNumber(left), AsNumber(right);
    if l.None? || r.None? then false
    else
      match op
      case Lt => l.value < r.value
      case Lte => l.value <= r.value
      case Gt => l.value > r.value
      case Gte => l.value >= r.value
      case _ => false
  }

  function AnyEqual(left: Value, candidates: seq<Value>): bool {
    candidates != [] && (ScalarEqual(left, candidates[0]) || AnyEqual(left, candidates[1..]))
  }

  /** The runtime value a compiled operand reads, if there is one. */
  function ReadOperand(operand: CompiledOperand, facts: Facts, answers: Answers): Option<Value> {
    match operand
    case FactOperand(fact, _) => if fact in facts then Some(facts[fact]) else None
    case AnswerOperand(question, field, _, key) =>
      if question !in answers then None
      else if field == ProbabilityField then Probability(answers[question], key)
      else Field(answers[question], field)
  }

  function EvaluateLeaf(leaf: CompiledCondition, facts: Facts, answers: Answers): bool
    requires leaf.Leaf?
  {
    var left := ReadOperand(leaf.operand, facts, answers);
    if leaf.op == Exists then left.Some? == leaf.rightBool
    else if left.None? then false
    else if leaf.op == Eq then ScalarEqual(left.value, leaf.rightScalar)
    else if leaf.op == Neq then !ScalarEqual(left.value, leaf.rightScalar)
    else if leaf.op == In then AnyEqual(left.value, leaf.rightList)
    else IsOrdering(leaf.op) && CompareOrdered(left.value, leaf.rightScalar, leaf.op)
  }

  function Evaluate(c: CompiledCondition, facts: Facts, answers: Answers): bool
    decreases c
  {
    match c
    case AllOf(children) => EvaluateAll(children, facts, answers)
    case AnyOf(children) => EvaluateAny(children, facts, answers)
    case Not(child) => !Evaluate(child, facts, answers)
    case Leaf(_, _, _, _, _) => EvaluateLeaf(c, facts, answers)
  }

  function EvaluateAll(children: seq<CompiledCondition>, facts: Facts, answers: Answers): bool
    decreases children
  {
    children == [] || (Evaluate(children[0], facts, answers) && EvaluateAll(children[1..], facts, answers))
  }

  function EvaluateAny(children: seq<CompiledCondition>, facts: Facts, answers: Answers): bool
    decreases children
  {
    children != [] && (Evaluate(children[0], facts, answers) || EvaluateAny(children[1..], facts, answers))
  }

  // ----- Selecting an outcome -----

  function Matches(rule: CompiledRule, facts: Facts, answers: Answers): bool {
    rule.condition.None? || Evaluate(rule.condition.value, facts, answers)
  }

  datatype Path = PreRule | DecisionRule | Default

  /** matchedRule is empty when the default outcome applied. */
  datatype Selection = Selection(outcome: Name, matchedRule: Name, path: Path)

  function FirstMatch(rules: seq<CompiledRule>, facts: Facts, answers: Answers): Option<CompiledRule> {
    if rules == [] then None
    else if Matches(rules[0], facts, answers) then Some(rules[0])
    else FirstMatch(rules[1..], facts, answers)
  }

  function EvaluatePreRules(p: Compiled, facts: Facts): Option<Selection> {
    var rule := FirstMatch(p.preRules, facts, map[]);
    if rule.None? then None else Some(Selection(rule.value.outcome, rule.value.id, PreRule))
  }

  function EvaluateDecisionRules(p: Compiled, facts: Facts, answers: Answers): Selection {
    var rule := FirstMatch(p.decisionRules, facts, answers);
    if rule.None? then Selection(p.defaultOutcome, EMPTY, Default)
    else Selection(rule.value.outcome, rule.value.id, DecisionRule)
  }

  /** The rule that decides is the one of least index that matches. */
  lemma {:induction false} FirstMatchIsLeast(rules: seq<CompiledRule>, facts: Facts, answers: Answers)
    ensures var r := FirstMatch(rules, facts, answers);
            if r.None? then forall i | 0 <= i < |rules| :: !Matches(rules[i], facts, answers)
            else exists i | 0 <= i < |rules| :: r.value == rules[i] && Matches(rules[i], facts, answers) &&
                   forall j | 0 <= j < i :: !Matches(rules[j], facts, answers)
  {
    hide Matches;
    if rules != [] && !Matches(rules[0], facts, answers) {
      FirstMatchIsLeast(rules[1..], facts, answers);
      var r := FirstMatch(rules, facts, answers);
      if r.Some? {
        var i :| 0 <= i < |rules[1..]| && r.value == rules[1..][i] && Matches(rules[1..][i], facts, answers) &&
                 forall j | 0 <= j < i :: !Matches(rules[1..][j], facts, answers);
        assert rules[i + 1] == rules[1..][i];
        assert forall j | 0 < j < i + 1 :: rules[j] == rules[1..][j - 1];
      } else {
        assert forall j | 0 < j < |rules| :: rules[j] == rules[1..][j - 1];
      }
    }
  }
}
