/** Evaluating a sound policy on conforming input: no mismatch fall-through is reached, and nothing
    but the declared names matters. */
module PolicyRuntime {
  import opened Names
  import opened Decision
  import opened Policy
  import opened QuestionValue
  import opened ConditionCompiler
  import opened ConditionTyping
  import opened AnswerContract
  import opened PolicyCompiler
  import opened PolicyTheorems

  // ----- ValidateFacts -----

  /** Required facts present and typed, optional facts typed when present, and in a strict policy
      nothing undeclared. */
  predicate FactsAccepted(p: Compiled, facts: Facts) {
    && (forall n | n in p.requiredFacts :: n in facts && FactMatches(p.requiredFacts[n], facts[n]))
    && (forall n | n in p.optionalFacts && n in facts :: FactMatches(p.optionalFacts[n], facts[n]))
    && (p.strictInput ==> forall n | n in facts :: n in p.requiredFacts || n in p.optionalFacts)
  }

  /** Required facts, in sorted order: each present and of its type. */
  method ValidateRequiredFacts(p: Compiled, facts: Facts) returns (ok: bool)
    ensures ok <==> forall n | n in p.requiredFacts :: n in facts && FactMatches(p.requiredFacts[n], facts[n])
  {
    var names := SortedNames(p.requiredFacts.Keys);
    ok := true;
    for i := 0 to |names|
      invariant ok <==> forall j | 0 <= j < i :: names[j] in facts && FactMatches(p.requiredFacts[names[j]], facts[names[j]])
    {
      ok := ok && names[i] in facts && FactMatches(p.requiredFacts[names[i]], facts[names[i]]);
    }
    assert forall n | n in p.requiredFacts :: n in names;
  }

  /** Optional facts: each of its type when present. */
  method ValidateOptionalFacts(p: Compiled, facts: Facts) returns (ok: bool)
    ensures ok <==> forall n | n in p.optionalFacts && n in facts :: FactMatches(p.optionalFacts[n], facts[n])
  {
    var names := SortedNames(p.optionalFacts.Keys);
    ok := true;
    for i := 0 to |names|
      invariant ok <==> forall j | 0 <= j < i && names[j] in facts :: FactMatches(p.optionalFacts[names[j]], facts[names[j]])
    {
      ok := ok && (names[i] !in facts || FactMatches(p.optionalFacts[names[i]], facts[names[i]]));
    }
    assert forall n | n in p.optionalFacts :: n in names;
  }

  method ValidateFacts(p: Compiled, facts: Facts) returns (ok: bool)
    ensures ok <==> FactsAccepted(p, facts)
  {
    ok := ValidateRequiredFacts(p, facts);
    if ok {
      ok := ValidateOptionalFacts(p, facts);
    }
    if ok && p.strictInput {
      var names := SortedNames(facts.Keys);
      for i := 0 to |names|
        invariant ok <==> forall j | 0 <= j < i :: names[j] in p.requiredFacts || names[j] in p.optionalFacts
      {
        ok := ok && (names[i] in p.requiredFacts || names[i] in p.optionalFacts);
      }
      assert forall n | n in facts :: n in names;
    }
  }

  /** What a document says of one supplied fact: a text, a flag or a number where one is declared, and
      anything or nothing at all where none is, as the document is lax or strict. */
  ghost predicate FactFits(input: Input, n: Name, v: Value) {
    if n in input.requiredFacts then OfType(input.requiredFacts[n], v)
    else if n in input.optionalFacts then OfType(input.optionalFacts[n], v)
    else !input.strict
  }

  ghost predicate OfType(t: FactType, v: Value) {
    match t
    case StringFact => v.Text?
    case BooleanFact => v.Flag?
    case NumberFact => Numeric(v)
    case UnknownFact(_) => false
  }

  /** A compiled policy accepts exactly the facts its document asks for: every required name is
      there, and every fact that is there fits. */
  lemma FactsAcceptedExactly(doc: Document, env: Deployment, p: Compiled, facts: Facts)
    requires CompilesTo(doc, env, Ok(p))
    ensures FactsAccepted(p, facts) <==>
            && doc.input.requiredFacts.Keys <= facts.Keys
            && forall n | n in facts :: FactFits(doc.input, n, facts[n])
  {
    hide CompilesTo, FactsAccepted, FactFits;
    DeclaredByDocument(doc, env, p);
    AcceptedFactByFact(p, doc.input, facts);
  }

  lemma DeclaredByDocument(doc: Document, env: Deployment, p: Compiled)
    requires CompilesTo(doc, env, Ok(p))
    ensures p.requiredFacts == doc.input.requiredFacts && p.optionalFacts == doc.input.optionalFacts
    ensures p.strictInput == doc.input.strict && doc.input.requiredFacts.Keys !! doc.input.optionalFacts.Keys
  {
    hide MetadataLegal, OutcomesLegal, QuestionsLegal, AllResolved, RulesOutcome, FactTypesLegal;
    var questions :| AllResolved(doc.questions, questions) &&
                     RulesOutcome(doc, Declarations(DeclaredFacts(doc.input), questions), Ok(p));
    AssembledParts(doc, questions, p);
  }

  lemma AcceptedFactByFact(p: Compiled, input: Input, facts: Facts)
    requires p.requiredFacts == input.requiredFacts && p.optionalFacts == input.optionalFacts && p.strictInput == input.strict
    requires input.requiredFacts.Keys !! input.optionalFacts.Keys
    ensures FactsAccepted(p, facts) <==>
            input.requiredFacts.Keys <= facts.Keys && forall n | n in facts :: FactFits(input, n, facts[n])
  {
    TypesMatch();
    hide FactMatches, OfType;
    if FactsAccepted(p, facts) {
      forall n | n in facts ensures FactFits(input, n, facts[n]) {}
    }
    if input.requiredFacts.Keys <= facts.Keys && forall n | n in facts :: FactFits(input, n, facts[n]) {
      forall n | n in facts ensures FactFits(input, n, facts[n]) {}
    }
  }

  lemma TypesMatch()
    ensures forall t, v :: FactMatches(t, v) <==> OfType(t, v)
  {}

  // ----- Type soundness -----

  /** A leaf on this input either reads an optional fact the caller left out, or compares values of
      one scalar kind; an ordering compares numbers. */
  ghost predicate LeafSafe(p: Compiled, leaf: CompiledCondition, facts: Facts, answers: Answers)
    requires leaf.Leaf?
  {
    var left := ReadOperand(leaf.operand, facts, answers);
    match left
    case None => leaf.operand.FactOperand? && leaf.operand.fact in p.optionalFacts
    case Some(value) =>
      && KindOf(value) == ScalarOf(leaf.operand)
      && (leaf.op == In ==> forall v | v in leaf.rightList :: KindOf(v) == KindOf(value))
      && (leaf.op !in {In, Exists} ==> KindOf(leaf.rightScalar) == KindOf(value))
      && (IsOrdering(leaf.op) ==> KindOf(value) == NumberScalar)
  }

  ghost predicate TreeSafe(p: Compiled, c: CompiledCondition, facts: Facts, answers: Answers)
    decreases c
  {
    match c
    case AllOf(children) => forall i | 0 <= i < |children| :: TreeSafe(p, children[i], facts, answers)
    case AnyOf(children) => forall i | 0 <= i < |children| :: TreeSafe(p, children[i], facts, answers)
    case Not(child) => TreeSafe(p, child, facts, answers)
    case Leaf(_, _, _, _, _) => LeafSafe(p, c, facts, answers)
  }

  /** A conforming answer carries every part its question's type offers, with the right kind. */
  lemma AnswerPartPresent(q: CompiledQuestion, a: Answer, field: AnswerField, key: Name)
    requires AnswerFits(q, a) && AvailableOn(field, q.questionType)
    requires field == ProbabilityField ==> NamesPart(q, key)
    ensures field == ProbabilityField ==> Probability(a, key).Some? && KindOf(Probability(a, key).value) == NumberScalar
    ensures field != ProbabilityField ==>
              Field(a, field).Some? && KindOf(Field(a, field).value) == if field == ChoiceField then TextScalar else NumberScalar
  {
    hide IsDistribution, Itoa, Echoes;
  }

  lemma OperandSafe(p: Compiled, phase: Phase, operand: CompiledOperand, facts: Facts, answers: Answers)
    requires Sound(p) && FactsAccepted(p, facts) && TypedOperand(ScopeOf(p), phase, operand)
    requires phase == DecisionPhase ==> AnswersAccepted(p, answers)
    ensures match ReadOperand(operand, facts, answers)
            case None => operand.FactOperand? && operand.fact in p.optionalFacts
            case Some(value) => KindOf(value) == ScalarOf(operand)
  {
    hide RulesSound, QuestionFits, IsFactName, IsIdentifier, NoDuplicates, NamesPart, AnswerFits, AnswersAccepted, Field, Probability;
    if operand.AnswerOperand? {
      QuestionAnswered(p, answers, operand.question);
      var q := p.questions[operand.question];
      AnswerPartPresent(q, answers[operand.question], operand.field, operand.probabilityKey);
    }
  }

  lemma QuestionAnswered(p: Compiled, answers: Answers, id: Name)
    requires QuestionsFit(p) && AnswersAccepted(p, answers) && id in p.questions
    ensures id in answers && AnswerFits(p.questions[id], answers[id])
  {
    hide QuestionFits, AnswerFits, AnswerAccepted;
    AnswersExact(p, answers);
  }

  lemma LeafIsSafe(p: Compiled, phase: Phase, leaf: CompiledCondition, facts: Facts, answers: Answers)
    requires Sound(p) && FactsAccepted(p, facts) && leaf.Leaf? && TypedLeaf(ScopeOf(p), phase, leaf)
    requires phase == DecisionPhase ==> AnswersAccepted(p, answers)
    ensures LeafSafe(p, leaf, facts, answers)
  {
    hide Sound, FactsAccepted, AnswersAccepted, TypedOperand, ReadOperand, ScalarOf, KindOf;
    OperandSafe(p, phase, leaf.operand, facts, answers);
  }

  lemma {:induction false} TypedIsSafe(p: Compiled, phase: Phase, c: CompiledCondition, limit: int, facts: Facts, answers: Answers)
    requires Sound(p) && FactsAccepted(p, facts) && Typed(ScopeOf(p), phase, c, limit)
    requires phase == DecisionPhase ==> AnswersAccepted(p, answers)
    ensures TreeSafe(p, c, facts, answers)
    decreases c
  {
    hide Sound, FactsAccepted, AnswersAccepted, LeafSafe, TypedLeaf, ScopeOf;
    match c
    case AllOf(children) =>
      forall i | 0 <= i < |children| ensures TreeSafe(p, children[i], facts, answers) {
        TypedIsSafe(p, phase, children[i], limit - 1, facts, answers);
      }
    case AnyOf(children) =>
      forall i | 0 <= i < |children| ensures TreeSafe(p, children[i], facts, answers) {
        TypedIsSafe(p, phase, children[i], limit - 1, facts, answers);
      }
    case Not(child) => TypedIsSafe(p, phase, child, limit - 1, facts, answers);
    case Leaf(_, _, _, _, _) => LeafIsSafe(p, phase, c, facts, answers);
  }

  /** Type soundness: on facts and answers that pass validation, every condition of a sound policy
      only ever compares values of one kind. Pre-rules need no answers for it. */
  lemma RulesAreSafe(p: Compiled, facts: Facts, answers: Answers, rule: CompiledRule)
    requires Sound(p) && FactsAccepted(p, facts) && rule.condition.Some?
    ensures rule in p.preRules ==> TreeSafe(p, rule.condition.value, facts, map[])
    ensures rule in p.decisionRules && AnswersAccepted(p, answers) ==> TreeSafe(p, rule.condition.value, facts, answers)
  {
    hide Typed, NoDuplicates, Declared, QuestionsFit, FactsAccepted, AnswersAccepted, TreeSafe, ScopeOf;
    if rule in p.preRules {
      TypedIsSafe(p, PrePhase, rule.condition.value, MAX_CONDITION_DEPTH, facts, map[]);
    }
    if rule in p.decisionRules && AnswersAccepted(p, answers) {
      TypedIsSafe(p, DecisionPhase, rule.condition.value, MAX_CONDITION_DEPTH, facts, answers);
    }
  }

  /** On values of one scalar kind equality and order are what they should be: the comparison never
      answers false just because the kinds differ. */
  lemma SafeComparison(a: Value, b: Value)
    requires KindOf(a) == KindOf(b) != NoScalar
    ensures if KindOf(a) == NumberScalar then
              && (ScalarEqual(a, b) <==> a.number == b.number)
              && (CompareOrdered(a, b, Lt) <==> !CompareOrdered(a, b, Gte))
              && (CompareOrdered(a, b, Lte) <==> !CompareOrdered(a, b, Gt))
            else ScalarEqual(a, b) <==> a == b
  {}

  // ----- Non-interference -----

  /** The facts restricted to the names the policy declares. */
  function DeclaredPart(d: Declarations, facts: Facts): Facts {
    map n | n in facts && n in d.facts :: facts[n]
  }

  lemma LeafIgnoresRest(d: Declarations, phase: Phase, leaf: CompiledCondition, f: Facts, g: Facts, a: Answers, b: Answers)
    requires leaf.Leaf? && TypedLeaf(d, phase, leaf)
    requires DeclaredPart(d, f) == DeclaredPart(d, g) && (phase == DecisionPhase ==> a == b)
    ensures EvaluateLeaf(leaf, f, a) == EvaluateLeaf(leaf, g, b)
  {
    if leaf.operand.FactOperand? {
      var n := leaf.operand.fact;
      assert n in f <==> n in DeclaredPart(d, f);
      assert n in g <==> n in DeclaredPart(d, g);
    }
    assert ReadOperand(leaf.operand, f, a) == ReadOperand(leaf.operand, g, b);
    hide TypedLeaf, ReadOperand, DeclaredPart, ScalarEqual, CompareOrdered, AnyEqual;
  }

  /** A typed condition sees only the declared facts, and in the pre-rule phase no answers at all. */
  lemma {:induction false} ConditionIgnoresRest(d: Declarations, phase: Phase, c: CompiledCondition, limit: int,
                                                f: Facts, g: Facts, a: Answers, b: Answers)
    requires Typed(d, phase, c, limit)
    requires DeclaredPart(d, f) == DeclaredPart(d, g) && (phase == DecisionPhase ==> a == b)
    ensures Evaluate(c, f, a) == Evaluate(c, g, b)
    decreases c, 1
  {
    hide DeclaredPart, TypedLeaf;
    match c
    case AllOf(children) => ChildrenIgnoreRest(d, phase, children, limit - 1, f, g, a, b);
    case AnyOf(children) => ChildrenIgnoreRest(d, phase, children, limit - 1, f, g, a, b);
    case Not(child) => ConditionIgnoresRest(d, phase, child, limit - 1, f, g, a, b);
    case Leaf(_, _, _, _, _) => LeafIgnoresRest(d, phase, c, f, g, a, b);
  }

  lemma {:induction false} ChildrenIgnoreRest(d: Declarations, phase: Phase, children: seq<CompiledCondition>, limit: int,
                                              f: Facts, g: Facts, a: Answers, b: Answers)
    requires forall i | 0 <= i < |children| :: Typed(d, phase, children[i], limit)
    requires DeclaredPart(d, f) == DeclaredPart(d, g) && (phase == DecisionPhase ==> a == b)
    ensures EvaluateAll(children, f, a) == EvaluateAll(children, g, b)
    ensures EvaluateAny(children, f, a) == EvaluateAny(children, g, b)
    decreases children, 0
  {
    hide DeclaredPart, Typed, Evaluate;
    if children != [] {
      ConditionIgnoresRest(d, phase, children[0], limit, f, g, a, b);
      ChildrenIgnoreRest(d, phase, children[1..], limit, f, g, a, b);
    }
  }

  lemma {:induction false} FirstMatchIgnoresRest(d: Declarations, phase: Phase, rules: seq<CompiledRule>,
                                                 f: Facts, g: Facts, a: Answers, b: Answers)
    requires forall i | 0 <= i < |rules| && rules[i].condition.Some? :: Typed(d, phase, rules[i].condition.value, MAX_CONDITION_DEPTH)
    requires DeclaredPart(d, f) == DeclaredPart(d, g) && (phase == DecisionPhase ==> a == b)
    ensures FirstMatch(rules, f, a) == FirstMatch(rules, g, b)
  {
    hide DeclaredPart, Typed, Evaluate;
    if rules != [] {
      if rules[0].condition.Some? {
        ConditionIgnoresRest(d, phase, rules[0].condition.value, MAX_CONDITION_DEPTH, f, g, a, b);
      }
      FirstMatchIgnoresRest(d, phase, rules[1..], f, g, a, b);
    }
  }

  /** Non-interference: facts that agree on the declared names select the same outcome in both
      phases, and a pre-rule match would be the same whatever answers it were shown. */
  lemma OnlyDeclaredFactsMatter(p: Compiled, f: Facts, g: Facts, answers: Answers)
    requires Sound(p) && DeclaredPart(ScopeOf(p), f) == DeclaredPart(ScopeOf(p), g)
    ensures EvaluatePreRules(p, f) == EvaluatePreRules(p, g)
    ensures FirstMatch(p.preRules, f, answers) == FirstMatch(p.preRules, f, map[])
    ensures EvaluateDecisionRules(p, f, answers) == EvaluateDecisionRules(p, g, answers)
  {
    hide Typed, NoDuplicates, Declared, QuestionsFit, DeclaredPart, FirstMatch;
    FirstMatchIgnoresRest(ScopeOf(p), PrePhase, p.preRules, f, g, map[], map[]);
    FirstMatchIgnoresRest(ScopeOf(p), PrePhase, p.preRules, f, f, answers, map[]);
    FirstMatchIgnoresRest(ScopeOf(p), DecisionPhase, p.decisionRules, f, g, answers, answers);
  }

  // ----- Number representations -----

  /** Every fact is a text, a flag or a number a rule can compare. */
  predicate ScalarFacts(facts: Facts) {
    forall n | n in facts :: KindOf(facts[n]) != NoScalar
  }

  /** The same facts, whatever Go types hold their numbers. */
  ghost predicate SameFacts(f: Facts, g: Facts) {
    f.Keys == g.Keys && forall n | n in f :: SameValue(f[n], g[n])
  }

  lemma SameScalars(a: Value, b: Value)
    requires SameValue(a, b) && KindOf(a) != NoScalar && KindOf(b) != NoScalar
    ensures forall v :: ScalarEqual(a, v) <==> ScalarEqual(b, v)
    ensures forall v, op :: CompareOrdered(a, v, op) <==> CompareOrdered(b, v, op)
    ensures forall t :: FactMatches(t, a) <==> FactMatches(t, b)
  {}

  lemma {:induction false} SameCandidates(a: Value, b: Value, candidates: seq<Value>)
    requires forall v :: ScalarEqual(a, v) <==> ScalarEqual(b, v)
    ensures AnyEqual(a, candidates) <==> AnyEqual(b, candidates)
  {
    hide ScalarEqual;
    if candidates != [] {
      SameCandidates(a, b, candidates[1..]);
    }
  }

  lemma LeafIgnoresNumberTypes(leaf: CompiledCondition, f: Facts, g: Facts, answers: Answers)
    requires leaf.Leaf? && SameFacts(f, g) && ScalarFacts(f) && ScalarFacts(g)
    ensures EvaluateLeaf(leaf, f, answers) == EvaluateLeaf(leaf, g, answers)
  {
    hide ScalarEqual, CompareOrdered, SameValue, KindOf, AnyEqual;
    if leaf.operand.FactOperand? && leaf.operand.fact in f {
      var a, b := f[leaf.operand.fact], g[leaf.operand.fact];
      SameScalars(a, b);
      SameCandidates(a, b, leaf.rightList);
    }
  }

  /** A condition cannot see which Go types hold the numbers among the facts. */
  lemma {:induction false} ConditionIgnoresNumberTypes(c: CompiledCondition, f: Facts, g: Facts, answers: Answers)
    requires SameFacts(f, g) && ScalarFacts(f) && ScalarFacts(g)
    ensures Evaluate(c, f, answers) == Evaluate(c, g, answers)
    decreases c, 1
  {
    hide SameFacts, ScalarFacts, EvaluateLeaf;
    match c
    case AllOf(children) => ChildrenIgnoreNumberTypes(children, f, g, answers);
    case AnyOf(children) => ChildrenIgnoreNumberTypes(children, f, g, answers);
    case Not(child) => ConditionIgnoresNumberTypes(child, f, g, answers);
    case Leaf(_, _, _, _, _) => LeafIgnoresNumberTypes(c, f, g, answers);
  }

  lemma {:induction false} ChildrenIgnoreNumberTypes(children: seq<CompiledCondition>, f: Facts, g: Facts, answers: Answers)
    requires SameFacts(f, g) && ScalarFacts(f) && ScalarFacts(g)
    ensures EvaluateAll(children, f, answers) == EvaluateAll(children, g, answers)
    ensures EvaluateAny(children, f, answers) == EvaluateAny(children, g, answers)
    decreases children, 0
  {
    hide SameFacts, ScalarFacts, Evaluate;
    if children != [] {
      ConditionIgnoresNumberTypes(children[0], f, g, answers);
      ChildrenIgnoreNumberTypes(children[1..], f, g, answers);
    }
  }

  lemma {:induction false} FirstMatchIgnoresNumberTypes(rules: seq<CompiledRule>, f: Facts, g: Facts, answers: Answers)
    requires SameFacts(f, g) && ScalarFacts(f) && ScalarFacts(g)
    ensures FirstMatch(rules, f, answers) == FirstMatch(rules, g, answers)
  {
    hide SameFacts, ScalarFacts, Evaluate;
    if rules != [] {
      if rules[0].condition.Some? {
        ConditionIgnoresNumberTypes(rules[0].condition.value, f, g, answers);
      }
      FirstMatchIgnoresNumberTypes(rules[1..], f, g, answers);
    }
  }

  lemma AcceptanceIgnoresNumberTypes(p: Compiled, f: Facts, g: Facts)
    requires SameFacts(f, g) && ScalarFacts(f) && ScalarFacts(g)
    ensures FactsAccepted(p, f) == FactsAccepted(p, g)
  {
    hide SameValue, KindOf, FactMatches;
    forall n, t | n in f ensures FactMatches(t, f[n]) <==> FactMatches(t, g[n]) {
      SameScalars(f[n], g[n]);
    }
    assert forall n :: n in f <==> n in g;
  }

  /** Scalar facts that are the same up to the Go types of their numbers are accepted alike and
      select the same outcome in both phases. */
  lemma NumberTypesDoNotMatter(p: Compiled, f: Facts, g: Facts, answers: Answers)
    requires SameFacts(f, g) && ScalarFacts(f) && ScalarFacts(g)
    ensures FactsAccepted(p, f) == FactsAccepted(p, g)
    ensures EvaluatePreRules(p, f) == EvaluatePreRules(p, g)
    ensures EvaluateDecisionRules(p, f, answers) == EvaluateDecisionRules(p, g, answers)
  {
    hide SameFacts, ScalarFacts, FactsAccepted;
    AcceptanceIgnoresNumberTypes(p, f, g);
    FirstMatchIgnoresNumberTypes(p.preRules, f, g, map[]);
    FirstMatchIgnoresNumberTypes(p.decisionRules, f, g, answers);
  }

  // ----- Selections -----

  /** Every selection is a declared outcome, made by the least rule of its phase that matches, and
      the rule ID it names belongs to no other rule of either phase. */
  lemma SelectionIsDeclared(p: Compiled, facts: Facts, answers: Answers)
    requires Sound(p)
    ensures var s := EvaluatePreRules(p, facts);
            s.Some? ==> s.value.outcome in p.outcomes && s.value.path == PreRule && SelectedBy(p.preRules, s.value, facts, map[])
    ensures var s := EvaluateDecisionRules(p, facts, answers);
            && s.outcome in p.outcomes
            && match s.path
               case PreRule => false
               case DecisionRule => SelectedBy(p.decisionRules, s, facts, answers)
               case Default =>
                 && s.outcome == p.defaultOutcome && s.matchedRule == EMPTY
                 && forall i | 0 <= i < |p.decisionRules| :: !Matches(p.decisionRules[i], facts, answers)
  {
    hide Typed, Declared, QuestionsFit, Matches, FirstMatch, NoDuplicates, ScopeOf;
    FirstMatchIsLeast(p.preRules, facts, map[]);
    FirstMatchIsLeast(p.decisionRules, facts, answers);
  }

  ghost predicate SelectedBy(rules: seq<CompiledRule>, s: Selection, facts: Facts, answers: Answers) {
    exists i | 0 <= i < |rules| ::
      && rules[i].id == s.matchedRule && rules[i].outcome == s.outcome && Matches(rules[i], facts, answers)
      && forall j | 0 <= j < i :: !Matches(rules[j], facts, answers)
  }

  /** The work of evaluating one condition of a sound policy is bounded by its shape. */
  lemma EvaluationIsBounded(p: Compiled, rule: CompiledRule, facts: Facts, answers: Answers)
    requires Sound(p) && (rule in p.preRules || rule in p.decisionRules) && rule.condition.Some?
    ensures var c := rule.condition.value;
            && Leaves(c) <= Power(MAX_CONDITION_DEPTH) && Nodes(c) <= Geometric(MAX_CONDITION_DEPTH)
            && Comparisons(c, facts, answers) <= MAX_RIGHT_LIST_LENGTH * Leaves(c)
  {
    hide Typed, NoDuplicates, Declared, QuestionsFit, ScopeOf, Power, Geometric, Leaves, Nodes, Comparisons;
    var phase := if rule in p.preRules then PrePhase else DecisionPhase;
    TypedIsBounded(ScopeOf(p), phase, rule.condition.value, MAX_CONDITION_DEPTH, facts, answers);
  }
}
