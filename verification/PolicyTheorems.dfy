/** What every compiled policy guarantees. */
module PolicyTheorems {
  import opened Names
  import opened Decision
  import opened Policy
  import opened ConditionCompiler
  import opened ConditionTyping
  import opened AnswerContract
  import opened PolicyCompiler

  function ScopeOf(p: Compiled): Declarations {
    Declarations(p.requiredFacts + p.optionalFacts, p.questions)
  }

  // ----- Rules -----

  ghost predicate RuleSound(d: Declarations, outcomes: set<Name>, rule: CompiledRule, phase: Phase) {
    && rule.outcome in outcomes
    && (rule.condition.Some? ==> Typed(d, phase, rule.condition.value, MAX_CONDITION_DEPTH))
  }

  ghost predicate RulesSound(d: Declarations, outcomes: set<Name>, rules: seq<CompiledRule>, phase: Phase) {
    && |rules| <= MAX_RULES
    && (forall i | 0 <= i < |rules| :: RuleSound(d, outcomes, rules[i], phase))
    && (forall i | 0 <= i < |rules| - 1 :: rules[i].condition.Some?)
  }

  function CompiledIDs(rules: seq<CompiledRule>): seq<Name> {
    seq(|rules|, i requires 0 <= i < |rules| => rules[i].id)
  }

  /** What a policy that compiled satisfies: its declarations are well formed, every rule is typed
      and selects a declared outcome, no rule hides behind an unconditional one, and rule IDs are
      unique across both phases. */
  ghost predicate Sound(p: Compiled) {
    var outcomes := set o | o in p.outcomes;
    && Declared(ScopeOf(p)) && QuestionsFit(p)
    && p.requiredFacts.Keys !! p.optionalFacts.Keys
    && p.defaultOutcome in outcomes
    && RulesSound(ScopeOf(p), outcomes, p.preRules, PrePhase)
    && RulesSound(ScopeOf(p), outcomes, p.decisionRules, DecisionPhase)
    && NoDuplicates(CompiledIDs(p.preRules) + CompiledIDs(p.decisionRules))
  }

  /** A list of source rules may compile: the same demands, said of the source. */
  ghost predicate RuleLegal(d: Declarations, outcomes: set<Name>, rule: Rule, phase: Phase) {
    && IsDashedIdentifier(rule.id) && |rule.description| <= MAX_DESCRIPTION_LENGTH && rule.outcome in outcomes
    && (rule.when.Some? ==> Legal(d, phase, rule.when.value) && WithinDepth(rule.when.value, MAX_CONDITION_DEPTH))
  }

  ghost predicate RulesLegal(d: Declarations, outcomes: set<Name>, taken: set<Name>, rules: seq<Rule>, phase: Phase) {
    && (forall i | 0 <= i < |rules| :: RuleLegal(d, outcomes, rules[i], phase) && rules[i].id !in taken)
    && (forall i, j | 0 <= i < j < |rules| :: rules[i].id != rules[j].id)
    && (forall i | 0 <= i < |rules| - 1 :: rules[i].when.Some?)
  }

  /** One compiled rule against its source. */
  ghost predicate RuleFrom(d: Declarations, phase: Phase, source: Rule, rule: CompiledRule) {
    && rule.id == source.id && rule.description == source.description && rule.outcome == source.outcome
    && (rule.condition.Some? <==> source.when.Some?)
    && (source.when.Some? ==> CompileCondition(d, phase, source.when.value, 0) == Ok(rule.condition.value))
  }

  lemma RuleExact(d: Declarations, outcomes: set<Name>, taken: set<Name>, rule: Rule, phase: Phase)
    requires Declared(d)
    ensures var r := CompileRule(d, outcomes, taken, rule, phase);
            && (r.Ok? <==> RuleLegal(d, outcomes, rule, phase) && rule.id !in taken)
            && (r.Ok? ==> RuleFrom(d, phase, rule, r.value) && RuleSound(d, outcomes, r.value, phase))
  {
    hide Declared, CompileCondition, Legal, WithinDepth, IsDashedIdentifier, Typed;
    if rule.when.Some? {
      AcceptsExactlyLegal(d, phase, rule.when.value, 0);
      if CompileCondition(d, phase, rule.when.value, 0).Ok? {
        CompiledIsTyped(d, phase, rule.when.value, 0);
      }
    }
  }

  /** A list of rules compiles exactly when it is legal, and each compiled rule comes from its
      source rule. */
  lemma {:induction false} RulesExact(d: Declarations, outcomes: set<Name>, taken: set<Name>, sealed: bool, rules: seq<Rule>, phase: Phase)
    requires Declared(d)
    ensures var r := CompileRulesFrom(d, outcomes, taken, sealed, rules, phase);
            && (r.Ok? <==> RulesLegal(d, outcomes, taken, rules, phase) && (sealed ==> rules == []))
            && (r.Ok? ==> |r.value| == |rules|)
            && (r.Ok? ==> forall i | 0 <= i < |rules| :: RuleFrom(d, phase, rules[i], r.value[i]) && RuleSound(d, outcomes, r.value[i], phase))
    decreases |rules|
  {
    hide Declared, CompileRule, RuleLegal, RuleSound;
    if rules != [] && !sealed {
      RuleExact(d, outcomes, taken, rules[0], phase);
      var first := CompileRule(d, outcomes, taken, rules[0], phase);
      if first.Ok? {
        RulesExact(d, outcomes, taken + {rules[0].id}, first.value.condition.None?, rules[1..], phase);
        LegalSplit(d, outcomes, taken, rules, phase);
        var rest := CompileRulesFrom(d, outcomes, taken + {rules[0].id}, first.value.condition.None?, rules[1..], phase);
        assert forall i | 0 < i < |rules| :: rules[i] == rules[1..][i - 1];
        hide RulesLegal;
      }
    }
  }

  lemma LegalSplit(d: Declarations, outcomes: set<Name>, taken: set<Name>, rules: seq<Rule>, phase: Phase)
    requires rules != []
    ensures RulesLegal(d, outcomes, taken, rules, phase) <==>
            && RuleLegal(d, outcomes, rules[0], phase) && rules[0].id !in taken
            && (rules[0].when.None? ==> rules[1..] == [])
            && RulesLegal(d, outcomes, taken + {rules[0].id}, rules[1..], phase)
  {
    hide RuleLegal;
    assert forall i | 0 < i < |rules| :: rules[i] == rules[1..][i - 1];
    if RulesLegal(d, outcomes, taken + {rules[0].id}, rules[1..], phase) {
      assert forall i | 0 <= i < |rules[1..]| :: rules[1..][i].id !in taken + {rules[0].id};
    }
  }

  /** One phase as a whole: what compiles, and what it compiles to. */
  lemma PhaseExact(d: Declarations, outcomes: set<Name>, taken: set<Name>, rules: seq<Rule>, phase: Phase)
    requires Declared(d)
    ensures var r := CompileRules(d, outcomes, taken, rules, phase);
            && (r.Ok? <==> |rules| <= MAX_RULES && RulesLegal(d, outcomes, taken, rules, phase))
            && (r.Ok? ==> |r.value| == |rules| && RulesSound(d, outcomes, r.value, phase))
            && (r.Ok? ==> forall i | 0 <= i < |rules| :: RuleFrom(d, phase, rules[i], r.value[i]))
  {
    RulesExact(d, outcomes, taken, false, rules, phase);
    hide CompileRulesFrom, RuleSound, Declared, RuleLegal;
    if CompileRules(d, outcomes, taken, rules, phase).Ok? {
      var compiled := CompileRules(d, outcomes, taken, rules, phase).value;
      assert forall i | 0 <= i < |rules| :: RuleFrom(d, phase, rules[i], compiled[i]);
    }
  }

  // ----- Which documents compile -----

  /** A legal document, relative to the compiled form of its questions. */
  ghost predicate DocumentLegal(doc: Document, env: Deployment, d: Declarations) {
    && doc.apiVersion == API_VERSION && doc.kind == KIND
    && MetadataLegal(doc) && OutcomesLegal(doc) && FactsLegal(doc.input) && QuestionsLegal(doc, env)
    && |doc.preRules| <= MAX_RULES && |doc.decisionRules| <= MAX_RULES
    && RulesLegal(d, OutcomeSet(doc), {}, doc.preRules, PrePhase)
    && RulesLegal(d, OutcomeSet(doc), RuleIDs(doc.preRules), doc.decisionRules, DecisionPhase)
  }

  lemma ResolvedIsDeclared(doc: Document, questions: map<Name, CompiledQuestion>, env: Deployment)
    requires FactsLegal(doc.input) && QuestionsLegal(doc, env) && AllResolved(doc.questions, questions)
    ensures Declared(Declarations(DeclaredFacts(doc.input), questions))
    ensures forall id | id in questions :: questions[id].id == id && QuestionFits(questions[id])
  {
    hide Resolved, QuestionFits, IsFactName, IsIdentifier, CriteriaLegal, QuestionLegal;
    forall id | id in questions ensures questions[id].id == id && QuestionFits(questions[id]) && IsIdentifier(id) {
      assert QuestionLegal(id, doc.questions[id], env);
      ResolvedKeepsID(id, doc.questions[id], questions[id]);
      ResolvedFits(id, doc.questions[id], questions[id], env);
      LegalIsIdentifier(id, doc.questions[id], env);
    }
  }

  lemma ResolvedKeepsID(id: Name, q: Question, r: CompiledQuestion)
    requires Resolved(id, q, r)
    ensures r.id == id
  {}

  lemma LegalIsIdentifier(id: Name, q: Question, env: Deployment)
    requires QuestionLegal(id, q, env)
    ensures IsIdentifier(id)
  {}

  /** A document compiles exactly when it is legal. */
  lemma CompilesExactlyLegal(doc: Document, env: Deployment, r: Result<Compiled>)
    requires CompilesTo(doc, env, r)
    ensures r.Ok? <==> exists questions ::
              AllResolved(doc.questions, questions) && DocumentLegal(doc, env, Declarations(DeclaredFacts(doc.input), questions))
  {
    hide MetadataLegal, OutcomesLegal, FactsLegal, QuestionsLegal, AllResolved, RulesLegal, Assembled, Declared;
    hide RulesOutcome;
    if StagesPass(doc, env) {
      var questions :| AllResolved(doc.questions, questions) &&
                       RulesOutcome(doc, Declarations(DeclaredFacts(doc.input), questions), r);
      BothPhasesExact(doc, questions, env, r);
      forall other | AllResolved(doc.questions, other) ensures other == questions {
        OneResolution(doc.questions, questions, other);
      }
    }
  }

  ghost predicate StagesPass(doc: Document, env: Deployment) {
    && doc.apiVersion == API_VERSION && doc.kind == KIND
    && MetadataLegal(doc) && OutcomesLegal(doc) && FactsLegal(doc.input) && QuestionsLegal(doc, env)
  }

  /** The compiled questions are determined by the document. */
  lemma OneResolution(source: map<Name, Question>, a: map<Name, CompiledQuestion>, b: map<Name, CompiledQuestion>)
    requires AllResolved(source, a) && AllResolved(source, b)
    ensures a == b
  {
    hide IsListing;
    forall id | id in source ensures a[id] == b[id] {
      OneListing(a[id].choiceKeys, b[id].choiceKeys, a[id].choiceCriteria.Keys);
    }
    assert a.Keys == b.Keys;
  }

  lemma BothPhasesExact(doc: Document, questions: map<Name, CompiledQuestion>, env: Deployment, r: Result<Compiled>)
    requires StagesPass(doc, env) && AllResolved(doc.questions, questions)
    requires RulesOutcome(doc, Declarations(DeclaredFacts(doc.input), questions), r)
    ensures r.Ok? <==> DocumentLegal(doc, env, Declarations(DeclaredFacts(doc.input), questions))
  {
    var d := Declarations(DeclaredFacts(doc.input), questions);
    ResolvedIsDeclared(doc, questions, env);
    hide MetadataLegal, OutcomesLegal, FactsLegal, QuestionsLegal, AllResolved, RulesLegal, Assembled, Declared, CompileRules, RulesSound, RuleFrom, OutcomeSet, RuleIDs, DeclaredFacts;
    PhaseExact(d, OutcomeSet(doc), {}, doc.preRules, PrePhase);
    PhaseExact(d, OutcomeSet(doc), RuleIDs(doc.preRules), doc.decisionRules, DecisionPhase);
  }

  // ----- Compiled policies are sound -----

  lemma CompiledIsSound(doc: Document, env: Deployment, p: Compiled)
    requires CompilesTo(doc, env, Ok(p))
    ensures Sound(p)
  {
    hide MetadataLegal, OutcomesLegal, FactsLegal, QuestionsLegal, AllResolved, RulesLegal, Declared, RulesOutcome, RulesSound, QuestionsFit, NoDuplicates;
    var questions :| AllResolved(doc.questions, questions) &&
                     RulesOutcome(doc, Declarations(DeclaredFacts(doc.input), questions), Ok(p));
    ResolvedIsDeclared(doc, questions, env);
    AssembledParts(doc, questions, p);
    AssembledDeclarations(doc, env, p);
    PhasesAreSound(doc, questions, p);
  }

  lemma AssembledParts(doc: Document, questions: map<Name, CompiledQuestion>, p: Compiled)
    requires RulesOutcome(doc, Declarations(DeclaredFacts(doc.input), questions), Ok(p))
    ensures Assembled(doc, p) && p.questions == questions && ScopeOf(p) == Declarations(DeclaredFacts(doc.input), questions)
    ensures CompileRules(ScopeOf(p), OutcomeSet(doc), {}, doc.preRules, PrePhase) == Ok(p.preRules)
    ensures CompileRules(ScopeOf(p), OutcomeSet(doc), RuleIDs(doc.preRules), doc.decisionRules, DecisionPhase) == Ok(p.decisionRules)
  {
    hide CompileRules, AllResolved, IsListing;
  }

  lemma AssembledDeclarations(doc: Document, env: Deployment, p: Compiled)
    requires Assembled(doc, p) && StagesPass(doc, env)
    ensures p.requiredFacts.Keys !! p.optionalFacts.Keys && p.defaultOutcome in p.outcomes && QuestionsFit(p)
  {
    ResolvedIsDeclared(doc, p.questions, env);
    hide Resolved, IsListing, QuestionFits, QuestionLegal, IsFactName, IsDashedIdentifier, MetadataLegal;
  }

  lemma PhasesAreSound(doc: Document, questions: map<Name, CompiledQuestion>, p: Compiled)
    requires Declared(ScopeOf(p)) && p.outcomes == doc.outcomes
    requires CompileRules(ScopeOf(p), OutcomeSet(doc), {}, doc.preRules, PrePhase) == Ok(p.preRules)
    requires CompileRules(ScopeOf(p), OutcomeSet(doc), RuleIDs(doc.preRules), doc.decisionRules, DecisionPhase) == Ok(p.decisionRules)
    ensures RulesSound(ScopeOf(p), (set o | o in p.outcomes), p.preRules, PrePhase)
    ensures RulesSound(ScopeOf(p), (set o | o in p.outcomes), p.decisionRules, DecisionPhase)
    ensures NoDuplicates(CompiledIDs(p.preRules) + CompiledIDs(p.decisionRules))
  {
    var d := ScopeOf(p);
    hide CompileRules, Declared, ScopeOf, RulesSound, RuleFrom, RulesLegal, NoDuplicates;
    PhaseExact(d, OutcomeSet(doc), {}, doc.preRules, PrePhase);
    PhaseExact(d, OutcomeSet(doc), RuleIDs(doc.preRules), doc.decisionRules, DecisionPhase);
    assert OutcomeSet(doc) == set o | o in p.outcomes;
    IDsAreDistinct(d, OutcomeSet(doc), doc, p);
  }

  lemma IDsAreDistinct(d: Declarations, outcomes: set<Name>, doc: Document, p: Compiled)
    requires RulesLegal(d, outcomes, {}, doc.preRules, PrePhase)
    requires RulesLegal(d, outcomes, RuleIDs(doc.preRules), doc.decisionRules, DecisionPhase)
    requires |p.preRules| == |doc.preRules| && |p.decisionRules| == |doc.decisionRules|
    requires forall i | 0 <= i < |doc.preRules| :: RuleFrom(d, PrePhase, doc.preRules[i], p.preRules[i])
    requires forall i | 0 <= i < |doc.decisionRules| :: RuleFrom(d, DecisionPhase, doc.decisionRules[i], p.decisionRules[i])
    ensures NoDuplicates(CompiledIDs(p.preRules) + CompiledIDs(p.decisionRules))
  {
    hide RuleLegal;
    assert forall i | 0 <= i < |doc.preRules| :: doc.preRules[i].id in RuleIDs(doc.preRules);
    assert forall i | 0 <= i < |doc.preRules| :: p.preRules[i].id == doc.preRules[i].id;
    assert forall i | 0 <= i < |doc.decisionRules| :: p.decisionRules[i].id == doc.decisionRules[i].id;
    hide RuleFrom, RuleIDs;
  }

  // ----- Selecting an outcome means what the document says -----

  ghost predicate RuleMeans(rule: Rule, facts: Facts, answers: Answers) {
    rule.when.None? || Means(rule.when.value, facts, answers)
  }

  /** The first rule of the document whose condition holds. */
  ghost function FirstMeant(rules: seq<Rule>, facts: Facts, answers: Answers): Option<Rule> {
    if rules == [] then None
    else if RuleMeans(rules[0], facts, answers) then Some(rules[0])
    else FirstMeant(rules[1..], facts, answers)
  }

  lemma RulePreserved(d: Declarations, phase: Phase, source: Rule, rule: CompiledRule, facts: Facts, answers: Answers)
    requires RuleFrom(d, phase, source, rule)
    ensures Matches(rule, facts, answers) <==> RuleMeans(source, facts, answers)
  {
    if source.when.Some? {
      MeaningPreserved(d, phase, source.when.value, 0, facts, answers);
    }
  }

  lemma {:induction false} FirstPreserved(d: Declarations, phase: Phase, source: seq<Rule>, rules: seq<CompiledRule>, facts: Facts, answers: Answers)
    requires |source| == |rules| && forall i | 0 <= i < |source| :: RuleFrom(d, phase, source[i], rules[i])
    ensures var meant, matched := FirstMeant(source, facts, answers), FirstMatch(rules, facts, answers);
            && (meant.Some? <==> matched.Some?)
            && (meant.Some? ==> matched.value.id == meant.value.id && matched.value.outcome == meant.value.outcome)
  {
    hide RuleMeans, Matches;
    if source != [] {
      RulePreserved(d, phase, source[0], rules[0], facts, answers);
      FirstPreserved(d, phase, source[1..], rules[1..], facts, answers);
    }
  }

  /** For every document that compiles, both phases select what the first rule of the document that
      holds says, the default outcome when no decision rule holds. */
  lemma SelectionIsMeant(doc: Document, env: Deployment, p: Compiled, facts: Facts, answers: Answers)
    requires CompilesTo(doc, env, Ok(p))
    ensures var meant := FirstMeant(doc.preRules, facts, map[]);
            EvaluatePreRules(p, facts) ==
            if meant.None? then None else Some(Selection(meant.value.outcome, meant.value.id, PreRule))
    ensures var meant := FirstMeant(doc.decisionRules, facts, answers);
            EvaluateDecisionRules(p, facts, answers) ==
            if meant.None? then Selection(doc.defaultOutcome, EMPTY, Default)
            else Selection(meant.value.outcome, meant.value.id, DecisionRule)
  {
    hide MetadataLegal, OutcomesLegal, FactsLegal, QuestionsLegal, AllResolved, RulesLegal, Declared, RulesOutcome, RuleFrom, RulesSound, FirstMeant, FirstMatch, CompileRules;
    var questions :| AllResolved(doc.questions, questions) &&
                     RulesOutcome(doc, Declarations(DeclaredFacts(doc.input), questions), Ok(p));
    ResolvedIsDeclared(doc, questions, env);
    AssembledParts(doc, questions, p);
    PhaseExact(ScopeOf(p), OutcomeSet(doc), {}, doc.preRules, PrePhase);
    PhaseExact(ScopeOf(p), OutcomeSet(doc), RuleIDs(doc.preRules), doc.decisionRules, DecisionPhase);
    FirstPreserved(ScopeOf(p), PrePhase, doc.preRules, p.preRules, facts, map[]);
    FirstPreserved(ScopeOf(p), DecisionPhase, doc.decisionRules, p.decisionRules, facts, answers);
  }
}
