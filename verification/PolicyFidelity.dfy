/** What of a document is in the policy it compiles to: all of it, within fixed limits. */
module PolicyFidelity {
  import opened Names
  import opened Decision
  import opened Policy
  import opened ConditionCompiler
  import opened QuestionValue
  import opened PolicyCompiler
  import opened PolicyTheorems

  // ----- Nothing is lost -----

  /** One compiled question against its source: same type, same instructions and criteria as values,
      the criteria in the member that belongs to the type. */
  ghost predicate QuestionKept(id: Name, q: Question, r: CompiledQuestion) {
    && r.id == id && r.questionType == q.questionType && SameValue(q.instructions, r.instructions)
    && match q.questionType
       case ChoiceQuestion =>
         SameValue(q.criteria, Object(r.choiceCriteria)) && r.scoreCriteria == [] && r.noulCriteria.None?
       case ScoreQuestion =>
         SameValue(q.criteria, List(r.scoreCriteria)) && r.choiceCriteria == map[] && r.noulCriteria.None?
       case NoulQuestion =>
         && r.choiceCriteria == map[] && r.scoreCriteria == []
         && SameValue(q.criteria, if r.noulCriteria.None? then Null else Object(r.noulCriteria.value))
       case UnknownQuestion(_) => false
  }

  /** One compiled rule against its source: it matches exactly when the source says so. */
  ghost predicate RuleKept(source: Rule, rule: CompiledRule) {
    && rule.id == source.id && rule.description == source.description && rule.outcome == source.outcome
    && (rule.condition.None? <==> source.when.None?)
    && forall facts, answers :: Matches(rule, facts, answers) <==> RuleMeans(source, facts, answers)
  }

  ghost predicate RulesKept(source: seq<Rule>, rules: seq<CompiledRule>) {
    |rules| == |source| && forall i | 0 <= i < |source| :: RuleKept(source[i], rules[i])
  }

  ghost predicate QuestionsKept(source: map<Name, Question>, p: Compiled) {
    && p.questions.Keys == source.Keys && IsListing(p.questionIDs, source.Keys)
    && forall id | id in source :: QuestionKept(id, source[id], p.questions[id])
  }

  ghost predicate DeclarationsKept(doc: Document, p: Compiled) {
    && p.name == doc.name && p.version == doc.version && p.description == doc.description && p.model == doc.model
    && p.outcomes == doc.outcomes && p.defaultOutcome == doc.defaultOutcome
    && p.requiredFacts == doc.input.requiredFacts && p.optionalFacts == doc.input.optionalFacts
    && p.strictInput == doc.input.strict
  }

  lemma ResolvedKeeps(id: Name, q: Question, r: CompiledQuestion, env: Deployment)
    requires QuestionLegal(id, q, env) && Resolved(id, q, r)
    ensures QuestionKept(id, q, r)
  {
    hide CriterionLegal, InstructionsLegal, IsListing, IsIdentifier, SameValue;
    NormalizedIsSameValue(q.instructions);
    NormalizedIsSameValue(q.criteria);
    CriteriaForm(q.criteria);
    hide Normalized, NormalizedFields, NormalizedItems;
  }

  lemma CriteriaForm(v: Value)
    ensures v.Null? ==> Normalized(v) == Null
    ensures v.Object? ==> Normalized(v) == Object(NormalizedFields(v.fields))
    ensures v.List? ==> Normalized(v) == List(NormalizedItems(v.items))
  {}

  lemma QuestionsAreKept(doc: Document, env: Deployment, p: Compiled)
    requires QuestionsLegal(doc, env) && AllResolved(doc.questions, p.questions) && IsListing(p.questionIDs, doc.questions.Keys)
    ensures QuestionsKept(doc.questions, p)
  {
    hide QuestionLegal, Resolved, QuestionKept, IsListing;
    forall id | id in doc.questions ensures QuestionKept(id, doc.questions[id], p.questions[id]) {
      ResolvedKeeps(id, doc.questions[id], p.questions[id], env);
    }
  }

  lemma RulesAreKept(d: Declarations, phase: Phase, source: seq<Rule>, rules: seq<CompiledRule>)
    requires |source| == |rules| && forall i | 0 <= i < |source| :: RuleFrom(d, phase, source[i], rules[i])
    ensures RulesKept(source, rules)
  {
    hide RuleMeans, Matches;
    forall i | 0 <= i < |source| ensures RuleKept(source[i], rules[i]) {
      forall facts, answers ensures Matches(rules[i], facts, answers) <==> RuleMeans(source[i], facts, answers) {
        RulePreserved(d, phase, source[i], rules[i], facts, answers);
      }
    }
  }

  /** A compiled policy keeps its document: every declaration as written, every question with its
      instructions and criteria, and every rule, in order, with its meaning. */
  lemma DocumentIsKept(doc: Document, env: Deployment, p: Compiled)
    requires CompilesTo(doc, env, Ok(p))
    ensures DeclarationsKept(doc, p) && QuestionsKept(doc.questions, p)
    ensures RulesKept(doc.preRules, p.preRules) && RulesKept(doc.decisionRules, p.decisionRules)
  {
    hide MetadataLegal, OutcomesLegal, FactsLegal, QuestionsLegal, AllResolved, IsListing, RulesOutcome, RuleFrom, RulesLegal, RulesSound, CompileRules, QuestionsKept, RulesKept;
    var questions :| AllResolved(doc.questions, questions) &&
                     RulesOutcome(doc, Declarations(DeclaredFacts(doc.input), questions), Ok(p));
    ResolvedIsDeclared(doc, questions, env);
    AssembledParts(doc, questions, p);
    PhaseExact(ScopeOf(p), OutcomeSet(doc), {}, doc.preRules, PrePhase);
    PhaseExact(ScopeOf(p), OutcomeSet(doc), RuleIDs(doc.preRules), doc.decisionRules, DecisionPhase);
    RulesAreKept(ScopeOf(p), PrePhase, doc.preRules, p.preRules);
    RulesAreKept(ScopeOf(p), DecisionPhase, doc.decisionRules, p.decisionRules);
    QuestionsAreKept(doc, env, p);
  }

  // ----- Limits -----

  ghost predicate QuestionWithinLimits(q: CompiledQuestion, env: Deployment) {
    && (q.instructions.Null? || env.encodedLength(q.instructions) <= 4096)
    && (q.questionType.ChoiceQuestion? ==> 2 <= |q.choiceCriteria| <= 255)
    && (q.questionType.ScoreQuestion? ==> 2 <= |q.scoreCriteria| <= 10)
    && (forall k | k in q.choiceCriteria :: IsIdentifier(k) && env.encodedLength(q.choiceCriteria[k]) <= 1024)
    && (forall v | v in q.scoreCriteria :: env.encodedLength(v) <= 1024)
    && (q.noulCriteria.Some? ==> forall k | k in q.noulCriteria.value ::
          k.text in {"true", "false"} && env.encodedLength(q.noulCriteria.value[k]) <= 1024)
  }

  ghost predicate DeclarationsWithinLimits(p: Compiled) {
    && 1 <= |p.version| <= 32 && |p.description| <= 512
    && 1 <= |p.outcomes| <= 32 && NoDuplicates(p.outcomes)
    && |p.requiredFacts| + |p.optionalFacts| <= 128
    && 1 <= |p.questions| <= 64 && |p.preRules| <= 128 && |p.decisionRules| <= 128
  }

  lemma QuestionIsWithinLimits(id: Name, q: Question, r: CompiledQuestion, env: Deployment)
    requires QuestionLegal(id, q, env) && Resolved(id, q, r)
    ensures QuestionWithinLimits(r, env)
  {
    hide IsListing, IsIdentifier, Size, HeightWithin, Normalized;
    if q.criteria.Object? {
      assert NormalizedFields(q.criteria.fields).Keys == q.criteria.fields.Keys;
    }
    InstructionsForm(q.instructions);
  }

  lemma InstructionsForm(v: Value)
    ensures v.Null? ==> Normalized(v) == Null
  {}

  /** Whatever was written, a compiled policy stays within the documented limits. */
  lemma CompiledIsWithinLimits(doc: Document, env: Deployment, p: Compiled)
    requires CompilesTo(doc, env, Ok(p))
    ensures DeclarationsWithinLimits(p) && forall id | id in p.questions :: QuestionWithinLimits(p.questions[id], env)
  {
    hide FactTypesLegal, AllResolved, IsListing, RulesOutcome, RulesSound, QuestionLegal, QuestionWithinLimits, IsDashedIdentifier, IsSpace;
    var questions :| AllResolved(doc.questions, questions) &&
                     RulesOutcome(doc, Declarations(DeclaredFacts(doc.input), questions), Ok(p));
    AssembledParts(doc, questions, p);
    AllWithinLimits(doc.questions, questions, env);
    RuleCounts(doc, env, p);
    hide MetadataLegal, CompilesTo;
  }

  lemma AllWithinLimits(source: map<Name, Question>, questions: map<Name, CompiledQuestion>, env: Deployment)
    requires AllResolved(source, questions) && forall id | id in source :: QuestionLegal(id, source[id], env)
    ensures |questions| == |source| && forall id | id in questions :: QuestionWithinLimits(questions[id], env)
  {
    hide QuestionLegal, Resolved, QuestionWithinLimits;
    assert |questions.Keys| == |source.Keys|;
    forall id | id in questions ensures QuestionWithinLimits(questions[id], env) {
      QuestionIsWithinLimits(id, source[id], questions[id], env);
    }
  }

  lemma RuleCounts(doc: Document, env: Deployment, p: Compiled)
    requires CompilesTo(doc, env, Ok(p))
    ensures |p.preRules| <= 128 && |p.decisionRules| <= 128
  {
    CompiledIsSound(doc, env, p);
    hide CompilesTo, RuleSound, NoDuplicates;
  }
}
