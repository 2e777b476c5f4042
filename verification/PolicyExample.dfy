/** A small policy, compiled and evaluated: what the theorems assume of policies and requests is met
    by a real one. */
module PolicyExample {
  import opened Names
  import opened Decision
  import opened Policy
  import opened ConditionCompiler
  import opened PolicyCompiler
  import opened PolicyTheorems
  import opened PolicyRuntime
  import opened Evaluation
  import opened Idempotency
  import opened IdempotencyCounterexamples

  const RISK := Name("r")
  const ASK := Name("q")
  const ALLOW := Name("a")
  const BLOCK := Name("b")
  const GATE_NAME := Name("g")
  const LOW := Name("l")

  /** risk < 3, with the 3 written as a YAML integer. */
  const LOW_RISK := Condition([], [], None, Some(Operand(RISK, EMPTY, NoField, EMPTY)), Lt, Number(Int, 3.0))

  const GATE := Document(
    API_VERSION, KIND, GATE_NAME, "1", "", "", [ALLOW, BLOCK], BLOCK,
    Input(map[RISK := NumberFact], map[], false),
    [Rule(LOW, "", Some(LOW_RISK), ALLOW)],
    map[ASK := Question(NoulQuestion, Null, Null)],
    [])

  const COMPILED_ASK := CompiledQuestion(ASK, NoulQuestion, Null, None, map[], [], [])

  const COMPILED_LOW_RISK := Leaf(FactOperand(RISK, NumberFact), Lt, Float(3.0), [], false)

  const COMPILED_GATE := Compiled(
    GATE_NAME, "1", "", "", [ALLOW, BLOCK], BLOCK, map[RISK := NumberFact], map[], false,
    map[ASK := COMPILED_ASK], [ASK],
    [CompiledRule(LOW, "", Some(COMPILED_LOW_RISK), ALLOW)], [])

  lemma OneLetter(n: Name)
    requires |n.text| == 1 && Letter(n.text[0])
    ensures IsFactName(n) && IsIdentifier(n) && IsDashedIdentifier(n) && n != EMPTY
  {}

  lemma NamesAreLegal()
    ensures IsFactName(RISK) && IsIdentifier(ASK) && RISK != EMPTY
    ensures IsDashedIdentifier(ALLOW) && IsDashedIdentifier(BLOCK) && IsDashedIdentifier(GATE_NAME) && IsDashedIdentifier(LOW)
    ensures ALLOW != BLOCK
  {
    OneLetter(RISK);
    OneLetter(ASK);
    OneLetter(ALLOW);
    OneLetter(BLOCK);
    OneLetter(GATE_NAME);
    OneLetter(LOW);
    assert ALLOW.text[0] == 'a' && BLOCK.text[0] == 'b';
  }

  lemma StagesPassHere(env: Deployment)
    ensures StagesPass(GATE, env)
  {
    NamesAreLegal();
    hide IsFactName, IsIdentifier, IsDashedIdentifier;
  }

  lemma ConditionCompiles(d: Declarations)
    requires d.facts == map[RISK := NumberFact]
    ensures CompileCondition(d, PrePhase, LOW_RISK, 0) == Ok(COMPILED_LOW_RISK)
  {
    NamesAreLegal();
    hide IsFactName, IsIdentifier, IsDashedIdentifier;
    assert ResolveOperand(d, PrePhase, LOW_RISK.left.value) == Ok(FactOperand(RISK, NumberFact));
  }

  lemma RuleCompiles(d: Declarations)
    requires d.facts == map[RISK := NumberFact]
    ensures CompileRule(d, {ALLOW, BLOCK}, {}, GATE.preRules[0], PrePhase) == Ok(COMPILED_GATE.preRules[0])
  {
    NamesAreLegal();
    hide IsFactName, IsIdentifier, IsDashedIdentifier, CompileCondition;
    ConditionCompiles(d);
  }

  lemma RulesCompile(d: Declarations)
    requires d.facts == map[RISK := NumberFact]
    ensures CompileRules(d, {ALLOW, BLOCK}, {}, GATE.preRules, PrePhase) == Ok(COMPILED_GATE.preRules)
    ensures CompileRules(d, {ALLOW, BLOCK}, RuleIDs(GATE.preRules), GATE.decisionRules, DecisionPhase) == Ok([])
  {
    hide CompileRule;
    RuleCompiles(d);
    assert GATE.preRules[1..] == [];
    assert [COMPILED_GATE.preRules[0]] + [] == COMPILED_GATE.preRules;
    var taken := {GATE.preRules[0].id};
    assert {} + taken == taken;
    assert CompileRulesFrom(d, {ALLOW, BLOCK}, taken, false, [], PrePhase) == Ok([]);
  }

  lemma QuestionsResolve()
    ensures AllResolved(GATE.questions, COMPILED_GATE.questions) && IsListing([ASK], GATE.questions.Keys)
    ensures OutcomeSet(GATE) == {ALLOW, BLOCK} && DeclaredFacts(GATE.input) == map[RISK := NumberFact]
  {}

  /** The document compiles, to this policy. */
  lemma GateCompiles(env: Deployment)
    ensures CompilesTo(GATE, env, Ok(COMPILED_GATE)) && Sound(COMPILED_GATE)
  {
    hide MetadataLegal, OutcomesLegal, FactsLegal, QuestionsLegal, AllResolved, IsListing, CompileRules, Sound, OutcomeSet, DeclaredFacts;
    StagesPassHere(env);
    QuestionsResolve();
    var d := Declarations(DeclaredFacts(GATE.input), COMPILED_GATE.questions);
    RulesCompile(d);
    assert RulesOutcome(GATE, d, Ok(COMPILED_GATE));
    hide RulesOutcome;
    CompiledIsSound(GATE, env, COMPILED_GATE);
  }

  /** A low risk is allowed without asking the provider; the request can be decided, so the runs in
      which repeating it fails exist. */
  lemma LowRiskIsAllowed(key: Name, reply: Reply) returns (r: Request)
    requires key != EMPTY
    ensures r.key == key && Decidable(r, reply)
    ensures DecisionOf(r.policy, r.facts, reply) ==
            Recorded(Verdict(Completed, ALLOW, LOW, Some(PreRule), None, None, None))
  {
    hide Sound, CompilesTo, IsFactName;
    NamesAreLegal();
    GateCompiles(Deployment(0, v => 0));
    var facts: Facts := map[RISK := Float(1.0)];
    r := Request(key, COMPILED_GATE, Null, facts, map[]);
    PreRuleMatches(facts);
    hide EvaluatePreRules;
  }

  lemma PreRuleMatches(facts: Facts)
    requires facts == map[RISK := Float(1.0)]
    ensures FactsAccepted(COMPILED_GATE, facts)
    ensures EvaluatePreRules(COMPILED_GATE, facts) == Some(Selection(ALLOW, LOW, PreRule))
  {
    assert Evaluate(COMPILED_LOW_RISK, facts, map[]);
  }
}
