/** Compiling a policy document, stage by stage: identity, metadata, outcomes, facts, questions and
    the two rule lists. */
module PolicyCompiler {
  import opened Names
  import opened Decision
  import opened Policy
  import opened ConditionCompiler
  import opened ConditionTyping
  import opened QuestionValue

  const API_VERSION := Name("vibecheck.psyb0t.dev/v1alpha1")
  const KIND := Name("DecisionPolicy")

  // ----- What each stage demands -----

  predicate IsSpace(c: char) {
    c in {' ', '\t', '\n', '\r', '\U{0B}', '\U{0C}', '\U{85}', '\U{A0}', '\U{1680}', '\U{2028}', '\U{2029}',
          '\U{202F}', '\U{205F}', '\U{3000}'} || '\U{2000}' <= c <= '\U{200A}'
  }

  /** A dashed name, a version of at most 32 characters with no space at either end, a short enough
      description. */
  ghost predicate MetadataLegal(doc: Document) {
    && IsDashedIdentifier(doc.name)
    && 0 < |doc.version| <= MAX_VERSION_LENGTH && !IsSpace(doc.version[0]) && !IsSpace(doc.version[|doc.version| - 1])
    && |doc.description| <= MAX_DESCRIPTION_LENGTH
  }

  function TrimLeft(s: string): string {
    if s != [] && IsSpace(s[0]) then TrimLeft(s[1..]) else s
  }

  function TrimRight(s: string): string {
    if s != [] && IsSpace(s[|s| - 1]) then TrimRight(s[..|s| - 1]) else s
  }

  /** strings.TrimSpace. */
  function TrimSpace(s: string): string {
    TrimRight(TrimLeft(s))
  }

  lemma {:induction false} TrimShortens(s: string)
    ensures |TrimLeft(s)| <= |s| && |TrimRight(s)| <= |s|
    decreases |s|
  {
    if s != [] {
      TrimShortens(s[1..]);
      TrimShortens(s[..|s| - 1]);
    }
  }

  /** Trimming changes nothing exactly when neither end is a space. */
  lemma TrimmedExactly(s: string)
    ensures TrimSpace(s) == s <==> s == [] || (!IsSpace(s[0]) && !IsSpace(s[|s| - 1]))
  {
    hide IsSpace;
    if s != [] {
      TrimShortens(s[1..]);
      TrimShortens(s[..|s| - 1]);
      TrimShortens(TrimLeft(s));
    }
  }

  method CompileMetadata(doc: Document) returns (error: Option<Error>)
    ensures error == if MetadataLegal(doc) then None else Some(InvalidMetadata)
  {
    TrimmedExactly(doc.version);
    hide IsSpace, IsDashedIdentifier, TrimSpace;
    error := None;
    if !IsDashedIdentifier(doc.name) {
      error := Some(InvalidMetadata);
    } else if doc.version == "" || |doc.version| > MAX_VERSION_LENGTH {
      error := Some(InvalidMetadata);
    } else if TrimSpace(doc.version) != doc.version {
      error := Some(InvalidMetadata);
    } else if |doc.description| > MAX_DESCRIPTION_LENGTH {
      error := Some(InvalidMetadata);
    }
  }

  ghost predicate OutcomesLegal(doc: Document) {
    && 0 < |doc.outcomes| <= MAX_OUTCOMES
    && (forall o | o in doc.outcomes :: IsDashedIdentifier(o))
    && NoDuplicates(doc.outcomes)
    && doc.defaultOutcome in doc.outcomes
  }

  ghost predicate FactTypesLegal(facts: map<Name, FactType>) {
    forall n | n in facts :: IsFactName(n) && !facts[n].UnknownFact?
  }

  ghost predicate FactsLegal(input: Input) {
    && |input.requiredFacts| + |input.optionalFacts| <= MAX_REQUIRED_FACTS
    && FactTypesLegal(input.requiredFacts) && FactTypesLegal(input.optionalFacts)
    && input.requiredFacts.Keys !! input.optionalFacts.Keys
  }

  /** What a compilation is given besides the document: the deployment's question ceiling, and how
      many bytes encoding/json makes of a value. */
  datatype Deployment = Deployment(maxQuestions: int, encodedLength: Value -> nat)

  ghost predicate InstructionsLegal(raw: Value, env: Deployment) {
    raw.Null? || (Normalizable(raw, false) && env.encodedLength(Normalized(raw)) <= MAX_INSTRUCTIONS_LENGTH)
  }

  /** One option description, level or noul criterion. */
  ghost predicate CriterionLegal(raw: Value, allowNull: bool, env: Deployment) {
    Normalizable(raw, allowNull) && env.encodedLength(Normalized(raw)) <= MAX_CRITERIA_TEXT_LENGTH
  }

  /** Criteria by type: none or true/false for a noul, two to 255 options for a choice, two to ten
      levels for a score. */
  ghost predicate CriteriaLegal(t: QuestionType, criteria: Value, env: Deployment) {
    match t
    case NoulQuestion =>
      || criteria.Null?
      || (criteria.Object? && forall k | k in criteria.fields ::
            k in {Name("true"), Name("false")} && CriterionLegal(criteria.fields[k], true, env))
    case ChoiceQuestion =>
      && criteria.Object? && MIN_CHOICE_CRITERIA <= |criteria.fields| <= MAX_CHOICE_CRITERIA
      && forall k | k in criteria.fields :: IsIdentifier(k) && CriterionLegal(criteria.fields[k], true, env)
    case ScoreQuestion =>
      && criteria.List? && MIN_SCORE_CRITERIA <= |criteria.items| <= MAX_SCORE_CRITERIA
      && forall i | 0 <= i < |criteria.items| :: CriterionLegal(criteria.items[i], false, env)
    case UnknownQuestion(_) => false
  }

  ghost predicate QuestionLegal(id: Name, q: Question, env: Deployment) {
    IsIdentifier(id) && InstructionsLegal(q.instructions, env) && CriteriaLegal(q.questionType, q.criteria, env)
  }

  function NormalizedFields(fields: map<Name, Value>): map<Name, Value> {
    map k | k in fields :: Normalized(fields[k])
  }

  function NormalizedItems(items: seq<Value>): seq<Value> {
    seq(|items|, i requires 0 <= i < |items| => Normalized(items[i]))
  }

  /** The compiled form of a legal question. */
  ghost predicate Resolved(id: Name, q: Question, r: CompiledQuestion) {
    && r.id == id && r.questionType == q.questionType && r.instructions == Normalized(q.instructions)
    && r.noulCriteria == (if q.questionType.NoulQuestion? && q.criteria.Object?
                          then Some(NormalizedFields(q.criteria.fields)) else None)
    && r.choiceCriteria == (if q.questionType.ChoiceQuestion? && q.criteria.Object?
                            then NormalizedFields(q.criteria.fields) else map[])
    && IsListing(r.choiceKeys, r.choiceCriteria.Keys)
    && r.scoreCriteria == (if q.questionType.ScoreQuestion? && q.criteria.List?
                           then NormalizedItems(q.criteria.items) else [])
  }

  lemma ResolvedFits(id: Name, q: Question, r: CompiledQuestion, env: Deployment)
    requires QuestionLegal(id, q, env) && Resolved(id, q, r)
    ensures QuestionFits(r)
  {
    hide CriterionLegal, InstructionsLegal, IsListing, IsIdentifier, Normalized;
  }

  function QuestionLimit(maxQuestions: int): nat {
    if maxQuestions <= 0 || maxQuestions > MAX_QUESTIONS then MAX_QUESTIONS else maxQuestions
  }

  /** A deployment may lower the ceiling of 64 questions, not raise it. */
  lemma QuestionLimitExactly(n: nat, maxQuestions: int)
    ensures n <= QuestionLimit(maxQuestions) <==> n <= 64 && (maxQuestions > 0 ==> n <= maxQuestions)
  {}

  ghost predicate QuestionsLegal(doc: Document, env: Deployment) {
    && 0 < |doc.questions| <= QuestionLimit(env.maxQuestions)
    && forall id | id in doc.questions :: QuestionLegal(id, doc.questions[id], env)
  }

  // ----- Rules -----

  function CompileRule(d: Declarations, outcomes: set<Name>, taken: set<Name>, rule: Rule, phase: Phase): Result<CompiledRule> {
    if !IsDashedIdentifier(rule.id) || rule.id in taken then Err(InvalidRule)
    else if |rule.description| > MAX_DESCRIPTION_LENGTH then Err(InvalidRule)
    else if rule.outcome !in outcomes then Err(InvalidOutcome)
    else if rule.when.None? then Ok(CompiledRule(rule.id, rule.description, None, rule.outcome))
    else
      match CompileCondition(d, phase, rule.when.value, 0)
      case Err(error) => Err(error)
      case Ok(condition) => Ok(CompiledRule(rule.id, rule.description, Some(condition), rule.outcome))
  }

  /** The rules from some point on, with the rule IDs taken so far and whether an unconditional
      rule came before. */
  function CompileRulesFrom(d: Declarations, outcomes: set<Name>, taken: set<Name>, sealed: bool, rules: seq<Rule>, phase: Phase): Result<seq<CompiledRule>>
    decreases |rules|
  {
    if rules == [] then Ok([])
    else if sealed then Err(InvalidRule)
    else
      match CompileRule(d, outcomes, taken, rules[0], phase)
      case Err(error) => Err(error)
      case Ok(rule) =>
        match CompileRulesFrom(d, outcomes, taken + {rules[0].id}, rule.condition.None?, rules[1..], phase)
        case Err(error) => Err(error)
        case Ok(rest) => Ok([rule] + rest)
  }

  function CompileRules(d: Declarations, outcomes: set<Name>, taken: set<Name>, rules: seq<Rule>, phase: Phase): Result<seq<CompiledRule>> {
    if |rules| > MAX_RULES then Err(InvalidRule) else CompileRulesFrom(d, outcomes, taken, false, rules, phase)
  }

  function RuleIDs(rules: seq<Rule>): set<Name> {
    set r | r in rules :: r.id
  }

  function Prefixed<T>(done: seq<T>, rest: Result<seq<T>>): Result<seq<T>> {
    match rest
    case Err(error) => Err(error)
    case Ok(values) => Ok(done + values)
  }

  // ----- Questions -----

  method CompileInstructions(raw: Value, env: Deployment) returns (r: Result<Value>)
    ensures r.Ok? <==> InstructionsLegal(raw, env)
    ensures r.Ok? ==> r.value == Normalized(raw)
    ensures r.Err? ==> r.error == InvalidQuestion
  {
    hide Normalizable;
    if raw.Null? {
      r := Ok(Null);
    } else {
      r := NormalizeQuestionValue(raw, false);
      if r.Ok? && env.encodedLength(r.value) > MAX_INSTRUCTIONS_LENGTH {
        r := Err(InvalidQuestion);
      }
    }
  }

  method CompileCriteriaValue(raw: Value, allowNull: bool, env: Deployment) returns (r: Result<Value>)
    ensures r.Ok? <==> CriterionLegal(raw, allowNull, env)
    ensures r.Ok? ==> r.value == Normalized(raw)
    ensures r.Err? ==> r.error == InvalidQuestion
  {
    hide Normalizable, Normalized;
    r := NormalizeQuestionValue(raw, allowNull);
    if r.Ok? && env.encodedLength(r.value) > MAX_CRITERIA_TEXT_LENGTH {
      r := Err(InvalidQuestion);
    }
  }

  /** The shared loop over sorted criteria keys, each of which must satisfy the given grammar. */
  method CompileFields(source: map<Name, Value>, option: bool, env: Deployment) returns (r: Result<map<Name, Value>>, keys: seq<Name>)
    ensures r.Ok? <==> forall k | k in source :: KeyLegal(k, option) && CriterionLegal(source[k], true, env)
    ensures r.Ok? ==> r.value == NormalizedFields(source)
    ensures r.Err? ==> r.error == InvalidQuestion
    ensures IsListing(keys, source.Keys)
  {
    keys := SortedNames(source.Keys);
    var criteria: map<Name, Value> := map[];
    r := Ok(criteria);
    var i := 0;
    hide IsIdentifier, CriterionLegal, Normalized, Ascending;
    while i < |keys| && r.Ok?
      invariant i <= |keys|
      invariant r.Ok? ==> forall k :: k in criteria <==> k in keys[..i]
      invariant r.Ok? ==> forall k | k in criteria :: k in source && criteria[k] == Normalized(source[k])
      invariant r.Ok? ==> forall k | k in keys[..i] :: k in source && KeyLegal(k, option) && CriterionLegal(source[k], true, env)
      invariant r.Err? ==> r.error == InvalidQuestion && exists k :: k in source && !(KeyLegal(k, option) && CriterionLegal(source[k], true, env))
      decreases |keys| - i, r.Ok?
    {
      var key := keys[i];
      assert key in source && keys[..i + 1] == keys[..i] + [key];
      if !KeyLegal(key, option) {
        r := Err(InvalidQuestion);
      } else {
        var description := CompileCriteriaValue(source[key], true, env);
        if description.Err? {
          r := Err(InvalidQuestion);
        } else {
          criteria := criteria[key := description.value];
          i := i + 1;
        }
      }
    }
    if r.Ok? {
      assert keys[..i] == keys;
      assert criteria == NormalizedFields(source);
      r := Ok(criteria);
    }
  }

  /** Choice keys are identifiers; noul keys are true and false. */
  predicate KeyLegal(k: Name, option: bool) {
    if option then IsIdentifier(k) else k in {Name("true"), Name("false")}
  }

  method CompileScoreCriteria(source: seq<Value>, env: Deployment) returns (r: Result<seq<Value>>)
    ensures r.Ok? <==> MIN_SCORE_CRITERIA <= |source| <= MAX_SCORE_CRITERIA
                       && forall i | 0 <= i < |source| :: CriterionLegal(source[i], false, env)
    ensures r.Ok? ==> r.value == NormalizedItems(source)
    ensures r.Err? ==> r.error == InvalidQuestion
  {
    r := Err(InvalidQuestion);
    if MIN_SCORE_CRITERIA <= |source| <= MAX_SCORE_CRITERIA {
      var levels := [];
      r := Ok(levels);
      var i := 0;
      hide CriterionLegal, Normalized;
      while i < |source| && r.Ok?
        invariant i <= |source| && |levels| == i
        invariant r.Ok? ==> forall j | 0 <= j < i :: CriterionLegal(source[j], false, env) && levels[j] == Normalized(source[j])
        invariant r.Err? ==> r.error == InvalidQuestion && exists j | 0 <= j < |source| :: !CriterionLegal(source[j], false, env)
        decreases |source| - i, r.Ok?
      {
        var level := CompileCriteriaValue(source[i], false, env);
        if level.Err? {
          r := Err(InvalidQuestion);
        } else {
          levels := levels + [level.value];
          i := i + 1;
        }
      }
      if r.Ok? {
        r := Ok(levels);
      }
    }
  }

  method CompileCriteria(id: Name, question: Question, instructions: Value, env: Deployment) returns (r: Result<CompiledQuestion>)
    requires instructions == Normalized(question.instructions)
    ensures r.Ok? <==> CriteriaLegal(question.questionType, question.criteria, env)
    ensures r.Ok? ==> Resolved(id, question, r.value)
    ensures r.Err? ==> r.error == InvalidQuestion
  {
    var bare := CompiledQuestion(id, question.questionType, instructions, None, map[], [], []);
    var raw := question.criteria;
    r := Err(InvalidQuestion);
    hide Normalized, CriterionLegal, NormalizedFields, NormalizedItems, IsIdentifier;
    if question.questionType.NoulQuestion? {
      if raw.Null? {
        r := Ok(bare);
      } else if raw.Object? {
        var fields, _ := CompileFields(raw.fields, false, env);
        if fields.Ok? {
          r := Ok(bare.(noulCriteria := Some(fields.value)));
        }
      }
    } else if question.questionType.ChoiceQuestion? {
      if raw.Object? && MIN_CHOICE_CRITERIA <= |raw.fields| <= MAX_CHOICE_CRITERIA {
        var fields, keys := CompileFields(raw.fields, true, env);
        if fields.Ok? {
          SameKeys(raw.fields);
          r := Ok(bare.(choiceCriteria := fields.value, choiceKeys := keys));
        }
      }
    } else if question.questionType.ScoreQuestion? && raw.List? {
      var levels := CompileScoreCriteria(raw.items, env);
      if levels.Ok? {
        r := Ok(bare.(scoreCriteria := levels.value));
      }
    }
  }

  lemma SameKeys(fields: map<Name, Value>)
    ensures NormalizedFields(fields).Keys == fields.Keys
  {}

  method CompileQuestion(id: Name, question: Question, env: Deployment) returns (r: Result<CompiledQuestion>)
    ensures r.Ok? <==> QuestionLegal(id, question, env)
    ensures r.Ok? ==> Resolved(id, question, r.value)
    ensures r.Err? ==> r.error == InvalidQuestion
  {
    r := Err(InvalidQuestion);
    hide Normalized, InstructionsLegal, CriteriaLegal, Resolved, IsIdentifier;
    UnknownHasNoCriteria(question, env);
    if IsIdentifier(id) && !question.questionType.UnknownQuestion? {
      var instructions := CompileInstructions(question.instructions, env);
      if instructions.Ok? {
        r := CompileCriteria(id, question, instructions.value, env);
      }
    }
  }

  lemma UnknownHasNoCriteria(question: Question, env: Deployment)
    ensures CriteriaLegal(question.questionType, question.criteria, env) ==> !question.questionType.UnknownQuestion?
  {}

  // ----- The compiler -----

  /** The document under compilation and what its earlier stages have declared: the names the rules
      of the later stages are resolved against. */
  class Compiler {
    const doc: Document
    const env: Deployment
    var outcomes: set<Name>
    var facts: map<Name, FactType>
    var questions: map<Name, CompiledQuestion>
    var ruleIDs: set<Name>

    constructor (doc: Document, env: Deployment)
      ensures this.doc == doc && this.env == env
      ensures outcomes == {} && facts == map[] && questions == map[] && ruleIDs == {}
    {
      this.doc, this.env := doc, env;
      outcomes, facts, questions, ruleIDs := {}, map[], map[], {};
    }

    function Scope(): Declarations
      reads this
    {
      Declarations(facts, questions)
    }

    method CompileOutcomes() returns (error: Option<Error>)
      requires outcomes == {}
      modifies this`outcomes
      ensures error == (if OutcomesLegal(doc) then None else Some(InvalidOutcome))
      ensures error.None? ==> outcomes == set o | o in doc.outcomes
    {
      error := Some(InvalidOutcome);
      if 0 < |doc.outcomes| <= MAX_OUTCOMES {
        var i := 0;
        while i < |doc.outcomes| && IsDashedIdentifier(doc.outcomes[i]) && doc.outcomes[i] !in outcomes
          invariant i <= |doc.outcomes|
          invariant outcomes == set o | o in doc.outcomes[..i]
          invariant NoDuplicates(doc.outcomes[..i]) && forall o | o in doc.outcomes[..i] :: IsDashedIdentifier(o)
        {
          assert doc.outcomes[..i + 1] == doc.outcomes[..i] + [doc.outcomes[i]];
          outcomes := outcomes + {doc.outcomes[i]};
          i := i + 1;
        }
        if i == |doc.outcomes| {
          assert doc.outcomes[..i] == doc.outcomes;
          if doc.defaultOutcome in outcomes {
            error := None;
          }
        } else {
          assert doc.outcomes[i] in doc.outcomes;
          assert doc.outcomes[i] in outcomes ==> exists j | 0 <= j < i :: doc.outcomes[j] == doc.outcomes[i];
        }
      }
    }

    /** One declared list of facts, visited by name. */
    method CollectFacts(source: map<Name, FactType>) returns (error: Option<Error>)
      modifies this`facts
      ensures error == (if FactTypesLegal(source) && source.Keys !! old(facts).Keys then None else Some(InvalidFact))
      ensures error.None? ==> facts == old(facts) + source
    {
      var names := SortedNames(source.Keys);
      ghost var before, seen := facts, {};
      error := None;
      var i := 0;
      hide IsFactName;
      while i < |names| && error.None?
        invariant i <= |names| && forall n :: n in seen <==> n in names[..i]
        invariant error.None? ==> facts.Keys == before.Keys + seen && seen !! before.Keys
        invariant error.None? ==> forall n | n in facts :: facts[n] == if n in seen then source[n] else before[n]
        invariant error.None? ==> forall n | n in seen :: IsFactName(n) && !source[n].UnknownFact?
        invariant error.Some? ==> error == Some(InvalidFact) && !(FactTypesLegal(source) && source.Keys !! before.Keys)
        decreases |names| - i, error.None?
      {
        var name := names[i];
        assert name in source;
        NotRepeated(names, i);
        if !IsFactName(name) || source[name].UnknownFact? || name in facts {
          error := Some(InvalidFact);
        } else {
          facts := facts[name := source[name]];
          assert names[..i + 1] == names[..i] + [name];
          seen := seen + {name};
          i := i + 1;
        }
      }
      assert names[..|names|] == names;
      hide IsListing;
    }

    method CompileFacts() returns (error: Option<Error>)
      requires facts == map[]
      modifies this`facts
      ensures error == (if FactsLegal(doc.input) then None else Some(InvalidFact))
      ensures error.None? ==> facts == doc.input.requiredFacts + doc.input.optionalFacts
    {
      error := Some(InvalidFact);
      if |doc.input.requiredFacts| + |doc.input.optionalFacts| <= MAX_REQUIRED_FACTS {
        hide FactTypesLegal;
        error := CollectFacts(doc.input.requiredFacts);
        if error.None? {
          NothingPlus(doc.input.requiredFacts);
          error := CollectFacts(doc.input.optionalFacts);
        }
      }
    }

    /** Every declared question, visited by ID. */
    method CompileQuestions() returns (error: Option<Error>, ids: seq<Name>)
      requires questions == map[]
      modifies this`questions
      ensures error == (if QuestionsLegal(doc, env) then None else Some(InvalidQuestion))
      ensures error.None? ==> IsListing(ids, doc.questions.Keys) && AllResolved(doc.questions, questions)
    {
      error, ids := Some(InvalidQuestion), [];
      hide QuestionLegal, Resolved, Ascending, LegalUpTo;
      if 0 < |doc.questions| <= QuestionLimit(env.maxQuestions) {
        ids := SortedNames(doc.questions.Keys);
        error := CompileEach(ids);
        assert (set id | id in ids) == doc.questions.Keys;
        if error.None? {
          AllOfThem(doc, questions, env);
        }
      }
    }

    method CompileEach(ids: seq<Name>) returns (error: Option<Error>)
      requires questions == map[] && forall id | id in ids :: id in doc.questions
      modifies this`questions
      ensures error.None? ==> questions.Keys == (set id | id in ids) && LegalUpTo(doc.questions, questions, questions.Keys, env)
      ensures error.Some? ==> error == Some(InvalidQuestion) && exists id | id in ids :: !QuestionLegal(id, doc.questions[id], env)
    {
      error := None;
      var i := 0;
      hide QuestionLegal, Resolved;
      while i < |ids| && error.None?
        invariant i <= |ids|
        invariant error.None? ==>
                    questions.Keys == (set id | id in ids[..i]) && LegalUpTo(doc.questions, questions, questions.Keys, env)
        invariant error.Some? ==> error == Some(InvalidQuestion) && exists id | id in ids :: !QuestionLegal(id, doc.questions[id], env)
        decreases |ids| - i, error.None?
      {
        var id := ids[i];
        assert ids[..i + 1] == ids[..i] + [id];
        var question := CompileQuestion(id, doc.questions[id], env);
        if question.Err? {
          error := Some(question.error);
        } else {
          questions := questions[id := question.value];
          i := i + 1;
        }
      }
      assert ids[..|ids|] == ids;
    }

    // ----- Conditions -----

    /** One node of a condition tree: count its branches, then compile the only one. */
    method CompileTree(c: Condition, phase: Phase, depth: nat) returns (r: Result<CompiledCondition>)
      ensures r == CompileCondition(Scope(), phase, c, depth)
      decreases c, 0
    {
      r := Err(InvalidCondition);
      if depth <= MAX_CONDITION_DEPTH {
        var branches := 0;
        if c.all != [] { branches := branches + 1; }
        if c.any != [] { branches := branches + 1; }
        if c.negated.Some? { branches := branches + 1; }
        if c.left.Some? { branches := branches + 1; }
        if branches == 1 {
          if c.all != [] {
            var children := CompileCombinator(c.all, phase, depth);
            r := if children.Ok? then Ok(AllOf(children.value)) else Err(children.error);
          } else if c.any != [] {
            var children := CompileCombinator(c.any, phase, depth);
            r := if children.Ok? then Ok(AnyOf(children.value)) else Err(children.error);
          } else if c.negated.Some? {
            var child := CompileTree(c.negated.value, phase, depth + 1);
            r := if child.Ok? then Ok(Not(child.value)) else Err(child.error);
          } else {
            r := CompileLeaf(Scope(), phase, c.left.value, c.op, c.right);
          }
        }
      }
    }

    /** The operands of all or any, in order, up to the first that does not compile. */
    method CompileCombinator(children: seq<Condition>, phase: Phase, depth: nat) returns (r: Result<seq<CompiledCondition>>)
      ensures r == if |children| > MAX_CONDITIONS_PER_OP then Err(InvalidCondition)
                   else CompileChildren(Scope(), phase, children, depth + 1)
      decreases children, 1
    {
      r := Err(InvalidCondition);
      if |children| <= MAX_CONDITIONS_PER_OP {
        var compiled := [];
        r := Ok(compiled);
        var i := 0;
        hide CompileCondition;
        assert children[0..] == children;
        PrefixEnds(CompileChildren(Scope(), phase, children, depth + 1));
        while i < |children| && r.Ok?
          invariant i <= |children|
          invariant r.Ok? ==> CompileChildren(Scope(), phase, children, depth + 1) ==
                              Prefixed(compiled, CompileChildren(Scope(), phase, children[i..], depth + 1))
          invariant r.Err? ==> r == CompileChildren(Scope(), phase, children, depth + 1)
          decreases |children| - i, r.Ok?
        {
          assert children[i..][0] == children[i] && children[i..][1..] == children[i + 1..];
          var entry := CompileTree(children[i], phase, depth + 1);
          if entry.Err? {
            r := Err(entry.error);
          } else {
            PrefixStep(compiled, entry.value, CompileChildren(Scope(), phase, children[i + 1..], depth + 1));
            compiled := compiled + [entry.value];
            i := i + 1;
          }
        }
        if r.Ok? {
          assert children[i..] == [] && compiled + [] == compiled;
          r := Ok(compiled);
        }
      }
    }

    // ----- Rules -----

    /** The rule's ID is taken from here on, whatever else is wrong with the rule. */
    method CompileOneRule(rule: Rule, phase: Phase) returns (r: Result<CompiledRule>)
      modifies this`ruleIDs
      ensures r == CompileRule(Scope(), outcomes, old(ruleIDs), rule, phase)
      ensures r.Ok? ==> ruleIDs == old(ruleIDs) + {rule.id}
    {
      hide CompileCondition, IsDashedIdentifier;
      r := Err(InvalidRule);
      if IsDashedIdentifier(rule.id) && rule.id !in ruleIDs {
        ruleIDs := ruleIDs + {rule.id};
        if |rule.description| <= MAX_DESCRIPTION_LENGTH {
          if rule.outcome !in outcomes {
            r := Err(InvalidOutcome);
          } else if rule.when.None? {
            r := Ok(CompiledRule(rule.id, rule.description, None, rule.outcome));
          } else {
            var condition := CompileTree(rule.when.value, phase, 0);
            r := if condition.Ok? then Ok(CompiledRule(rule.id, rule.description, Some(condition.value), rule.outcome))
                 else Err(condition.error);
          }
        }
      }
    }

    method CompilePhase(rules: seq<Rule>, phase: Phase) returns (r: Result<seq<CompiledRule>>)
      modifies this`ruleIDs
      ensures r == CompileRules(Scope(), outcomes, old(ruleIDs), rules, phase)
      ensures r.Ok? ==> ruleIDs == old(ruleIDs) + RuleIDs(rules)
    {
      r := Err(InvalidRule);
      if |rules| <= MAX_RULES {
        var compiled := [];
        var sawUnconditional := false;
        r := Ok(compiled);
        var i := 0;
        hide CompileRule;
        assert rules[0..] == rules;
        PrefixEnds(CompileRulesFrom(Scope(), outcomes, ruleIDs, false, rules, phase));
        while i < |rules| && r.Ok?
          invariant i <= |rules|
          invariant r.Ok? ==> CompileRulesFrom(Scope(), outcomes, old(ruleIDs), false, rules, phase) ==
                              Prefixed(compiled, CompileRulesFrom(Scope(), outcomes, ruleIDs, sawUnconditional, rules[i..], phase))
          invariant r.Ok? ==> ruleIDs == old(ruleIDs) + RuleIDs(rules[..i])
          invariant r.Err? ==> r == CompileRulesFrom(Scope(), outcomes, old(ruleIDs), false, rules, phase)
          decreases |rules| - i, r.Ok?
        {
          assert rules[i..][0] == rules[i] && rules[i..][1..] == rules[i + 1..];
          if sawUnconditional {
            r := Err(InvalidRule);
          } else {
            var entry := CompileOneRule(rules[i], phase);
            if entry.Err? {
              r := Err(entry.error);
            } else {
              OneMoreID(rules, i);
              sawUnconditional := entry.value.condition.None?;
              PrefixStep(compiled, entry.value, CompileRulesFrom(Scope(), outcomes, ruleIDs, sawUnconditional, rules[i + 1..], phase));
              compiled := compiled + [entry.value];
              i := i + 1;
            }
          }
        }
        if r.Ok? {
          assert rules[..i] == rules && rules[i..] == [] && compiled + [] == compiled;
          r := Ok(compiled);
        }
      }
    }
  }

  lemma PrefixStep<T>(done: seq<T>, next: T, rest: Result<seq<T>>)
    ensures Prefixed(done, Prefixed([next], rest)) == Prefixed(done + [next], rest)
  {
    if rest.Ok? {
      assert done + ([next] + rest.value) == done + [next] + rest.value;
    }
  }

  lemma PrefixEnds<T>(r: Result<seq<T>>)
    ensures Prefixed([], r) == r
  {
    if r.Ok? {
      assert [] + r.value == r.value;
    }
  }

  lemma OneMoreID(rules: seq<Rule>, i: nat)
    requires i < |rules|
    ensures RuleIDs(rules[..i + 1]) == RuleIDs(rules[..i]) + {rules[i].id}
  {
    assert rules[..i + 1] == rules[..i] + [rules[i]];
  }

  lemma AllOfThem(doc: Document, questions: map<Name, CompiledQuestion>, env: Deployment)
    requires LegalUpTo(doc.questions, questions, doc.questions.Keys, env) && questions.Keys == doc.questions.Keys
    ensures AllResolved(doc.questions, questions)
    ensures 0 < |doc.questions| <= QuestionLimit(env.maxQuestions) ==> QuestionsLegal(doc, env)
  {
    hide QuestionLegal, Resolved;
  }

  /** Every declared question in seen is legal and compiled. */
  ghost predicate LegalUpTo(source: map<Name, Question>, questions: map<Name, CompiledQuestion>, seen: set<Name>, env: Deployment) {
    forall id | id in seen ::
      id in source && id in questions && QuestionLegal(id, source[id], env) && Resolved(id, source[id], questions[id])
  }

  ghost predicate AllResolved(source: map<Name, Question>, questions: map<Name, CompiledQuestion>) {
    && questions.Keys == source.Keys
    && forall id | id in source :: Resolved(id, source[id], questions[id])
  }

  lemma NothingPlus(m: map<Name, FactType>)
    ensures map[] + m == m
  {}

  lemma NotRepeated(names: seq<Name>, i: nat)
    requires Ascending(names) && i < |names|
    ensures names[i] !in names[..i]
  {
    LessIsStrictOrder(names[i], names[i]);
  }

  // ----- The whole document -----

  function DeclaredFacts(input: Input): map<Name, FactType> {
    input.requiredFacts + input.optionalFacts
  }

  function OutcomeSet(doc: Document): set<Name> {
    set o | o in doc.outcomes
  }

  /** The policy assembled from a document whose stages all passed. */
  ghost predicate Assembled(doc: Document, p: Compiled) {
    && p.name == doc.name && p.version == doc.version && p.description == doc.description && p.model == doc.model
    && p.outcomes == doc.outcomes && p.defaultOutcome == doc.defaultOutcome
    && p.requiredFacts == doc.input.requiredFacts && p.optionalFacts == doc.input.optionalFacts
    && p.strictInput == doc.input.strict
    && AllResolved(doc.questions, p.questions) && IsListing(p.questionIDs, doc.questions.Keys)
  }

  /** The two rule lists, compiled against the declarations, sharing one set of rule IDs. */
  ghost predicate RulesOutcome(doc: Document, d: Declarations, r: Result<Compiled>) {
    match CompileRules(d, OutcomeSet(doc), {}, doc.preRules, PrePhase)
    case Err(error) => r == Err(error)
    case Ok(pre) =>
      match CompileRules(d, OutcomeSet(doc), RuleIDs(doc.preRules), doc.decisionRules, DecisionPhase)
      case Err(error) => r == Err(error)
      case Ok(decision) =>
        && r.Ok? && Assembled(doc, r.value) && r.value.questions == d.questions
        && r.value.preRules == pre && r.value.decisionRules == decision
  }

  /** What compiling a document comes to: the error of the first stage that fails, else the
      assembled policy. */
  ghost predicate CompilesTo(doc: Document, env: Deployment, r: Result<Compiled>) {
    if doc.apiVersion != API_VERSION then r == Err(UnsupportedAPIVersion)
    else if doc.kind != KIND then r == Err(UnsupportedKind)
    else if !MetadataLegal(doc) then r == Err(InvalidMetadata)
    else if !OutcomesLegal(doc) then r == Err(InvalidOutcome)
    else if !FactsLegal(doc.input) then r == Err(InvalidFact)
    else if !QuestionsLegal(doc, env) then r == Err(InvalidQuestion)
    else exists questions ::
           AllResolved(doc.questions, questions) && RulesOutcome(doc, Declarations(DeclaredFacts(doc.input), questions), r)
  }

  method Compile(source: Option<Document>, env: Deployment) returns (r: Result<Compiled>)
    ensures source.None? ==> r == Err(InvalidDocument)
    ensures source.Some? ==> CompilesTo(source.value, env, r)
  {
    hide MetadataLegal, OutcomesLegal, FactsLegal, QuestionsLegal, RulesOutcome, AllResolved;
    if source.None? {
      r := Err(InvalidDocument);
    } else if source.value.apiVersion != API_VERSION {
      r := Err(UnsupportedAPIVersion);
    } else if source.value.kind != KIND {
      r := Err(UnsupportedKind);
    } else {
      var doc := source.value;
      var compiler := new Compiler(doc, env);
      var error := CompileDeclarations(compiler);
      if error.0.Some? {
        r := Err(error.0.value);
      } else {
        r := CompileBothPhases(compiler, error.1);
        assert RulesOutcome(doc, Declarations(DeclaredFacts(doc.input), compiler.questions), r);
      }
    }
  }

  /** Metadata, outcomes, facts and questions, in that order. */
  method CompileDeclarations(compiler: Compiler) returns (r: (Option<Error>, seq<Name>))
    requires compiler.outcomes == {} && compiler.facts == map[] && compiler.questions == map[]
    modifies compiler
    ensures r.0 == if !MetadataLegal(compiler.doc) then Some(InvalidMetadata)
                   else if !OutcomesLegal(compiler.doc) then Some(InvalidOutcome)
                   else if !FactsLegal(compiler.doc.input) then Some(InvalidFact)
                   else if !QuestionsLegal(compiler.doc, compiler.env) then Some(InvalidQuestion)
                   else None
    ensures compiler.ruleIDs == old(compiler.ruleIDs)
    ensures r.0.None? ==>
              && compiler.outcomes == OutcomeSet(compiler.doc) && compiler.facts == DeclaredFacts(compiler.doc.input)
              && AllResolved(compiler.doc.questions, compiler.questions) && IsListing(r.1, compiler.doc.questions.Keys)
  {
    hide MetadataLegal, OutcomesLegal, FactsLegal, QuestionsLegal, AllResolved, IsListing;
    var ids := [];
    var error := CompileMetadata(compiler.doc);
    if error.None? {
      error := compiler.CompileOutcomes();
      if error.None? {
        error := compiler.CompileFacts();
        if error.None? {
          error, ids := compiler.CompileQuestions();
        }
      }
    }
    r := (error, ids);
  }

  method CompileBothPhases(compiler: Compiler, ids: seq<Name>) returns (r: Result<Compiled>)
    requires compiler.outcomes == OutcomeSet(compiler.doc) && compiler.ruleIDs == {}
    requires AllResolved(compiler.doc.questions, compiler.questions) && IsListing(ids, compiler.doc.questions.Keys)
    modifies compiler`ruleIDs
    ensures RulesOutcome(compiler.doc, old(compiler.Scope()), r)
  {
    hide AllResolved, IsListing, CompileRules, RuleIDs;
    var doc := compiler.doc;
    var pre := compiler.CompilePhase(doc.preRules, PrePhase);
    if pre.Err? {
      r := Err(pre.error);
    } else {
      assert compiler.ruleIDs == RuleIDs(doc.preRules);
      var decision := compiler.CompilePhase(doc.decisionRules, DecisionPhase);
      r := if decision.Err? then Err(decision.error)
           else Ok(Compiled(doc.name, doc.version, doc.description, doc.model, doc.outcomes, doc.defaultOutcome,
                            doc.input.requiredFacts, doc.input.optionalFacts, doc.input.strict,
                            compiler.questions, ids, pre.value, decision.value));
    }
  }
}
