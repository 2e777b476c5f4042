/** One evaluation: facts, pre-rules, at most one provider call, answers, decision rules, and the
    audit record that comes out of it. */
module Evaluation {
  import opened Names
  import opened Decision
  import opened Policy
  import opened ConditionTyping
  import opened AnswerContract
  import opened PolicyCompiler
  import opened PolicyTheorems
  import opened PolicyRuntime

  // ----- The provider's side -----

  /** The sentinels a provider error can wrap. */
  datatype Sentinel =
    | ContextCanceled
    | NotAuthenticated
    | RequiredConfigNotSet
    | RateLimited
    | Timeout
    | RequestRejected
    | ParseFailed
    | ResponseTooLarge

  datatype Usage = Usage(model: string, inputTokens: int, outputTokens: int, attempts: int, durationMS: int)

  /** What the provider answers when asked: an error wrapping some sentinels, or answers. */
  datatype Reply = Failed(wraps: set<Sentinel>) | Answered(answers: Answers, usage: Usage)

  datatype FailureCode =
    | ProviderAuth
    | ProviderRateLimited
    | ProviderTimeout
    | ProviderRejected
    | ProviderProtocolError
    | ProviderUnavailable

  function ClassifyProviderFailure(wraps: set<Sentinel>): FailureCode {
    if NotAuthenticated in wraps || RequiredConfigNotSet in wraps then ProviderAuth
    else if RateLimited in wraps then ProviderRateLimited
    else if Timeout in wraps then ProviderTimeout
    else if RequestRejected in wraps then ProviderRejected
    else if ParseFailed in wraps || ResponseTooLarge in wraps then ProviderProtocolError
    else ProviderUnavailable
  }

  /** The sentinels a failure code stands for. */
  ghost function Causes(code: FailureCode): set<Sentinel> {
    match code
    case ProviderAuth => {NotAuthenticated, RequiredConfigNotSet}
    case ProviderRateLimited => {RateLimited}
    case ProviderTimeout => {Timeout}
    case ProviderRejected => {RequestRejected}
    case ProviderProtocolError => {ParseFailed, ResponseTooLarge}
    case ProviderUnavailable => {}
  }

  /** Where a code stands when an error wraps the causes of several: lower wins. */
  function Precedence(code: FailureCode): nat {
    match code
    case ProviderAuth => 0
    case ProviderRateLimited => 1
    case ProviderTimeout => 2
    case ProviderRejected => 3
    case ProviderProtocolError => 4
    case ProviderUnavailable => 5
  }

  /** A code is recorded exactly when the error wraps one of its causes, or it is the code for
      everything else, and the error wraps no cause of a code that takes precedence. */
  lemma FailureCodeExactly(wraps: set<Sentinel>, code: FailureCode)
    ensures ClassifyProviderFailure(wraps) == code <==>
            && (code == ProviderUnavailable || Causes(code) * wraps != {})
            && forall other | Precedence(other) < Precedence(code) :: Causes(other) * wraps == {}
  {
    CauseWrapped(wraps, ClassifyProviderFailure(wraps));
    CauseWrapped(wraps, code);
    forall other {
      CauseWrapped(wraps, other);
    }
  }

  lemma CauseWrapped(wraps: set<Sentinel>, code: FailureCode)
    ensures Causes(code) * wraps != {} <==> exists s :: s in Causes(code) && s in wraps
    ensures Causes(code) * wraps != {} ==> Precedence(ClassifyProviderFailure(wraps)) <= Precedence(code)
  {
    forall s | s in Causes(code) && s in wraps ensures s in Causes(code) * wraps {}
  }

  class Provider {
    const reply: Reply
    var calls: nat

    constructor (reply: Reply)
      ensures this.reply == reply && calls == 0
    {
      this.reply, calls := reply, 0;
    }

    method Evaluate() returns (r: Reply)
      modifies this
      ensures r == reply && calls == old(calls) + 1
    {
      calls := calls + 1;
      r := reply;
    }
  }

  // ----- The audit record -----

  datatype Status = Unset | Completed | ProviderFailed

  class Record {
    const createdAt: int
    var status: Status
    var outcome: Name
    var matchedRule: Name
    var path: Option<Path>
    var failureCode: Option<FailureCode>
    var usage: Option<Usage>
    var answers: Option<Answers>
    var durationMS: int

    constructor (createdAt: int)
      ensures this.createdAt == createdAt && Blank()
    {
      this.createdAt := createdAt;
      status, outcome, matchedRule, path := Unset, EMPTY, EMPTY, None;
      failureCode, usage, answers, durationMS := None, None, None, 0;
    }

    ghost predicate Blank()
      reads this
    {
      Contents() == Verdict(Unset, EMPTY, EMPTY, None, None, None, None)
    }

    /** Everything in the record that the decision fills in. */
    function Contents(): Verdict
      reads this
    {
      Verdict(status, outcome, matchedRule, path, failureCode, usage, answers)
    }

    method ApplyResult(s: Selection)
      modifies this`outcome, this`matchedRule, this`path
      ensures Contents() == old(Contents()).(outcome := s.outcome, matchedRule := s.matchedRule, path := Some(s.path))
    {
      outcome, matchedRule, path := s.outcome, s.matchedRule, Some(s.path);
    }

    method Fail(code: FailureCode, now: int)
      modifies this`status, this`failureCode, this`durationMS
      ensures Contents() == old(Contents()).(status := ProviderFailed, failureCode := Some(code))
      ensures durationMS == now - createdAt
    {
      status, failureCode, durationMS := ProviderFailed, Some(code), now - createdAt;
    }

    method Complete(now: int)
      modifies this`status, this`durationMS
      ensures Contents() == old(Contents()).(status := Completed)
      ensures durationMS == now - createdAt
    {
      status, durationMS := Completed, now - createdAt;
    }
  }

  datatype Verdict = Verdict(
    status: Status,
    outcome: Name,
    matchedRule: Name,
    path: Option<Path>,
    failureCode: Option<FailureCode>,
    usage: Option<Usage>,
    answers: Option<Answers>)

  // ----- What an evaluation comes to -----

  datatype Decided = Rejected | Cancelled | Recorded(verdict: Verdict)

  function Selected(s: Selection, usage: Option<Usage>, answers: Option<Answers>): Verdict {
    Verdict(Completed, s.outcome, s.matchedRule, Some(s.path), None, usage, answers)
  }

  function FailedWith(code: FailureCode, usage: Option<Usage>): Verdict {
    Verdict(ProviderFailed, EMPTY, EMPTY, None, Some(code), usage, None)
  }

  /** The decision as a function of the policy, the facts and what the provider would answer. */
  ghost function DecisionOf(p: Compiled, facts: Facts, reply: Reply): Decided {
    if !FactsAccepted(p, facts) then Rejected
    else if EvaluatePreRules(p, facts).Some? then Recorded(Selected(EvaluatePreRules(p, facts).value, None, None))
    else
      match reply
      case Failed(wraps) =>
        if ContextCanceled in wraps then Cancelled else Recorded(FailedWith(ClassifyProviderFailure(wraps), None))
      case Answered(answers, usage) =>
        if !AnswersAccepted(p, answers) then Recorded(FailedWith(ProviderProtocolError, Some(usage)))
        else Recorded(Selected(EvaluateDecisionRules(p, facts, answers), Some(usage), Some(answers)))
  }

  /** The provider is asked exactly when the facts pass and no pre-rule settles the evaluation. */
  predicate AsksProvider(p: Compiled, facts: Facts) {
    FactsAccepted(p, facts) && EvaluatePreRules(p, facts).None?
  }

  method Decide(p: Compiled, facts: Facts, provider: Provider, startedAt: int, finishedAt: int)
    returns (record: Record?, ghost decided: Decided)
    modifies provider
    ensures decided == DecisionOf(p, facts, provider.reply)
    ensures record != null <==> decided.Recorded?
    ensures record != null ==> fresh(record) && record.createdAt == startedAt && record.Contents() == decided.verdict
    ensures record != null ==> record.durationMS == finishedAt - startedAt
    ensures provider.calls == old(provider.calls) + if AsksProvider(p, facts) then 1 else 0
  {
    hide FactsAccepted, EvaluatePreRules, EvaluateDecisionRules, AnswersAccepted, ClassifyProviderFailure;
    decided := DecisionOf(p, facts, provider.reply);
    var row := new Record(startedAt);
    record := null;
    var valid := ValidateFacts(p, facts);
    if valid {
      var pre := EvaluatePreRules(p, facts);
      if pre.Some? {
        row.ApplyResult(pre.value);
        row.Complete(finishedAt);
        record := row;
      } else {
        var reply := provider.Evaluate();
        var kept := AfterProvider(p, facts, reply, row, finishedAt);
        if kept {
          record := row;
        }
      }
    }
  }

  /** What is left once the provider has been asked; false when the caller cancelled. */
  method AfterProvider(p: Compiled, facts: Facts, reply: Reply, row: Record, finishedAt: int) returns (kept: bool)
    requires row.Blank()
    modifies row
    ensures kept <==> !(reply.Failed? && ContextCanceled in reply.wraps)
    ensures kept ==> row.durationMS == finishedAt - row.createdAt
    ensures kept && reply.Failed? ==> row.Contents() == FailedWith(ClassifyProviderFailure(reply.wraps), None)
    ensures reply.Answered? ==>
              row.Contents() == if AnswersAccepted(p, reply.answers)
                                then Selected(EvaluateDecisionRules(p, facts, reply.answers), Some(reply.usage), Some(reply.answers))
                                else FailedWith(ProviderProtocolError, Some(reply.usage))
  {
    hide EvaluateDecisionRules, AnswersAccepted, ClassifyProviderFailure;
    kept := true;
    match reply
    case Failed(wraps) =>
      if ContextCanceled in wraps {
        kept := false;
      } else {
        row.Fail(ClassifyProviderFailure(wraps), finishedAt);
      }
    case Answered(answers, usage) =>
      row.usage := Some(usage);
      var accepted := ValidateAnswers(p, answers);
      if !accepted {
        row.Fail(ProviderProtocolError, finishedAt);
      } else {
        row.answers := Some(answers);
        row.ApplyResult(EvaluateDecisionRules(p, facts, answers));
        row.Complete(finishedAt);
      }
  }

  /** Every way an evaluation can end, by what the provider would answer. Rejected facts and a
      cancelled provider call leave no record; a provider asked in vain leaves a failed one, with the
      usage when it answered off contract; only an answer on contract comes with both. */
  lemma DecisionExactly(p: Compiled, facts: Facts, reply: Reply)
    ensures DecisionOf(p, facts, reply) == Rejected <==> !FactsAccepted(p, facts)
    ensures DecisionOf(p, facts, reply) == Cancelled <==>
            FactsAccepted(p, facts) && EvaluatePreRules(p, facts).None? && reply.Failed? && ContextCanceled in reply.wraps
    ensures FactsAccepted(p, facts) ==>
              match EvaluatePreRules(p, facts)
              case Some(s) =>
                DecisionOf(p, facts, reply) == Recorded(Verdict(Completed, s.outcome, s.matchedRule, Some(PreRule), None, None, None))
              case None =>
                match reply
                case Failed(wraps) =>
                  ContextCanceled in wraps || exists code ::
                    && DecisionOf(p, facts, reply) == Recorded(Verdict(ProviderFailed, EMPTY, EMPTY, None, Some(code), None, None))
                    && (code == ProviderUnavailable || Causes(code) * wraps != {})
                case Answered(answers, usage) =>
                  DecisionOf(p, facts, reply) == Recorded(
                    if AnswersAccepted(p, answers) then
                      var s := EvaluateDecisionRules(p, facts, answers);
                      Verdict(Completed, s.outcome, s.matchedRule, Some(s.path), None, Some(usage), Some(answers))
                    else Verdict(ProviderFailed, EMPTY, EMPTY, None, Some(ProviderProtocolError), Some(usage), None))
  {
    hide FactsAccepted, EvaluateDecisionRules, AnswersAccepted, ClassifyProviderFailure, Causes, FirstMatch;
    if reply.Failed? {
      FailureCodeExactly(reply.wraps, ClassifyProviderFailure(reply.wraps));
    }
  }

  // ----- The two shapes of a record -----

  /** Completed: a declared outcome, selected by the least matching rule of its phase or by
      default, with no failure code; by a pre-rule exactly when the provider was not asked. */
  ghost predicate CompletedShape(p: Compiled, facts: Facts, v: Verdict) {
    && v.status == Completed && v.failureCode.None? && v.outcome in p.outcomes && v.path.Some?
    && var s := Selection(v.outcome, v.matchedRule, v.path.value);
       match v.path.value
       case PreRule => SelectedBy(p.preRules, s, facts, map[]) && v.usage.None? && v.answers.None?
       case DecisionRule => v.answers.Some? && v.usage.Some? && SelectedBy(p.decisionRules, s, facts, v.answers.value)
       case Default => v.answers.Some? && v.usage.Some? && s == Selection(p.defaultOutcome, EMPTY, Default)
  }

  /** Provider-failed: a failure code, and nothing selected. */
  ghost predicate FailedShape(v: Verdict) {
    && v.status == ProviderFailed && v.failureCode.Some?
    && v.outcome == EMPTY && v.matchedRule == EMPTY && v.path.None? && v.answers.None?
  }

  /** Every record has exactly one of the two shapes, never both, and a record that asked no
      provider is a pre-rule's. */
  lemma RecordHasOneShape(p: Compiled, facts: Facts, reply: Reply)
    requires Sound(p) && DecisionOf(p, facts, reply).Recorded?
    ensures var v := DecisionOf(p, facts, reply).verdict;
            && (CompletedShape(p, facts, v) <==> !FailedShape(v))
            && (!AsksProvider(p, facts) <==> v.path == Some(PreRule))
            && (v.answers.Some? ==> AnswersAccepted(p, v.answers.value))
  {
    hide FactsAccepted, EvaluatePreRules, EvaluateDecisionRules, AnswersAccepted, ClassifyProviderFailure, Sound, SelectedBy;
    var answers := if reply.Answered? then reply.answers else map[];
    SelectionIsDeclared(p, facts, answers);
    PreRulePath(p, facts);
  }

  lemma PreRulePath(p: Compiled, facts: Facts)
    ensures EvaluatePreRules(p, facts).Some? ==> EvaluatePreRules(p, facts).value.path == PreRule
  {}

  /** The rule named by a record decides it for good: no other rule of either phase has its ID. */
  lemma RuleIDsIdentify(p: Compiled, a: CompiledRule, b: CompiledRule)
    requires Sound(p) && a.id == b.id
    requires (a in p.preRules || a in p.decisionRules) && (b in p.preRules || b in p.decisionRules)
    ensures a == b
  {
    hide RulesSound, Declared, QuestionsFit, ScopeOf;
    var rules := p.preRules + p.decisionRules;
    var ids := CompiledIDs(p.preRules) + CompiledIDs(p.decisionRules);
    assert a in rules && b in rules;
    var i :| 0 <= i < |rules| && rules[i] == a;
    var j :| 0 <= j < |rules| && rules[j] == b;
    assert ids[i] == a.id && ids[j] == b.id;
  }

  /** From the document to the record: what is recorded is what the document's rules say, read with
      their source meaning. */
  lemma RecordIsMeant(doc: Document, env: Deployment, p: Compiled, facts: Facts, reply: Reply)
    requires CompilesTo(doc, env, Ok(p)) && DecisionOf(p, facts, reply).Recorded?
    requires DecisionOf(p, facts, reply).verdict.status == Completed
    ensures var v := DecisionOf(p, facts, reply).verdict;
            var pre := FirstMeant(doc.preRules, facts, map[]);
            if pre.Some? then v.outcome == pre.value.outcome && v.matchedRule == pre.value.id
            else
              && v.answers.Some?
              && var rule := FirstMeant(doc.decisionRules, facts, v.answers.value);
                 if rule.Some? then v.outcome == rule.value.outcome && v.matchedRule == rule.value.id
                 else v.outcome == doc.defaultOutcome && v.matchedRule == EMPTY
  {
    hide FactsAccepted, EvaluatePreRules, EvaluateDecisionRules, AnswersAccepted, ClassifyProviderFailure, FirstMeant, CompilesTo;
    var answers := if reply.Answered? then reply.answers else map[];
    SelectionIsMeant(doc, env, p, facts, answers);
  }
}
