/** The provider contract: which answer sets ValidateAnswers lets through. */
module AnswerContract {
  import opened Names
  import opened Decision
  import opened Policy
  import opened ConditionTyping

  const PROBABILITY_SUM_TOLERANCE := 0.02
  const FLOAT_COMPARISON_SLACK := 0.000000001

  predicate IsProbability(r: real) {
    0.0 <= r <= 1.0
  }

  // ----- Distributions -----

  /** The sum in the order of a listing of the keys. */
  function SumAlong(keys: seq<Name>, m: map<Name, real>): real
    requires forall k | k in keys :: k in m
  {
    if keys == [] then 0.0 else SumAlong(keys[..|keys| - 1], m) + m[keys[|keys| - 1]]
  }

  /** The sum of a map's values, in no particular order. */
  ghost function Total(m: map<Name, real>): real {
    if m == map[] then 0.0 else var k :| k in m; m[k] + Total(m - {k})
  }

  lemma {:induction false} TotalWithout(m: map<Name, real>, k: Name)
    requires k in m
    ensures Total(m) == m[k] + Total(m - {k})
    decreases |m|
  {
    var j :| j in m && Total(m) == m[j] + Total(m - {j});
    if j != k {
      TotalWithout(m - {j}, k);
      TotalWithout(m - {k}, j);
      assert m - {j} - {k} == m - {k} - {j};
    }
  }

  /** Summing along any enumeration of the keys gives the same total, so neither map iteration
      order nor sorting can be seen in it. */
  lemma {:induction false} SumAlongIsTotal(keys: seq<Name>, m: map<Name, real>)
    requires NoDuplicates(keys)
    requires forall k :: k in keys <==> k in m
    ensures SumAlong(keys, m) == Total(m)
    decreases |keys|
  {
    if keys == [] {
      assert m == map[];
    } else {
      var last := keys[|keys| - 1];
      var front := keys[..|keys| - 1];
      TotalWithout(m, last);
      SumAlongIsTotal(front, m - {last});
      SumAlongShrinks(front, m, m - {last});
    }
  }

  lemma {:induction false} SumAlongShrinks(keys: seq<Name>, m: map<Name, real>, n: map<Name, real>)
    requires forall k | k in keys :: k in m && k in n && m[k] == n[k]
    ensures SumAlong(keys, m) == SumAlong(keys, n)
  {
    if keys != [] {
      SumAlongShrinks(keys[..|keys| - 1], m, n);
    }
  }

  ghost predicate IsDistribution(m: map<Name, real>) {
    && (forall k | k in m :: IsProbability(m[k]))
    && -(PROBABILITY_SUM_TOLERANCE + FLOAT_COMPARISON_SLACK) <= Total(m) - 1.0
         <= PROBABILITY_SUM_TOLERANCE + FLOAT_COMPARISON_SLACK
  }

  /** The loop over the sorted keys that checks each probability and accumulates their sum. */
  method ValidateDistribution(probabilities: map<Name, real>) returns (ok: bool)
    ensures ok <==> IsDistribution(probabilities)
  {
    var keys := SortedNames(probabilities.Keys);
    AscendingIsDistinct(keys);
    assert forall k :: k in keys <==> k in probabilities;
    hide IsListing, Total, Less;
    var total := 0.0;
    ok := true;
    var i := 0;
    while i < |keys| && ok
      invariant i <= |keys| && forall k | k in keys :: k in probabilities
      invariant total == SumAlong(keys[..i], probabilities)
      invariant ok ==> forall j | 0 <= j < i :: IsProbability(probabilities[keys[j]])
      invariant !ok ==> exists k :: k in probabilities && !IsProbability(probabilities[k])
      decreases |keys| - i, ok
    {
      var value := probabilities[keys[i]];
      if IsProbability(value) {
        total := total + value;
        assert keys[..i + 1][..i] == keys[..i];
        i := i + 1;
      } else {
        ok := false;
      }
    }
    if ok {
      assert keys[..i] == keys;
      SumAlongIsTotal(keys, probabilities);
      var drift := if total >= 1.0 then total - 1.0 else 1.0 - total;
      ok := drift <= PROBABILITY_SUM_TOLERANCE + FLOAT_COMPARISON_SLACK;
    }
  }

  lemma AscendingIsDistinct(names: seq<Name>)
    requires Ascending(names)
    ensures NoDuplicates(names)
  {
    forall i, j | 0 <= i < j < |names| ensures names[i] != names[j] {
      LessIsStrictOrder(names[i], names[i]);
    }
  }

  lemma {:induction false} TotalNonNegative(m: map<Name, real>)
    requires forall k | k in m :: IsProbability(m[k])
    ensures Total(m) >= 0.0
    decreases |m|
  {
    if k :| k in m {
      TotalWithout(m, k);
      TotalNonNegative(m - {k});
    }
  }

  /** At most one option of a distribution lies above half of one plus the tolerance. */
  lemma OneMajority(m: map<Name, real>, a: Name, b: Name)
    requires IsDistribution(m) && a in m && b in m && a != b
    ensures m[a] + m[b] <= 1.0 + PROBABILITY_SUM_TOLERANCE + FLOAT_COMPARISON_SLACK
    ensures !(m[a] > 0.5 * (1.0 + PROBABILITY_SUM_TOLERANCE + FLOAT_COMPARISON_SLACK) &&
              m[b] > 0.5 * (1.0 + PROBABILITY_SUM_TOLERANCE + FLOAT_COMPARISON_SLACK))
  {
    TotalWithout(m, a);
    TotalWithout(m - {a}, b);
    TotalNonNegative(m - {a} - {b});
  }

  // ----- The validators, as they scan -----

  predicate ConfidenceAccepted(a: Answer) {
    a.hasConfidence && IsProbability(a.confidence)
  }

  ghost predicate ChoiceAccepted(q: CompiledQuestion, a: Answer) {
    && a.choice in q.choiceCriteria
    && ConfidenceAccepted(a)
    && |a.probabilities| == |q.choiceKeys|
    && (forall key | key in q.choiceKeys :: key in a.probabilities)
    && IsDistribution(a.probabilities)
  }

  ghost predicate ScoreAccepted(q: CompiledQuestion, a: Answer) {
    var levels := |q.scoreCriteria|;
    && 0.0 <= a.score <= (levels - 1) as real
    && ConfidenceAccepted(a)
    && |a.probabilities| == levels && |a.legend| == levels
    && (forall i | 0 <= i < levels ::
          && Itoa(i) in a.probabilities && Itoa(i) in a.legend
          && a.legend[Itoa(i)] == q.scoreCriteria[i])
    && IsDistribution(a.probabilities)
  }

  ghost predicate AnswerAccepted(q: CompiledQuestion, a: Answer) {
    && a.questionType == q.questionType
    && match q.questionType
       case NoulQuestion => IsProbability(a.noul)
       case ChoiceQuestion => ChoiceAccepted(q, a)
       case ScoreQuestion => ScoreAccepted(q, a)
       case UnknownQuestion(_) => false
  }

  ghost predicate AnswersAccepted(p: Compiled, answers: Answers) {
    && |answers| == |p.questionIDs|
    && forall id | id in p.questionIDs ::
         id in answers && AnswerAccepted(QuestionAt(p, id), answers[id])
  }

  // ----- The validators -----

  method ValidateScoreLevels(q: CompiledQuestion, a: Answer) returns (ok: bool)
    ensures ok <==> forall i | 0 <= i < |q.scoreCriteria| ::
              Itoa(i) in a.probabilities && Itoa(i) in a.legend && a.legend[Itoa(i)] == q.scoreCriteria[i]
  {
    hide Itoa;
    ok := true;
    var i := 0;
    while i < |q.scoreCriteria| && ok
      invariant i <= |q.scoreCriteria|
      invariant ok ==> forall j | 0 <= j < i ::
                  Itoa(j) in a.probabilities && Itoa(j) in a.legend && a.legend[Itoa(j)] == q.scoreCriteria[j]
      invariant !ok ==> exists j | 0 <= j < |q.scoreCriteria| ::
                  !(Itoa(j) in a.probabilities && Itoa(j) in a.legend && a.legend[Itoa(j)] == q.scoreCriteria[j])
      decreases |q.scoreCriteria| - i, ok
    {
      var key := Itoa(i);
      if key !in a.probabilities || key !in a.legend || a.legend[key] != q.scoreCriteria[i] {
        ok := false;
      } else {
        i := i + 1;
      }
    }
  }

  method ValidateAnswer(q: CompiledQuestion, a: Answer) returns (ok: bool)
    ensures ok <==> AnswerAccepted(q, a)
  {
    hide IsDistribution, Itoa;
    ok := false;
    if a.questionType == q.questionType {
      match q.questionType
      case NoulQuestion => ok := IsProbability(a.noul);
      case ChoiceQuestion =>
        if a.choice in q.choiceCriteria && ConfidenceAccepted(a) && |a.probabilities| == |q.choiceKeys|
           && forall key | key in q.choiceKeys :: key in a.probabilities
        {
          ok := ValidateDistribution(a.probabilities);
        }
      case ScoreQuestion =>
        var levels := |q.scoreCriteria|;
        if 0.0 <= a.score <= (levels - 1) as real && ConfidenceAccepted(a)
           && |a.probabilities| == levels && |a.legend| == levels
        {
          ok := ValidateScoreLevels(q, a);
          if ok {
            ok := ValidateDistribution(a.probabilities);
          }
        }
      case UnknownQuestion(_) =>
    }
  }

  /** One answer for each question, each of them accepted. */
  method ValidateAnswers(p: Compiled, answers: Answers) returns (ok: bool)
    ensures ok <==> AnswersAccepted(p, answers)
  {
    hide AnswerAccepted;
    ok := |answers| == |p.questionIDs|;
    var i := 0;
    while i < |p.questionIDs| && ok
      invariant i <= |p.questionIDs| && (ok ==> |answers| == |p.questionIDs|)
      invariant ok ==> forall j | 0 <= j < i ::
                  p.questionIDs[j] in answers && AnswerAccepted(QuestionAt(p, p.questionIDs[j]), answers[p.questionIDs[j]])
      invariant !ok ==> !AnswersAccepted(p, answers)
      decreases |p.questionIDs| - i, ok
    {
      var id := p.questionIDs[i];
      if id !in answers {
        ok := false;
      } else {
        ok := ValidateAnswer(QuestionAt(p, id), answers[id]);
        i := i + 1;
      }
    }
  }

  // ----- The contract, as sets of keys -----

  /** The level indexes of a score with n levels, rendered. */
  ghost function LevelKeys(n: nat): set<Name> {
    set i: nat | i < n :: Itoa(i)
  }

  ghost predicate Echoes(criteria: seq<Value>, legend: map<Name, Value>) {
    forall i | 0 <= i < |criteria| :: Itoa(i) in legend && legend[Itoa(i)] == criteria[i]
  }

  ghost predicate AnswerFits(q: CompiledQuestion, a: Answer) {
    && a.questionType == q.questionType
    && match q.questionType
       case NoulQuestion => 0.0 <= a.noul <= 1.0
       case ChoiceQuestion =>
         && a.choice in q.choiceCriteria && a.hasConfidence && 0.0 <= a.confidence <= 1.0
         && a.probabilities.Keys == q.choiceCriteria.Keys && IsDistribution(a.probabilities)
       case ScoreQuestion =>
         && 0.0 <= a.score <= (|q.scoreCriteria| - 1) as real && a.hasConfidence && 0.0 <= a.confidence <= 1.0
         && a.probabilities.Keys == LevelKeys(|q.scoreCriteria|) && IsDistribution(a.probabilities)
         && a.legend.Keys == LevelKeys(|q.scoreCriteria|) && Echoes(q.scoreCriteria, a.legend)
       case UnknownQuestion(_) => false
  }

  lemma {:induction false} LevelKeysCount(n: nat)
    ensures |LevelKeys(n)| == n
  {
    hide Itoa;
    if n > 0 {
      LevelKeysCount(n - 1);
      assert Itoa(n - 1) !in LevelKeys(n - 1) by {
        forall i: nat | i < n - 1 && Itoa(i) == Itoa(n - 1) ensures false {
          ItoaInjective(i, n - 1);
        }
      }
      assert LevelKeys(n) == LevelKeys(n - 1) + {Itoa(n - 1)};
    }
  }

  lemma CountedKeys(n: nat, keys: set<Name>)
    ensures keys == LevelKeys(n) <==> |keys| == n && forall i: nat | i < n :: Itoa(i) in keys
  {
    LevelKeysCount(n);
    hide Itoa;
    if |keys| == n && forall i: nat | i < n :: Itoa(i) in keys {
      SubsetOfSameSize(LevelKeys(n), keys);
    }
  }

  lemma ChoiceExact(q: CompiledQuestion, a: Answer)
    requires QuestionFits(q) && q.questionType.ChoiceQuestion?
    ensures AnswerAccepted(q, a) <==> AnswerFits(q, a)
  {
    ListingLength(q.choiceKeys, q.choiceCriteria.Keys);
    if AnswerAccepted(q, a) {
      SubsetOfSameSize(q.choiceCriteria.Keys, a.probabilities.Keys);
    }
    hide IsDistribution;
  }

  lemma ScoreExact(q: CompiledQuestion, a: Answer)
    requires QuestionFits(q) && q.questionType.ScoreQuestion?
    ensures AnswerAccepted(q, a) <==> AnswerFits(q, a)
  {
    var n := |q.scoreCriteria|;
    hide IsDistribution, Itoa, QuestionFits;
    CountedKeys(n, a.probabilities.Keys);
    CountedKeys(n, a.legend.Keys);
    hide LevelKeys;
  }

  /** What compilation guarantees of a policy's questions. */
  ghost predicate QuestionsFit(p: Compiled) {
    && IsListing(p.questionIDs, p.questions.Keys)
    && forall id | id in p.questions :: p.questions[id].id == id && QuestionFits(p.questions[id])
  }

  /** ValidateAnswers accepts exactly the answer sets that answer each question, and no other, with
      an answer that fits it. */
  lemma AnswersExact(p: Compiled, answers: Answers)
    requires QuestionsFit(p)
    ensures AnswersAccepted(p, answers) <==>
            answers.Keys == p.questions.Keys && forall id | id in p.questions :: AnswerFits(p.questions[id], answers[id])
  {
    ListingLength(p.questionIDs, p.questions.Keys);
    hide AnswerAccepted, AnswerFits, QuestionFits;
    if AnswersAccepted(p, answers) {
      SubsetOfSameSize(p.questions.Keys, answers.Keys);
    }
    forall id | id in p.questions && id in answers
      ensures AnswerAccepted(p.questions[id], answers[id]) <==> AnswerFits(p.questions[id], answers[id])
    {
      AnswerExact(p.questions[id], answers[id]);
    }
  }

  lemma AnswerExact(q: CompiledQuestion, a: Answer)
    requires QuestionFits(q)
    ensures AnswerAccepted(q, a) <==> AnswerFits(q, a)
  {
    match q.questionType
    case ChoiceQuestion => ChoiceExact(q, a);
    case ScoreQuestion => ScoreExact(q, a);
    case _ => hide QuestionFits;
  }
}
