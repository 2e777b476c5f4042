/** The vocabulary policies, providers and callers share: untyped values, facts and answers. */
module Decision {
  import opened Names

  datatype Option<T> = None | Some(value: T)

  // ----- Untyped values -----

  /** The Go representation a number arrived in. JsonNumber is json.Number, whose literal text is
      a function of the exact number; Uint64 is what YAML makes of very large integers. */
  datatype NumberKind = Float64 | Float32 | Int | Int32 | Int64 | Uint64 | JsonNumber

  /** A Go value of type any as the YAML and JSON decoders produce it; Null is nil. */
  datatype Value =
    | Null
    | Text(text: Name)
    | Flag(flag: bool)
    | Number(kind: NumberKind, number: real)
    | List(items: seq<Value>)
    | Object(fields: map<Name, Value>)

  /** Only five of the representations count as numbers. */
  function AsNumber(v: Value): Option<real> {
    if v.Number? && v.kind !in {Uint64, JsonNumber} then Some(v.number) else None
  }

  datatype ScalarKind = NumberScalar | TextScalar | FlagScalar | NoScalar

  function KindOf(v: Value): ScalarKind {
    if AsNumber(v).Some? then NumberScalar
    else if v.Text? then TextScalar
    else if v.Flag? then FlagScalar
    else NoScalar
  }

  // ----- Bounded identifiers -----

  const MAX_IDENTIFIER_LENGTH := 64
  const MAX_FACT_NAME_LENGTH := 128

  predicate Letter(c: char) {
    'A' <= c <= 'Z' || 'a' <= c <= 'z'
  }

  predicate WordChar(c: char) {
    Letter(c) || '0' <= c <= '9' || c == '_'
  }

  predicate IsIdentifier(n: Name) {
    0 < |n.text| <= MAX_IDENTIFIER_LENGTH && Letter(n.text[0]) && forall c | c in n.text :: WordChar(c)
  }

  predicate IsDashedIdentifier(n: Name) {
    0 < |n.text| <= MAX_IDENTIFIER_LENGTH && Letter(n.text[0]) && forall c | c in n.text :: WordChar(c) || c == '-'
  }

  /** A letter at the start and after a dot, elsewhere a word character or a dot. */
  predicate FitsAt(s: string, i: nat)
    requires i < |s|
  {
    if i == 0 || s[i - 1] == '.' then Letter(s[i]) else WordChar(s[i]) || s[i] == '.'
  }

  /** Segments that start with a letter, separated by single dots. */
  predicate Dotted(s: string) {
    s != [] && s[|s| - 1] != '.' && forall i | 0 <= i < |s| :: FitsAt(s, i)
  }

  predicate IsFactName(n: Name) {
    |n.text| <= MAX_FACT_NAME_LENGTH && Dotted(n.text)
  }

  // ----- Declared types -----

  datatype QuestionType = ChoiceQuestion | ScoreQuestion | NoulQuestion | UnknownQuestion(text: Name)

  datatype FactType = StringFact | BooleanFact | NumberFact | UnknownFact(text: Name)

  datatype AnswerField =
    | NoField
    | ChoiceField
    | ScoreField
    | NoulField
    | ConfidenceField
    | ProbabilityField
    | UnknownField(text: Name)

  predicate FieldIsValid(f: AnswerField) {
    !f.NoField? && !f.UnknownField?
  }

  predicate AvailableOn(f: AnswerField, t: QuestionType) {
    match t
    case ChoiceQuestion => f in {ChoiceField, ConfidenceField, ProbabilityField}
    case ScoreQuestion => f in {ScoreField, ConfidenceField, ProbabilityField}
    case NoulQuestion => f == NoulField
    case UnknownQuestion(_) => false
  }

  predicate FactMatches(t: FactType, v: Value) {
    match t
    case StringFact => v.Text?
    case BooleanFact => v.Flag?
    case NumberFact => AsNumber(v).Some?
    case UnknownFact(_) => false
  }

  type Facts = map<Name, Value>

  // ----- Answers -----

  datatype Answer = Answer(
    questionType: QuestionType,
    choice: Name,
    score: real,
    noul: real,
    confidence: real,
    hasConfidence: bool,
    probabilities: map<Name, real>,
    legend: map<Name, Value>)

  type Answers = map<Name, Answer>

  function Float(r: real): Value {
    Number(Float64, r)
  }

  function Field(a: Answer, f: AnswerField): Option<Value> {
    if !AvailableOn(f, a.questionType) then None
    else
      match f
      case ChoiceField => Some(Text(a.choice))
      case ScoreField => Some(Float(a.score))
      case NoulField => Some(Float(a.noul))
      case ConfidenceField => if a.hasConfidence then Some(Float(a.confidence)) else None
      case _ => None
  }

  function Probability(a: Answer, key: Name): Option<Value> {
    if AvailableOn(ProbabilityField, a.questionType) && key in a.probabilities
    then Some(Float(a.probabilities[key]))
    else None
  }

  // ----- Decimal level indexes -----

  const MAX_INT := 0x7fff_ffff_ffff_ffff

  function Digits(n: nat): (s: string)
    ensures s != [] && forall c | c in s :: '0' <= c <= '9'
    ensures s[0] == '0' ==> n == 0 && |s| == 1
  {
    var last := '0' + (n % 10) as char;
    if n < 10 then [last] else Digits(n / 10) + [last]
  }

  /** strconv.Itoa on the non-negative ints. */
  function Itoa(n: nat): Name {
    Name(Digits(n))
  }

  function ParseDigits(s: string): Option<nat> {
    if s == [] then Some(0)
    else
      var last := s[|s| - 1];
      var front := ParseDigits(s[..|s| - 1]);
      if front.None? || !('0' <= last <= '9') then None
      else Some(10 * front.value + (last - '0') as nat)
  }

  /** strconv.Atoi: an optional sign, decimal digits, the range of a 64-bit int. */
  function Atoi(n: Name): Option<int> {
    var signed := n.text != [] && n.text[0] in {'-', '+'};
    var digits := if signed then n.text[1..] else n.text;
    var parsed := ParseDigits(digits);
    if digits == [] || parsed.None? then None
    else if signed && n.text[0] == '-' then (if parsed.value <= MAX_INT + 1 then Option<int>.Some(-(parsed.value as int)) else None)
    else if parsed.value <= MAX_INT then Option<int>.Some(parsed.value) else None
  }

  lemma {:induction false} ParseRoundTrip(n: nat)
    ensures ParseDigits(Digits(n)) == Some(n)
  {
    if n >= 10 {
      ParseRoundTrip(n / 10);
      var s := Digits(n);
      assert s[..|s| - 1] == Digits(n / 10);
    } else {
      assert Digits(n)[..0] == [];
    }
  }

  /** A canonical level index: it parses to a non-negative int whose rendering it is. */
  predicate IsLevelIndex(n: Name) {
    Atoi(n).Some? && Atoi(n).value >= 0 && Itoa(Atoi(n).value) == n
  }

  /** The canonical level indexes are exactly the renderings of the non-negative ints. */
  lemma LevelIndexes(n: Name)
    ensures IsLevelIndex(n) <==> exists level: nat :: level <= MAX_INT && Itoa(level) == n
    ensures forall level: nat | level <= MAX_INT && Itoa(level) == n :: Atoi(n) == Some(level)
  {
    forall level: nat | level <= MAX_INT && Itoa(level) == n ensures Atoi(n) == Some(level) {
      ParseRoundTrip(level);
      assert Digits(level)[0] in Digits(level);
    }
  }

  /** The levels of a score, at most ten of them, are named by single digits. */
  lemma LevelNames(level: nat)
    requires level < 10
    ensures Itoa(level) == Name(["0123456789"[level]])
  {}

  lemma ItoaInjective(a: nat, b: nat)
    requires Itoa(a) == Itoa(b)
    ensures a == b
  {
    ParseRoundTrip(a);
    ParseRoundTrip(b);
  }
}
