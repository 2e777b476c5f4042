/** The regular expressions of the name grammars, and the predicates that decide them. */
module NameGrammar {
  import opened Names
  import opened Decision

  /** A regular expression: one character of a class, one expression after another, or any number of
      repetitions. */
  datatype Pattern = One(member: char -> bool) | Then(first: Pattern, second: Pattern) | Many(body: Pattern)

  ghost predicate Accepts(p: Pattern, s: string)
    decreases p, |s|
  {
    match p
    case One(member) => |s| == 1 && member(s[0])
    case Then(first, second) => exists i | 0 <= i <= |s| :: Accepts(first, s[..i]) && Accepts(second, s[i..])
    case Many(body) => s == [] || exists i | 0 < i <= |s| :: Accepts(body, s[..i]) && Accepts(p, s[i..])
  }

  predicate DashedChar(c: char) {
    WordChar(c) || c == '-'
  }

  predicate Dot(c: char) {
    c == '.'
  }

  const IDENTIFIER := Then(One(Letter), Many(One(WordChar)))
  const DASHED_IDENTIFIER := Then(One(Letter), Many(One(DashedChar)))
  const FACT_NAME := Then(IDENTIFIER, Many(Then(One(Dot), IDENTIFIER)))

  lemma {:induction false} ManyOfClass(member: char -> bool, s: string)
    ensures Accepts(Many(One(member)), s) <==> forall j | 0 <= j < |s| :: member(s[j])
    decreases |s|
  {
    if s != [] {
      ManyOfClass(member, s[1..]);
      assert forall j | 0 < j < |s| :: s[j] == s[1..][j - 1];
      assert |s[..1]| == 1 && s[..1][0] == s[0];
    }
  }

  lemma LeadAndRest(lead: char -> bool, rest: char -> bool, s: string)
    ensures Accepts(Then(One(lead), Many(One(rest))), s) <==>
            s != [] && lead(s[0]) && forall j | 0 < j < |s| :: rest(s[j])
  {
    if s != [] {
      ManyOfClass(rest, s[1..]);
      assert forall j | 0 < j < |s| :: s[j] == s[1..][j - 1];
      assert Accepts(One(lead), s[..1]) <==> lead(s[0]);
      forall i | 0 <= i <= |s| && Accepts(One(lead), s[..i]) ensures i == 1 {}
    }
  }

  /** Identifiers and dashed identifiers are the names of at most 64 characters that match their
      regular expressions. */
  lemma IdentifiersExact(n: Name)
    ensures IsIdentifier(n) <==> |n.text| <= 64 && Accepts(IDENTIFIER, n.text)
    ensures IsDashedIdentifier(n) <==> |n.text| <= 64 && Accepts(DASHED_IDENTIFIER, n.text)
  {
    LeadAndRest(Letter, WordChar, n.text);
    LeadAndRest(Letter, DashedChar, n.text);
    assert forall j | 0 <= j < |n.text| :: n.text[j] in n.text;
  }

  /** Further segments: none, or a dot and what is again a fact name. */
  lemma FurtherSegments(s: string)
    ensures Accepts(Many(Then(One(Dot), IDENTIFIER)), s) <==> s == [] || (s[0] == '.' && Accepts(FACT_NAME, s[1..]))
  {
    var further := Many(Then(One(Dot), IDENTIFIER));
    if s != [] {
      forall i | 0 < i <= |s|
        ensures Accepts(Then(One(Dot), IDENTIFIER), s[..i]) <==> s[0] == '.' && Accepts(IDENTIFIER, s[1..][..i - 1])
      {
        DotThen(s[..i]);
        assert s[..i][1..] == s[1..][..i - 1];
      }
      forall i | 0 < i <= |s| ensures s[i..] == s[1..][i - 1..] {}
      if Accepts(further, s) {
        var i :| 0 < i <= |s| && Accepts(Then(One(Dot), IDENTIFIER), s[..i]) && Accepts(further, s[i..]);
        assert Accepts(IDENTIFIER, s[1..][..i - 1]) && Accepts(further, s[1..][i - 1..]);
      }
      if s[0] == '.' && Accepts(FACT_NAME, s[1..]) {
        var i :| 0 <= i <= |s[1..]| && Accepts(IDENTIFIER, s[1..][..i]) && Accepts(further, s[1..][i..]);
        assert Accepts(Then(One(Dot), IDENTIFIER), s[..i + 1]) && Accepts(further, s[i + 1..]);
      }
    }
  }

  lemma DotThen(s: string)
    requires s != []
    ensures Accepts(Then(One(Dot), IDENTIFIER), s) <==> s[0] == '.' && Accepts(IDENTIFIER, s[1..])
  {
    assert Accepts(One(Dot), s[..1]) <==> s[0] == '.';
    forall i | 0 <= i <= |s| && Accepts(One(Dot), s[..i]) ensures i == 1 {}
  }

  /** Where the first segment ends. */
  function FirstSegment(s: string): (n: nat)
    ensures n <= |s| && (forall j | 0 <= j < n :: s[j] != '.') && (n < |s| ==> s[n] == '.')
  {
    if s == [] || s[0] == '.' then 0 else 1 + FirstSegment(s[1..])
  }

  /** Joining a first segment and the rest. */
  lemma DottedSplits(s: string, i: nat)
    requires i <= |s| && (forall j | 0 <= j < i :: s[j] != '.') && (i < |s| ==> s[i] == '.')
    ensures Dotted(s) <==> Segment(s, i) && (i < |s| ==> Dotted(s[i + 1..]))
  {
    if Dotted(s) {
      assert FitsAt(s, 0);
      forall j | 0 < j < i ensures WordChar(s[j]) { assert FitsAt(s, j); }
    }
    if i < |s| {
      var rest := s[i + 1..];
      forall k | 0 <= k < |rest| ensures FitsAt(rest, k) <==> FitsAt(s, i + 1 + k) {}
      if Segment(s, i) && Dotted(rest) {
        forall j | 0 <= j < |s| ensures FitsAt(s, j) {
          assert j > i ==> FitsAt(rest, j - i - 1);
        }
      }
    } else if Segment(s, i) {
      forall j | 0 <= j < |s| ensures FitsAt(s, j) {}
    }
  }

  /** The first i characters are one segment. */
  predicate Segment(s: string, i: nat)
    requires i <= |s|
  {
    i > 0 && Letter(s[0]) && forall j | 0 < j < i :: WordChar(s[j])
  }

  lemma {:induction false} FactNamesMatch(s: string)
    ensures Accepts(FACT_NAME, s) <==> Dotted(s)
    decreases |s|
  {
    var further := Many(Then(One(Dot), IDENTIFIER));
    forall i | 0 <= i <= |s|
      ensures Accepts(IDENTIFIER, s[..i]) <==> Segment(s, i)
      ensures Accepts(further, s[i..]) <==> i == |s| || (s[i] == '.' && Accepts(FACT_NAME, s[i..][1..]))
    {
      LeadAndRest(Letter, WordChar, s[..i]);
      FurtherSegments(s[i..]);
    }
    forall i | 0 <= i < |s| ensures Accepts(FACT_NAME, s[i..][1..]) <==> Dotted(s[i + 1..]) {
      FactNamesMatch(s[i..][1..]);
      assert s[i..][1..] == s[i + 1..];
    }
    forall i | 0 <= i <= |s|
      ensures SegmentEnds(s, i) <==> Segment(s, i) && (i < |s| ==> s[i] == '.' && Dotted(s[i + 1..]))
    {}
    FactNamesSplit(s);
    hide Accepts, Dotted;
  }

  /** The first segment can end here: what comes before is one, what follows are further ones. */
  ghost predicate SegmentEnds(s: string, i: nat)
    requires i <= |s|
  {
    Accepts(IDENTIFIER, s[..i]) && Accepts(Many(Then(One(Dot), IDENTIFIER)), s[i..])
  }

  lemma FactNameEnds(s: string)
    ensures Accepts(FACT_NAME, s) <==> exists i | 0 <= i <= |s| :: SegmentEnds(s, i)
  {
    if Accepts(FACT_NAME, s) {
      var i :| 0 <= i <= |s| && Accepts(IDENTIFIER, s[..i]) && Accepts(Many(Then(One(Dot), IDENTIFIER)), s[i..]);
      assert SegmentEnds(s, i);
    }
  }

  lemma FactNamesSplit(s: string)
    requires forall i | 0 <= i <= |s| ::
               SegmentEnds(s, i) <==> Segment(s, i) && (i < |s| ==> s[i] == '.' && Dotted(s[i + 1..]))
    ensures Accepts(FACT_NAME, s) <==> Dotted(s)
  {
    hide Accepts, Dotted, FitsAt, SegmentEnds;
    FactNameEnds(s);
    if i :| 0 <= i <= |s| && SegmentEnds(s, i) {
      SegmentHasNoDot(s, i);
      DottedSplits(s, i);
    }
    if Dotted(s) {
      var i := FirstSegment(s);
      DottedSplits(s, i);
      assert SegmentEnds(s, i);
    }
  }

  lemma SegmentHasNoDot(s: string, i: nat)
    requires i <= |s| && Segment(s, i)
    ensures forall j | 0 <= j < i :: s[j] != '.'
  {}

  /** Fact names are the names of at most 128 characters that match theirs. */
  lemma FactNamesExact(n: Name)
    ensures IsFactName(n) <==> |n.text| <= 128 && Accepts(FACT_NAME, n.text)
  {
    hide Accepts;
    FactNamesMatch(n.text);
  }
}
