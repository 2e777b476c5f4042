/** Structured question values: instructions and criteria, bounded in nodes and in depth. */
module QuestionValue {
  import opened Names
  import opened Decision
  import opened Policy

  const MAX_QUESTION_VALUE_DEPTH := 16
  const MAX_QUESTION_VALUE_NODES := 512

  // ----- The tree a value is -----

  /** How many nodes a value has. */
  ghost function Size(v: Value): (n: nat)
    ensures n >= 1
    decreases v, 1, 0
  {
    match v
    case List(items) => 1 + ItemsSize(items)
    case Object(fields) => 1 + FieldsSize(v, fields.Keys)
    case _ => 1
  }

  ghost function ItemsSize(items: seq<Value>): nat
    decreases items, 0, 0
  {
    if items == [] then 0 else Size(items[0]) + ItemsSize(items[1..])
  }

  ghost function FieldsSize(v: Value, keys: set<Name>): nat
    requires v.Object? && keys <= v.fields.Keys
    decreases v, 0, |keys|
  {
    if keys == {} then 0 else var k :| k in keys; Size(v.fields[k]) + FieldsSize(v, keys - {k})
  }

  /** No path from the root has more than limit nodes. */
  ghost predicate HeightWithin(v: Value, limit: int)
    decreases v
  {
    && limit >= 1
    && match v
       case List(items) => forall i | 0 <= i < |items| :: HeightWithin(items[i], limit - 1)
       case Object(fields) => forall k | k in fields :: HeightWithin(fields[k], limit - 1)
       case _ => true
  }

  /** Every leaf is null, a text, a flag or a json.Number, as decoding JSON with UseNumber leaves it. */
  ghost predicate Supported(v: Value)
    decreases v
  {
    match v
    case Number(kind, _) => kind == JsonNumber
    case List(items) => forall i | 0 <= i < |items| :: Supported(items[i])
    case Object(fields) => forall k | k in fields :: Supported(fields[k])
    case _ => true
  }

  lemma {:induction false} FieldsSizeWithout(v: Value, keys: set<Name>, k: Name)
    requires v.Object? && keys <= v.fields.Keys && k in keys
    ensures FieldsSize(v, keys) == Size(v.fields[k]) + FieldsSize(v, keys - {k})
    decreases |keys|
  {
    var j :| j in keys && FieldsSize(v, keys) == Size(v.fields[j]) + FieldsSize(v, keys - {j});
    if j != k {
      FieldsSizeWithout(v, keys - {j}, k);
      FieldsSizeWithout(v, keys - {k}, j);
      assert keys - {j} - {k} == keys - {k} - {j};
    }
  }

  lemma {:induction false} ItemsSizeSplit(items: seq<Value>, i: nat)
    requires i <= |items|
    ensures ItemsSize(items) == ItemsSize(items[..i]) + ItemsSize(items[i..])
  {
    if i == 0 {
      assert items[..0] == [] && items[0..] == items;
    } else {
      ItemsSizeSplit(items[1..], i - 1);
      assert items[1..][..i - 1] == items[..i][1..];
      assert items[1..][i - 1..] == items[i..];
    }
  }

  lemma ItemsSizeNext(items: seq<Value>, i: nat)
    requires i < |items|
    ensures ItemsSize(items[..i + 1]) == ItemsSize(items[..i]) + Size(items[i])
    ensures ItemsSize(items[..i + 1]) <= ItemsSize(items)
  {
    ItemsSizeSplit(items[..i + 1], i);
    assert items[..i + 1][..i] == items[..i];
    assert items[..i + 1][i..] == [items[i]];
    assert ItemsSize([items[i]]) == Size(items[i]) by { assert [items[i]][1..] == []; }
    ItemsSizeSplit(items, i + 1);
  }

  // ----- The walk -----

  datatype ValueError = TooManyNodes | TooDeep | UnsupportedValue

  /** The node counter shared by one walk. */
  class Counter {
    var nodes: nat

    constructor ()
      ensures nodes == 0
    {
      nodes := 0;
    }
  }

  /** The value fits the room the counter and the depth leave. */
  ghost predicate Fits(v: Value, depth: nat, nodes: nat) {
    && nodes + Size(v) <= MAX_QUESTION_VALUE_NODES
    && HeightWithin(v, MAX_QUESTION_VALUE_DEPTH + 1 - depth)
    && Supported(v)
  }

  /** Accepts a value exactly when it fits, in whatever order a map yields its children, and on
      acceptance has counted every node once. */
  method ValidateQuestionValue(v: Value, depth: nat, counter: Counter) returns (error: Option<ValueError>)
    modifies counter
    ensures error.None? <==> Fits(v, depth, old(counter.nodes))
    ensures error.None? ==> counter.nodes == old(counter.nodes) + Size(v)
    decreases v, 1
  {
    counter.nodes := counter.nodes + 1;
    if counter.nodes > MAX_QUESTION_VALUE_NODES {
      error := Some(TooManyNodes);
    } else if depth > MAX_QUESTION_VALUE_DEPTH {
      error := Some(TooDeep);
    } else {
      match v
      case List(items) => error := ValidateItems(v, depth, counter);
      case Object(fields) => error := ValidateFields(v, depth, counter);
      case Number(kind, _) => error := if kind == JsonNumber then None else Some(UnsupportedValue);
      case _ => error := None;
    }
  }

  ghost predicate ItemsFit(items: seq<Value>, depth: nat) {
    forall i | 0 <= i < |items| :: HeightWithin(items[i], MAX_QUESTION_VALUE_DEPTH - depth) && Supported(items[i])
  }

  method ValidateItems(v: Value, depth: nat, counter: Counter) returns (error: Option<ValueError>)
    requires v.List? && counter.nodes <= MAX_QUESTION_VALUE_NODES
    modifies counter
    ensures error.None? <==>
            old(counter.nodes) + ItemsSize(v.items) <= MAX_QUESTION_VALUE_NODES && ItemsFit(v.items, depth)
    ensures error.None? ==> counter.nodes == old(counter.nodes) + ItemsSize(v.items)
    decreases v, 0
  {
    error := None;
    var i := 0;
    assert v.items[..0] == [];
    hide Size, HeightWithin, Supported;
    while i < |v.items| && error.None?
      invariant i <= |v.items|
      invariant error.None? ==> counter.nodes == old(counter.nodes) + ItemsSize(v.items[..i])
      invariant error.None? ==> ItemsFit(v.items[..i], depth)
      invariant error.None? ==> counter.nodes <= MAX_QUESTION_VALUE_NODES
      invariant error.Some? ==>
                old(counter.nodes) + ItemsSize(v.items) > MAX_QUESTION_VALUE_NODES || !ItemsFit(v.items, depth)
      decreases |v.items| - i, error.None?
    {
      error := ValidateQuestionValue(v.items[i], depth + 1, counter);
      ItemsSizeNext(v.items, i);
      if error.None? {
        i := i + 1;
      }
    }
    assert v.items[..|v.items|] == v.items;
  }

  ghost predicate FieldsFit(v: Value, keys: set<Name>, depth: nat)
    requires v.Object? && keys <= v.fields.Keys
  {
    forall k | k in keys :: HeightWithin(v.fields[k], MAX_QUESTION_VALUE_DEPTH - depth) && Supported(v.fields[k])
  }

  /** The children of a map, visited in any order. */
  method ValidateFields(v: Value, depth: nat, counter: Counter) returns (error: Option<ValueError>)
    requires v.Object? && counter.nodes <= MAX_QUESTION_VALUE_NODES
    modifies counter
    ensures error.None? <==>
            old(counter.nodes) + FieldsSize(v, v.fields.Keys) <= MAX_QUESTION_VALUE_NODES && FieldsFit(v, v.fields.Keys, depth)
    ensures error.None? ==> counter.nodes == old(counter.nodes) + FieldsSize(v, v.fields.Keys)
    decreases v, 0
  {
    error := None;
    var left := v.fields.Keys;
    hide FieldsSize, Size, HeightWithin, Supported;
    while left != {} && error.None?
      invariant left <= v.fields.Keys
      invariant error.None? ==>
                counter.nodes + FieldsSize(v, left) == old(counter.nodes) + FieldsSize(v, v.fields.Keys)
      invariant error.None? ==> FieldsFit(v, v.fields.Keys - left, depth)
      invariant error.None? ==> counter.nodes <= MAX_QUESTION_VALUE_NODES
      invariant error.Some? ==>
                || old(counter.nodes) + FieldsSize(v, v.fields.Keys) > MAX_QUESTION_VALUE_NODES
                || !FieldsFit(v, v.fields.Keys, depth)
      decreases |left|, error.None?
    {
      var k :| k in left;
      FieldsSizeWithout(v, left, k);
      error := ValidateQuestionValue(v.fields[k], depth + 1, counter);
      if error.None? {
        left := left - {k};
      }
    }
  }

  // ----- Normalizing -----

  /** The value as encoding and decoding it leaves it: every number is a json.Number. */
  function Normalized(v: Value): Value
    decreases v
  {
    match v
    case Number(_, number) => Number(JsonNumber, number)
    case List(items) => List(seq(|items|, i requires 0 <= i < |items| => Normalized(items[i])))
    case Object(fields) => Object(map k | k in fields :: Normalized(fields[k]))
    case _ => v
  }

  /** Normalizing keeps the tree's shape, leaves nothing unsupported behind, and is idempotent. */
  lemma {:induction false} NormalizedKeepsShape(v: Value)
    ensures Supported(Normalized(v))
    ensures Size(Normalized(v)) == Size(v)
    ensures forall limit :: HeightWithin(Normalized(v), limit) <==> HeightWithin(v, limit)
    ensures Normalized(Normalized(v)) == Normalized(v)
    decreases v, 1
  {
    match v
    case List(items) =>
      var w := Normalized(v);
      forall i | 0 <= i < |items|
        ensures Supported(w.items[i]) && Normalized(w.items[i]) == w.items[i]
        ensures Size(w.items[i]) == Size(items[i])
        ensures forall limit :: HeightWithin(w.items[i], limit) <==> HeightWithin(items[i], limit)
      {
        NormalizedKeepsShape(items[i]);
      }
      SameItemsSize(w.items, items);
      assert Normalized(w).items == w.items;
    case Object(fields) =>
      var w := Normalized(v);
      forall k | k in fields
        ensures Supported(w.fields[k]) && Normalized(w.fields[k]) == w.fields[k]
        ensures Size(w.fields[k]) == Size(fields[k])
        ensures forall limit :: HeightWithin(w.fields[k], limit) <==> HeightWithin(fields[k], limit)
      {
        NormalizedKeepsShape(fields[k]);
      }
      assert w.fields.Keys == fields.Keys;
      SameFieldsSize(w, v, fields.Keys);
      assert Normalized(w).fields == w.fields;
    case _ =>
  }

  /** The same value, whatever Go types hold its numbers: equal numbers, texts and flags in equal
      places, list by list and member by member. */
  ghost predicate SameValue(a: Value, b: Value)
    decreases a
  {
    match a
    case Null => b.Null?
    case Text(text) => b.Text? && b.text == text
    case Flag(flag) => b.Flag? && b.flag == flag
    case Number(_, number) => b.Number? && b.number == number
    case List(items) => b.List? && |b.items| == |items| && forall i | 0 <= i < |items| :: SameValue(items[i], b.items[i])
    case Object(fields) => b.Object? && b.fields.Keys == fields.Keys && forall k | k in fields :: SameValue(fields[k], b.fields[k])
  }

  /** Two values normalize alike exactly when they are the same value. */
  lemma {:induction false} NormalizedTellsApart(a: Value, b: Value)
    ensures Normalized(a) == Normalized(b) <==> SameValue(a, b)
    decreases a
  {
    match a
    case List(items) =>
      if b.List? && |b.items| == |items| {
        forall i | 0 <= i < |items| ensures Normalized(items[i]) == Normalized(b.items[i]) <==> SameValue(items[i], b.items[i]) {
          NormalizedTellsApart(items[i], b.items[i]);
        }
        assert forall i | 0 <= i < |items| ::
            Normalized(a).items[i] == Normalized(items[i]) && Normalized(b).items[i] == Normalized(b.items[i]);
        ListsEqual(Normalized(a), Normalized(b));
      } else if b.List? {
        assert |Normalized(a).items| == |items| && |Normalized(b).items| == |b.items|;
      }
    case Object(fields) =>
      if b.Object? && b.fields.Keys == fields.Keys {
        forall k | k in fields ensures Normalized(fields[k]) == Normalized(b.fields[k]) <==> SameValue(fields[k], b.fields[k]) {
          NormalizedTellsApart(fields[k], b.fields[k]);
        }
        assert forall k | k in fields ::
            Normalized(a).fields[k] == Normalized(fields[k]) && Normalized(b).fields[k] == Normalized(b.fields[k]);
        assert Normalized(a).fields.Keys == fields.Keys && Normalized(b).fields.Keys == b.fields.Keys;
        ObjectsEqual(Normalized(a), Normalized(b));
      } else if b.Object? {
        assert Normalized(a).fields.Keys == fields.Keys && Normalized(b).fields.Keys == b.fields.Keys;
      }
    case _ =>
  }

  lemma ListsEqual(a: Value, b: Value)
    requires a.List? && b.List? && |a.items| == |b.items|
    ensures a == b <==> forall i | 0 <= i < |a.items| :: a.items[i] == b.items[i]
  {}

  lemma ObjectsEqual(a: Value, b: Value)
    requires a.Object? && b.Object? && a.fields.Keys == b.fields.Keys
    ensures a == b <==> forall k | k in a.fields :: a.fields[k] == b.fields[k]
  {
    if forall k | k in a.fields :: a.fields[k] == b.fields[k] {
      assert a.fields == b.fields;
    }
  }

  /** Normalizing keeps the value: every text, flag and number stays where it was. */
  lemma NormalizedIsSameValue(v: Value)
    ensures SameValue(v, Normalized(v))
  {
    NormalizedKeepsShape(v);
    NormalizedTellsApart(v, Normalized(v));
  }

  lemma {:induction false} SameItemsSize(a: seq<Value>, b: seq<Value>)
    requires |a| == |b| && forall i | 0 <= i < |a| :: Size(a[i]) == Size(b[i])
    ensures ItemsSize(a) == ItemsSize(b)
  {
    if a != [] {
      SameItemsSize(a[1..], b[1..]);
    }
  }

  lemma {:induction false} SameFieldsSize(a: Value, b: Value, keys: set<Name>)
    requires a.Object? && b.Object? && keys <= a.fields.Keys && keys <= b.fields.Keys
    requires forall k | k in keys :: Size(a.fields[k]) == Size(b.fields[k])
    ensures FieldsSize(a, keys) == FieldsSize(b, keys)
    decreases |keys|
  {
    if k :| k in keys {
      FieldsSizeWithout(a, keys, k);
      FieldsSizeWithout(b, keys, k);
      SameFieldsSize(a, b, keys - {k});
    }
  }

  /** A question value the policy may carry: null where that is allowed, else a text, list or
      object of at most 512 nodes and at most 16 levels. */
  ghost predicate Normalizable(raw: Value, allowNull: bool) {
    if raw.Null? then allowNull
    else
      && (raw.Text? || raw.List? || raw.Object?)
      && Size(raw) <= MAX_QUESTION_VALUE_NODES && HeightWithin(raw, MAX_QUESTION_VALUE_DEPTH)
  }

  method NormalizeQuestionValue(raw: Value, allowNull: bool) returns (r: Result<Value>)
    ensures r.Ok? <==> Normalizable(raw, allowNull)
    ensures r.Ok? ==> r.value == Normalized(raw)
    ensures r.Err? ==> r.error == InvalidQuestion
  {
    r := Err(InvalidQuestion);
    if raw.Null? {
      if allowNull {
        r := Ok(Null);
      }
    } else {
      var normalized := Normalized(raw);
      NormalizedKeepsShape(raw);
      if normalized.Text? || normalized.List? || normalized.Object? {
        var counter := new Counter();
        var error := ValidateQuestionValue(normalized, 1, counter);
        if error.None? {
          r := Ok(normalized);
        }
      }
    }
  }
}
