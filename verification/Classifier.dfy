/** Rule-table classification and the cost-based fallback (recovery/classifier.py). */
module Classifiers {
  import opened Models

  /** The key fields, most informative first. */
  datatype Field = Reason | StepField | Source | Method

  datatype Key = Key(
    rail: Option<string>,
    source: Option<string>,
    step: Option<string>,
    reason: Option<string>,
    sourceDocumented: bool)
  {
    function At(f: Field): Option<string> {
      match f
      case Reason => reason
      case StepField => step
      case Source => source
      case Method => rail
    }
  }

  /** A rule as written in the file; its index is its position there. */
  datatype Entry = Entry(
    fields: map<Field, string>,
    failureClass: FailureClass,
    confidence: real,
    causeFamily: Option<string>,
    deliberatelyLow: bool)
  {
    function Names(f: Field): nat {
      if f in fields then 1 else 0
    }

    /** The precedence tuple. */
    function Precedence(): seq<nat> {
      [Names(Reason), Names(StepField), Names(Source), Names(Method)]
    }

    /** An omitted field is a wildcard; a named one must equal the key's. */
    predicate Matches(key: Key) {
      forall f :: f in fields ==> key.At(f) == Some(fields[f])
    }

    predicate ConflictsWith(other: Entry) {
      && Precedence() == other.Precedence()
      && forall f :: f in fields && f in other.fields ==> fields[f] == other.fields[f]
    }

    predicate SameOutcome(other: Entry) {
      failureClass == other.failureClass && confidence == other.confidence
    }
  }

  /** A rule knows its place in the file. */
  datatype Rule = Rule(index: nat, entry: Entry)

  /** Lexicographic order of precedence tuples. */
  predicate Above(p: seq<nat>, q: seq<nat>)
    requires |p| == |q|
  {
    p != [] && (p[0] > q[0] || (p[0] == q[0] && Above(p[1..], q[1..])))
  }

  // ---------------------------------------------------------------- conflicts --

  lemma SamePrecedenceSameFields(a: Entry, b: Entry)
    ensures a.Precedence() == b.Precedence() <==> a.fields.Keys == b.fields.Keys
  {
    var p, q := a.Precedence(), b.Precedence();
    if p == q {
      assert p[0] == q[0] && p[1] == q[1] && p[2] == q[2] && p[3] == q[3];
      forall f: Field
        ensures f in a.fields <==> f in b.fields
      {
        assert f == Reason || f == StepField || f == Source || f == Method;
      }
    }
  }

  /** The key that names exactly what a rule asks for. */
  function Witness(e: Entry): Key {
    Key(Named(e, Method), Named(e, Source), Named(e, StepField), Named(e, Reason), true)
  }

  function Named(e: Entry, f: Field): Option<string> {
    if f in e.fields then Some(e.fields[f]) else None
  }

  /** `conflicts_with` is exactly "some key matches both at the same precedence"; and since the
      precedence names the fields, that is exactly "they ask for the same thing". */
  lemma ConflictsIff(a: Entry, b: Entry)
    ensures a.ConflictsWith(b) <==> a.Precedence() == b.Precedence() && exists key :: a.Matches(key) && b.Matches(key)
    ensures a.ConflictsWith(b) <==> a.fields == b.fields
  {
    SamePrecedenceSameFields(a, b);
    if a.ConflictsWith(b) {
      assert a.fields == b.fields;
      assert a.Matches(Witness(a));
      assert b.Matches(Witness(a));
    }
  }

  predicate Unambiguous(rules: seq<Entry>) {
    forall i, j :: 0 <= i < j < |rules| && rules[i].ConflictsWith(rules[j]) ==> rules[i].SameOutcome(rules[j])
  }

  /** Load-time validation: the first conflicting pair with different outcomes, if any. */
  method RejectAmbiguous(rules: seq<Entry>) returns (clash: Option<(nat, nat)>)
    ensures clash.None? <==> Unambiguous(rules)
    ensures clash.Some? ==>
              var (i, j) := clash.value;
              i < j < |rules| && rules[i].ConflictsWith(rules[j]) && !rules[i].SameOutcome(rules[j])
  {
    for i := 0 to |rules|
      invariant forall k, j :: 0 <= k < i && k < j < |rules| && rules[k].ConflictsWith(rules[j]) ==>
                                 rules[k].SameOutcome(rules[j])
    {
      for j := i + 1 to |rules|
        invariant forall k :: i < k < j && rules[i].ConflictsWith(rules[k]) ==> rules[i].SameOutcome(rules[k])
      {
        if rules[i].ConflictsWith(rules[j]) && !rules[i].SameOutcome(rules[j]) {
          return Some((i, j));
        }
      }
    }
    return None;
  }

  // ------------------------------------------------------------------ the costs --

  /** cost[true][predicted], and what a contact costs. */
  datatype CostModel = CostModel(
    misclassification: map<(FailureClass, FailureClass), real>,
    contact: map<FailureClass, real>)
  {
    function Cost(truth: FailureClass, predicted: FailureClass): real {
      if (truth, predicted) in misclassification then misclassification[(truth, predicted)] else 0.0
    }

    function WorstCase(predicted: FailureClass): real {
      Max(Max(Cost(Infrastructure, predicted), Cost(Liquidity, predicted)),
          Max(Cost(Attention, predicted), Cost(Terminal, predicted)))
    }

    function Total(predicted: FailureClass): real {
      Cost(Infrastructure, predicted) + Cost(Liquidity, predicted) + Cost(Attention, predicted) + Cost(Terminal, predicted)
    }

    /** (worst case, total, name), compared lexicographically. */
    predicate Safer(a: FailureClass, b: FailureClass) {
      || WorstCase(a) < WorstCase(b)
      || (WorstCase(a) == WorstCase(b) && Total(a) < Total(b))
      || (WorstCase(a) == WorstCase(b) && Total(a) == Total(b) && NameRank(a) < NameRank(b))
    }

    function Pick(a: FailureClass, b: FailureClass): FailureClass {
      if Safer(b, a) then b else a
    }

    function SafestClass(): FailureClass {
      Pick(Pick(Pick(Infrastructure, Liquidity), Attention), Terminal)
    }
  }

  function Max(a: real, b: real): real {
    if a >= b then a else b
  }

  /** Alphabetical order of the class names. */
  function NameRank(c: FailureClass): nat {
    match c
    case Attention => 0
    case Infrastructure => 1
    case Liquidity => 2
    case Terminal => 3
  }

  /** The fallback is the minimax choice: nothing is safer, so no class has a smaller worst case, and
      the choice does not depend on the order in which classes are tried. */
  lemma SafestIsMinimax(m: CostModel, c: FailureClass, truth: FailureClass)
    ensures !m.Safer(c, m.SafestClass())
    ensures c != m.SafestClass() ==> m.Safer(m.SafestClass(), c)
    ensures m.Cost(truth, m.SafestClass()) <= m.WorstCase(c)
  {
    assert m.WorstCase(m.SafestClass()) <= m.WorstCase(c);
    match truth
    case Infrastructure =>
    case Liquidity =>
    case Attention =>
    case Terminal =>
  }

  // ------------------------------------------------------------ classification --

  datatype Table = Table(
    rules: seq<Entry>,
    highThreshold: real,
    moderateThreshold: real,
    fallbackConfidence: real)
  {
    function BandFor(confidence: real): ConfidenceBand {
      if confidence >= highThreshold then High
      else if confidence >= moderateThreshold then Moderate
      else Low
    }
  }

  datatype Classification = Classification(
    failureClass: FailureClass,
    confidence: real,
    band: ConfidenceBand,
    mapped: bool,
    ruleIndex: Option<nat>,
    costResolvedFrom: Option<FailureClass>,
    sourceUndocumented: bool,
    causeFamily: Option<string>,
    deliberatelyLow: bool)

  function RulesOf(entries: seq<Entry>): seq<Rule> {
    seq(|entries|, i requires 0 <= i < |entries| => Rule(i, entries[i]))
  }

  /** The sort key: precedence, highest first, then index. */
  predicate TriedBefore(a: Rule, b: Rule) {
    || Above(a.entry.Precedence(), b.entry.Precedence())
    || (a.entry.Precedence() == b.entry.Precedence() && a.index <= b.index)
  }

  function InsertRule(rules: seq<Rule>, r: Rule): seq<Rule> {
    if rules == [] || TriedBefore(rules[|rules| - 1], r) then rules + [r]
    else InsertRule(rules[..|rules| - 1], r) + [rules[|rules| - 1]]
  }

  function Sorted(rules: seq<Rule>): seq<Rule> {
    if rules == [] then [] else InsertRule(Sorted(rules[..|rules| - 1]), rules[|rules| - 1])
  }

  function FirstMatch(rules: seq<Rule>, key: Key): Option<Rule> {
    if rules == [] then None
    else if rules[0].entry.Matches(key) then Some(rules[0])
    else FirstMatch(rules[1..], key)
  }

  function FromRule(t: Table, costs: CostModel, rule: Rule, undocumented: bool): Classification {
    var e := rule.entry;
    var band := t.BandFor(e.confidence);
    Classification(if band == Low then costs.SafestClass() else e.failureClass, e.confidence, band, true, Some(rule.index),
                   if band == Low then Some(e.failureClass) else None, undocumented, e.causeFamily, e.deliberatelyLow)
  }

  function Fallback(t: Table, costs: CostModel, undocumented: bool): Classification {
    Classification(costs.SafestClass(), t.fallbackConfidence, t.BandFor(t.fallbackConfidence), false, None, None,
                   undocumented, None, false)
  }

  /** The rule a key is classified by. */
  function Chosen(entries: seq<Entry>, key: Key): Option<Rule> {
    FirstMatch(Sorted(RulesOf(entries)), key)
  }

  function Classify(t: Table, costs: CostModel, key: Key): Classification {
    var rule := Chosen(t.rules, key);
    if rule.Some? then FromRule(t, costs, rule.value, !key.sourceDocumented) else Fallback(t, costs, !key.sourceDocumented)
  }

  /** The lookup of the classifier: the first rule, in sorted order, that matches. */
  method ClassifyKey(t: Table, costs: CostModel, key: Key) returns (c: Classification)
    ensures c == Classify(t, costs, key)
    ensures c.band == Low ==> c.failureClass == costs.SafestClass()
  {
    var rules := Sorted(RulesOf(t.rules));
    assert rules[0..] == rules;
    for k := 0 to |rules|
      invariant Chosen(t.rules, key) == FirstMatch(rules[k..], key)
    {
      assert rules[k..][1..] == rules[k + 1..];
      if rules[k].entry.Matches(key) {
        return FromRule(t, costs, rules[k], !key.sourceDocumented);
      }
    }
    return Fallback(t, costs, !key.sourceDocumented);
  }

  // --------------------------------------------------------- what sorting gives --

  /** The tuple read as a number. */
  function Rank(e: Entry): nat {
    8 * e.Names(Reason) + 4 * e.Names(StepField) + 2 * e.Names(Source) + e.Names(Method)
  }

  /** Comparing tuples position by position is comparing those numbers. */
  lemma PrecedenceIsRank(a: Entry, b: Entry)
    ensures Above(a.Precedence(), b.Precedence()) <==> Rank(a) > Rank(b)
    ensures a.Precedence() == b.Precedence() <==> Rank(a) == Rank(b)
  {
    var p, q := a.Precedence(), b.Precedence();
    assert p[1..] == [p[1], p[2], p[3]] && q[1..] == [q[1], q[2], q[3]];
    AboveThree(p[1], p[2], p[3], q[1], q[2], q[3]);
    assert Above(p, q) <==> p[0] > q[0] || (p[0] == q[0] && Above(p[1..], q[1..]));
    if Rank(a) == Rank(b) {
      assert p[0] == q[0] && p[1] == q[1] && p[2] == q[2] && p[3] == q[3];
    }
  }

  lemma AboveThree(a: nat, b: nat, c: nat, x: nat, y: nat, z: nat)
    ensures Above([a, b, c], [x, y, z]) <==> a > x || (a == x && (b > y || (b == y && c > z)))
  {
    assert [a, b, c][1..] == [b, c] && [x, y, z][1..] == [y, z];
    assert [b, c][1..] == [c] && [y, z][1..] == [z];
    assert Above([c], [z]) <==> c > z;
  }

  ghost predicate RankBefore(a: Rule, b: Rule) {
    Rank(a.entry) > Rank(b.entry) || (Rank(a.entry) == Rank(b.entry) && a.index <= b.index)
  }

  ghost predicate InOrder(rules: seq<Rule>) {
    forall a, b :: 0 <= a < b < |rules| ==> RankBefore(rules[a], rules[b])
  }

  lemma {:induction false} InsertKeepsOrder(rules: seq<Rule>, r: Rule)
    requires InOrder(rules)
    ensures InOrder(InsertRule(rules, r))
    ensures forall x :: x in InsertRule(rules, r) <==> x in rules || x == r
  {
    if rules != [] {
      var front, last := rules[..|rules| - 1], rules[|rules| - 1];
      assert rules == front + [last];
      PrecedenceIsRank(last.entry, r.entry);
      if !TriedBefore(last, r) {
        InsertKeepsOrder(front, r);
        var inner := InsertRule(front, r);
        forall a | 0 <= a < |inner|
          ensures RankBefore(inner[a], last)
        {
          assert inner[a] in inner;
        }
      }
    }
  }

  lemma {:induction false} SortedIsOrdered(rules: seq<Rule>)
    ensures InOrder(Sorted(rules))
    ensures forall x :: x in Sorted(rules) <==> x in rules
  {
    if rules != [] {
      var front, last := rules[..|rules| - 1], rules[|rules| - 1];
      assert rules == front + [last];
      SortedIsOrdered(front);
      InsertKeepsOrder(Sorted(front), last);
    }
  }

  lemma {:induction false} FirstMatchIsBest(rules: seq<Rule>, key: Key)
    requires InOrder(rules)
    ensures var best := FirstMatch(rules, key);
            && (best.Some? ==> best.value in rules && best.value.entry.Matches(key))
            && forall r :: r in rules && r.entry.Matches(key) ==> best.Some? && RankBefore(best.value, r)
  {
    if rules != [] {
      assert rules == [rules[0]] + rules[1..];
      FirstMatchIsBest(rules[1..], key);
      forall r | r in rules[1..]
        ensures RankBefore(rules[0], r)
      {
        var b :| 0 <= b < |rules[1..]| && rules[1..][b] == r;
        assert rules[b + 1] == r;
      }
    }
  }

  lemma RulesOfSpec(entries: seq<Entry>, r: Rule)
    ensures r in RulesOf(entries) <==> r.index < |entries| && entries[r.index] == r.entry
  {
    if r.index < |entries| {
      assert RulesOf(entries)[r.index] == Rule(r.index, entries[r.index]);
    }
  }

  /** The rule chosen for a key matches it, and no matching rule has a higher precedence or, at the
      same precedence, an earlier place; none is chosen exactly when none matches. */
  lemma ChosenIsBest(entries: seq<Entry>, key: Key)
    ensures var best := Chosen(entries, key);
            && (best.Some? ==> best.value.index < |entries| && best.value.entry == entries[best.value.index]
                               && best.value.entry.Matches(key))
            && forall j :: 0 <= j < |entries| && entries[j].Matches(key) ==>
                             best.Some? && RankBefore(best.value, Rule(j, entries[j]))
  {
    SortedIsOrdered(RulesOf(entries));
    FirstMatchIsBest(Sorted(RulesOf(entries)), key);
    if Chosen(entries, key).Some? {
      RulesOfSpec(entries, Chosen(entries, key).value);
    }
    forall j | 0 <= j < |entries| && entries[j].Matches(key)
      ensures Chosen(entries, key).Some? && RankBefore(Chosen(entries, key).value, Rule(j, entries[j]))
    {
      RulesOfSpec(entries, Rule(j, entries[j]));
    }
  }

  // ------------------------------------------------- declaration-order independence --

  /** Two rules of an unambiguous table that match one key at one precedence have one outcome. */
  lemma SameRankSameOutcome(rules: seq<Entry>, a: Entry, b: Entry, key: Key)
    requires Unambiguous(rules) && a in rules && b in rules
    requires a.Matches(key) && b.Matches(key) && Rank(a) == Rank(b)
    ensures a.SameOutcome(b)
  {
    PrecedenceIsRank(a, b);
    ConflictsIff(a, b);
    ConflictsIff(b, a);
    var i :| 0 <= i < |rules| && rules[i] == a;
    var j :| 0 <= j < |rules| && rules[j] == b;
    if i < j {
      assert rules[i].ConflictsWith(rules[j]);
    } else if j < i {
      assert rules[j].ConflictsWith(rules[i]);
    }
  }

  lemma SameElements(xs: seq<Entry>, ys: seq<Entry>, e: Entry)
    requires multiset(xs) == multiset(ys)
    ensures e in xs <==> e in ys
  {
    assert e in multiset(xs) <==> e in multiset(ys);
  }

  /** Whoever is chosen in one order ranks no higher than whoever is chosen in another. */
  lemma ChosenRanks(xs: seq<Entry>, ys: seq<Entry>, key: Key)
    requires multiset(xs) == multiset(ys) && Chosen(xs, key).Some?
    ensures Chosen(ys, key).Some?
    ensures Rank(Chosen(xs, key).value.entry) <= Rank(Chosen(ys, key).value.entry)
  {
    ChosenIsBest(xs, key);
    ChosenIsBest(ys, key);
    var e := Chosen(xs, key).value.entry;
    SameElements(xs, ys, e);
    var j :| 0 <= j < |ys| && ys[j] == e;
  }

  /** Everything downstream branches on: class, confidence and band (and what they came from). */
  predicate SameVerdict(a: Classification, b: Classification) {
    && a.failureClass == b.failureClass && a.confidence == b.confidence && a.band == b.band
    && a.mapped == b.mapped && a.costResolvedFrom == b.costResolvedFrom && a.sourceUndocumented == b.sourceUndocumented
  }

  /** Any reordering of an accepted table classifies every key the same way. */
  lemma DeclarationOrderIsIrrelevant(t: Table, ys: seq<Entry>, costs: CostModel, key: Key)
    requires Unambiguous(t.rules) && multiset(t.rules) == multiset(ys)
    ensures SameVerdict(Classify(t, costs, key), Classify(t.(rules := ys), costs, key))
  {
    var xs := t.rules;
    if Chosen(xs, key).Some? {
      ChosenRanks(xs, ys, key);
      ChosenRanks(ys, xs, key);
      ChosenIsBest(xs, key);
      ChosenIsBest(ys, key);
      var a, b := Chosen(xs, key).value.entry, Chosen(ys, key).value.entry;
      SameElements(xs, ys, b);
      SameRankSameOutcome(xs, a, b, key);
    } else if Chosen(ys, key).Some? {
      ChosenRanks(ys, xs, key);
    }
  }

  /** A rule that ranks above another names a field the other does not, so it cannot match a key
      that carries only the other's fields. */
  lemma OnlyItsOwnRankMatches(a: Entry, e: Entry)
    requires e.Matches(Witness(a))
    ensures Rank(e) <= Rank(a)
    ensures Rank(e) == Rank(a) ==> e.fields == a.fields
  {
    assert forall f :: f in e.fields ==> f in a.fields && e.fields[f] == a.fields[f];
    assert e.Names(Reason) <= a.Names(Reason) && e.Names(StepField) <= a.Names(StepField);
    assert e.Names(Source) <= a.Names(Source) && e.Names(Method) <= a.Names(Method);
    PrecedenceIsRank(a, e);
    SamePrecedenceSameFields(a, e);
  }

  /** At the witness of `a`, the table chooses its first rule with the fields of `a`. */
  lemma WitnessChoosesFirst(rules: seq<Entry>, a: Entry, k: nat)
    requires k < |rules| && rules[k].fields == a.fields
    requires forall i :: 0 <= i < k ==> rules[i].fields != a.fields
    ensures Chosen(rules, Witness(a)) == Some(Rule(k, rules[k]))
  {
    ChosenIsBest(rules, Witness(a));
    assert rules[k].Matches(Witness(a));
    var best := Chosen(rules, Witness(a)).value;
    assert RankBefore(best, Rule(k, rules[k]));
    OnlyItsOwnRankMatches(a, best.entry);
    assert a.Precedence() == rules[k].Precedence() by {
      SamePrecedenceSameFields(a, rules[k]);
    }
    PrecedenceIsRank(a, rules[k]);
  }

  lemma FirstWithFields(rules: seq<Entry>, i: nat) returns (k: nat)
    requires i < |rules|
    ensures k <= i && rules[k].fields == rules[i].fields
    ensures forall j :: 0 <= j < k ==> rules[j].fields != rules[i].fields
  {
    k := 0;
    while rules[k].fields != rules[i].fields
      invariant k <= i && forall j :: 0 <= j < k ==> rules[j].fields != rules[i].fields
      decreases i - k
    {
      k := k + 1;
    }
  }

  lemma SwapKeepsElements(xs: seq<Entry>, k: nat, m: nat)
    requires k < m < |xs|
    ensures multiset(xs[k := xs[m]][m := xs[k]]) == multiset(xs)
  {
  }

  /** What an ambiguous pair costs: some reordering changes the verdict on some key. */
  lemma AmbiguityDependsOnOrder(t: Table, costs: CostModel, i: nat, j: nat) returns (ys: seq<Entry>, key: Key)
    requires i < j < |t.rules| && t.rules[i].ConflictsWith(t.rules[j]) && !t.rules[i].SameOutcome(t.rules[j])
    ensures multiset(ys) == multiset(t.rules)
    ensures !SameVerdict(Classify(t, costs, key), Classify(t.(rules := ys), costs, key))
  {
    var xs := t.rules;
    ConflictsIff(xs[i], xs[j]);
    var k := FirstWithFields(xs, i);
    var m := if xs[k].SameOutcome(xs[i]) then j else i;
    assert !xs[k].SameOutcome(xs[m]) && k < m;
    key, ys := Witness(xs[i]), xs[k := xs[m]][m := xs[k]];
    WitnessChoosesFirst(xs, xs[i], k);
    WitnessChoosesFirst(ys, xs[i], k);
    SwapKeepsElements(xs, k, m);
  }

  /** The load-time check accepts exactly the tables whose verdicts do not depend on the order of
      their rules. */
  lemma UnambiguousIffOrderIrrelevant(t: Table, costs: CostModel)
    ensures Unambiguous(t.rules) <==>
            forall ys, key :: multiset(ys) == multiset(t.rules) ==>
                                SameVerdict(Classify(t, costs, key), Classify(t.(rules := ys), costs, key))
  {
    if Unambiguous(t.rules) {
      forall ys: seq<Entry>, key | multiset(ys) == multiset(t.rules)
        ensures SameVerdict(Classify(t, costs, key), Classify(t.(rules := ys), costs, key))
      {
        DeclarationOrderIsIrrelevant(t, ys, costs, key);
      }
    } else {
      var i, j :| 0 <= i < j < |t.rules| && t.rules[i].ConflictsWith(t.rules[j]) && !t.rules[i].SameOutcome(t.rules[j]);
      var ys, key := AmbiguityDependsOnOrder(t, costs, i, j);
    }
  }

  /** The cause family is not covered by that: it is independent of rule order exactly when
      conflicting rules agree on it too, which the load-time check does not ask. */
  lemma CauseFamilyIffOrderIrrelevant(t: Table, costs: CostModel)
    ensures (forall i, j :: 0 <= i < j < |t.rules| && t.rules[i].ConflictsWith(t.rules[j]) ==>
                              t.rules[i].causeFamily == t.rules[j].causeFamily) <==>
            forall ys, key :: multiset(ys) == multiset(t.rules) ==>
                                Classify(t, costs, key).causeFamily == Classify(t.(rules := ys), costs, key).causeFamily
  {
    if forall i, j :: 0 <= i < j < |t.rules| && t.rules[i].ConflictsWith(t.rules[j]) ==>
                        t.rules[i].causeFamily == t.rules[j].causeFamily {
      forall ys: seq<Entry>, key | multiset(ys) == multiset(t.rules)
        ensures Classify(t, costs, key).causeFamily == Classify(t.(rules := ys), costs, key).causeFamily
      {
        CauseFamilyKept(t, ys, costs, key);
      }
    } else {
      var i, j :| 0 <= i < j < |t.rules| && t.rules[i].ConflictsWith(t.rules[j])
                  && t.rules[i].causeFamily != t.rules[j].causeFamily;
      var ys, key := CauseFamilyChanged(t, costs, i, j);
    }
  }

  lemma CauseFamilyKept(t: Table, ys: seq<Entry>, costs: CostModel, key: Key)
    requires forall i, j :: 0 <= i < j < |t.rules| && t.rules[i].ConflictsWith(t.rules[j]) ==>
                              t.rules[i].causeFamily == t.rules[j].causeFamily
    requires multiset(t.rules) == multiset(ys)
    ensures Classify(t, costs, key).causeFamily == Classify(t.(rules := ys), costs, key).causeFamily
  {
    var xs := t.rules;
    if Chosen(xs, key).Some? {
      ChosenRanks(xs, ys, key);
      ChosenRanks(ys, xs, key);
      ChosenIsBest(xs, key);
      ChosenIsBest(ys, key);
      var a, b := Chosen(xs, key).value.entry, Chosen(ys, key).value.entry;
      SameElements(xs, ys, b);
      PrecedenceIsRank(a, b);
      ConflictsIff(a, b);
      ConflictsIff(b, a);
      var i :| 0 <= i < |xs| && xs[i] == a;
      var j :| 0 <= j < |xs| && xs[j] == b;
      assert i < j ==> xs[i].ConflictsWith(xs[j]);
      assert j < i ==> xs[j].ConflictsWith(xs[i]);
    } else if Chosen(ys, key).Some? {
      ChosenRanks(ys, xs, key);
    }
  }

  lemma CauseFamilyChanged(t: Table, costs: CostModel, i: nat, j: nat) returns (ys: seq<Entry>, key: Key)
    requires i < j < |t.rules| && t.rules[i].ConflictsWith(t.rules[j]) && t.rules[i].causeFamily != t.rules[j].causeFamily
    ensures multiset(ys) == multiset(t.rules)
    ensures Classify(t, costs, key).causeFamily != Classify(t.(rules := ys), costs, key).causeFamily
  {
    var xs := t.rules;
    ConflictsIff(xs[i], xs[j]);
    var k := FirstWithFields(xs, i);
    var m := if xs[k].causeFamily != xs[i].causeFamily then i else j;
    assert xs[k].causeFamily != xs[m].causeFamily && k < m;
    key, ys := Witness(xs[i]), xs[k := xs[m]][m := xs[k]];
    WitnessChoosesFirst(xs, xs[i], k);
    WitnessChoosesFirst(ys, xs[i], k);
    SwapKeepsElements(xs, k, m);
  }

  /** Two rules that the loader accepts in either order, and that differ in the cause family alone. */
  lemma CauseFamilyDependsOnOrder(a: Entry, b: Entry, t: Table, costs: CostModel, key: Key)
    requires a.fields == b.fields && a.SameOutcome(b) && a.causeFamily != b.causeFamily
    requires a.Matches(key)
    ensures Unambiguous([a, b]) && Unambiguous([b, a])
    ensures Classify(t.(rules := [a, b]), costs, key).causeFamily != Classify(t.(rules := [b, a]), costs, key).causeFamily
  {
    FirstOfTwo(a, b, key);
    FirstOfTwo(b, a, key);
  }

  lemma FirstOfTwo(a: Entry, b: Entry, key: Key)
    requires a.fields == b.fields && a.Matches(key)
    ensures Chosen([a, b], key) == Some(Rule(0, a))
  {
    ChosenIsBest([a, b], key);
    assert [a, b][0].Matches(key);
    assert RankBefore(Chosen([a, b], key).value, Rule(0, a));
  }
}
