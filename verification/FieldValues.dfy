/** Validation of extracted values and their provenance (app/tenants/field_values.py). */
module FieldValues {
  import opened Values
  import opened Profiles

  const MAX_SHORT_TEXT_CHARS := 500
  const MAX_LONG_TEXT_CHARS := 10_000
  const MAX_ADDRESS_CHARS := 1_000
  const MAX_PHONE_CHARS := 50
  const MAX_EMAIL_CHARS := 320

  datatype FieldSource = Body | Document

  datatype ProposalValue = ProposalValue(
    name: string, value: Value, source: Option<FieldSource>, excerpt: Option<string>)

  /** What a value is checked against: the profile's fields and the trusted texts. */
  datatype Evidence = Evidence(
    fields: map<string, FieldDefinition>, body: string, document: Option<string>)

  datatype Validated = Validated(values: map<string, Value>, invalid: set<string>)

  predicate Present(rules: Rules, v: Value) {
    match v
    case One(Null) => false
    case One(Str(s)) => !rules.blank(s)
    case Many(xs) => xs != []
    case _ => true
  }

  predicate ValidString(rules: Rules, v: Value, maximum: nat) {
    v.One? && v.scalar.Str? && !rules.blank(v.scalar.s) && |v.scalar.s| <= maximum
  }

  /** Whether the value is one the field's type admits; an admitted value is kept as it is. */
  predicate Accepts(rules: Rules, v: Value, d: FieldDefinition) {
    var options := if d.options.Some? then d.options.value else [];
    match d.kind
    case ShortText => ValidString(rules, v, MAX_SHORT_TEXT_CHARS)
    case LongText => ValidString(rules, v, MAX_LONG_TEXT_CHARS)
    case Email => ValidString(rules, v, MAX_EMAIL_CHARS) && rules.email(v.scalar.s)
    case Phone => ValidString(rules, v, MAX_PHONE_CHARS) && rules.phone(v.scalar.s)
    case Address => ValidString(rules, v, MAX_ADDRESS_CHARS)
    case DateTime => v.One? && v.scalar.Str? && !rules.blank(v.scalar.s) && rules.dateTime(v.scalar.s)
    case Number => v.One? && (v.scalar.Int? || v.scalar.Flt?)
    case Boolean => v.One? && v.scalar.Bool?
    case SingleSelect => v.One? && v.scalar.Str? && v.scalar.s in options
    case MultiSelect =>
      && v.Many? && v.items != []
      && (forall x <- v.items :: x.Str? && x.s in options)
      && NoDuplicates(v.items)
  }

  /** The sources that confirm an item, in the order they are recorded. */
  function SourceCandidates(item: ProposalValue, body: string, document: Option<string>): seq<FieldSource> {
    if document.None? then
      if item.source == Some(Document) then []
      else if item.excerpt.Some? && !Contains(body, item.excerpt.value) then []
      else [Body]
    else if item.source.Some? then
      if item.excerpt.None? then []
      else
        var text := if item.source.value == Body then body else document.value;
        if Contains(text, item.excerpt.value) then [item.source.value] else []
    else if item.excerpt.None? then []
    else
      (if Contains(body, item.excerpt.value) then [Body] else [])
      + (if Contains(document.value, item.excerpt.value) then [Document] else [])
  }

  predicate Considered(rules: Rules, e: Evidence, item: ProposalValue) {
    item.name in e.fields && Present(rules, item.value)
  }

  predicate Refused(rules: Rules, e: Evidence, item: ProposalValue) {
    && Considered(rules, e, item)
    && (SourceCandidates(item, e.body, e.document) == [] || !Accepts(rules, item.value, e.fields[item.name]))
  }

  /** Whether source `src` confirms this item for field `name` with a value of the field's type. */
  predicate Confirms(rules: Rules, e: Evidence, item: ProposalValue, name: string, src: FieldSource) {
    && item.name == name
    && Considered(rules, e, item)
    && src in SourceCandidates(item, e.body, e.document)
    && Accepts(rules, item.value, e.fields[name])
  }

  /** All values `src` confirms for `name`, in proposal order. */
  function Confirmed(rules: Rules, e: Evidence, items: seq<ProposalValue>, name: string, src: FieldSource): seq<Value> {
    if items == [] then []
    else
      var last := items[|items| - 1];
      Confirmed(rules, e, items[..|items| - 1], name, src)
      + (if Confirms(rules, e, last, name, src) then [last.value] else [])
  }

  /** The simple specification: the first confirmed body value, else the first document value. */
  function Choose(rules: Rules, e: Evidence, items: seq<ProposalValue>, name: string): Option<Value> {
    var fromBody := Confirmed(rules, e, items, name, Body);
    var fromDocument := Confirmed(rules, e, items, name, Document);
    if fromBody != [] then Some(fromBody[0])
    else if fromDocument != [] then Some(fromDocument[0])
    else None
  }

  function Names(items: seq<ProposalValue>): set<string> {
    set item <- items :: item.name
  }

  function Resolve(rules: Rules, e: Evidence, items: seq<ProposalValue>): Validated {
    Validated(
      map name | name in Names(items) && Choose(rules, e, items, name).Some?
        :: Choose(rules, e, items, name).value,
      set item | item in items && Refused(rules, e, item) :: item.name)
  }

  // ---------------------------------------------------------------- the loop

  datatype Choice = Choice(source: FieldSource, value: Value)

  /** The recorded values of one source, in order. */
  function ValuesFrom(choices: seq<Choice>, src: FieldSource): seq<Value> {
    if choices == [] then []
    else
      var last := choices[|choices| - 1];
      ValuesFrom(choices[..|choices| - 1], src) + (if last.source == src then [last.value] else [])
  }

  function Only(choices: seq<Choice>, src: FieldSource): seq<Choice> {
    if choices == [] then []
    else
      var last := choices[|choices| - 1];
      Only(choices[..|choices| - 1], src) + (if last.source == src then [last] else [])
  }

  /** A stable sort by source, body entries first. */
  function BodyFirst(choices: seq<Choice>): seq<Choice> {
    Only(choices, Body) + Only(choices, Document)
  }

  lemma ValuesOfAppended(choices: seq<Choice>, more: Choice, src: FieldSource)
    ensures ValuesFrom(choices + [more], src)
         == ValuesFrom(choices, src) + (if more.source == src then [more.value] else [])
  {
    assert (choices + [more])[..|choices|] == choices;
  }

  lemma {:induction false} FirstOfSource(choices: seq<Choice>, src: FieldSource)
    ensures |Only(choices, src)| == |ValuesFrom(choices, src)|
    ensures Only(choices, src) != [] ==> Only(choices, src)[0].value == ValuesFrom(choices, src)[0]
  {
    if choices != [] {
      FirstOfSource(choices[..|choices| - 1], src);
    }
  }

  lemma {:induction false} EveryChoiceHasASource(choices: seq<Choice>)
    ensures choices != [] ==> Only(choices, Body) != [] || Only(choices, Document) != []
  {
    if choices != [] {
      assert choices[|choices| - 1].source == Body || choices[|choices| - 1].source == Document;
    }
  }

  /** Sorting body-first and taking the head picks the first body value, else the first document value. */
  lemma SortedHead(choices: seq<Choice>)
    requires choices != []
    ensures BodyFirst(choices) != []
    ensures var fromBody, fromDocument := ValuesFrom(choices, Body), ValuesFrom(choices, Document);
      && (fromBody == [] ==> fromDocument != [])
      && BodyFirst(choices)[0].value == if fromBody != [] then fromBody[0] else fromDocument[0]
  {
    FirstOfSource(choices, Body);
    FirstOfSource(choices, Document);
    EveryChoiceHasASource(choices);
  }

  /** `append` in the inner loop: one entry per confirming source. */
  method Record(choices: seq<Choice>, sources: seq<FieldSource>, v: Value) returns (r: seq<Choice>)
    requires NoDuplicates(sources)
    ensures |r| == |choices| + |sources|
    ensures forall src :: ValuesFrom(r, src) == ValuesFrom(choices, src) + (if src in sources then [v] else [])
  {
    r := choices;
    for i := 0 to |sources|
      invariant |r| == |choices| + i
      invariant forall src ::
        ValuesFrom(r, src) == ValuesFrom(choices, src) + (if src in sources[..i] then [v] else [])
    {
      assert sources[..i + 1] == sources[..i] + [sources[i]];
      ValuesOfAppended(r, Choice(sources[i], v), Body);
      ValuesOfAppended(r, Choice(sources[i], v), Document);
      r := r + [Choice(sources[i], v)];
    }
    assert sources[..|sources|] == sources;
  }

  ghost predicate Recorded(rules: Rules, e: Evidence, items: seq<ProposalValue>, candidates: map<string, seq<Choice>>) {
    && (forall name <- candidates :: candidates[name] != [] && name in Names(items))
    && (forall name, src ::
          Confirmed(rules, e, items, name, src)
          == if name in candidates then ValuesFrom(candidates[name], src) else [])
  }

  lemma RecordedAfter(rules: Rules, e: Evidence, items: seq<ProposalValue>, item: ProposalValue,
                      before: map<string, seq<Choice>>, after: map<string, seq<Choice>>)
    requires Recorded(rules, e, items, before)
    requires after.Keys <= before.Keys + {item.name}
    requires forall name <- after :: after[name] != []
    requires forall name, src ::
      (if name in after then ValuesFrom(after[name], src) else [])
      == (if name in before then ValuesFrom(before[name], src) else [])
         + (if Confirms(rules, e, item, name, src) then [item.value] else [])
    ensures Recorded(rules, e, items + [item], after)
  {
    assert (items + [item])[..|items|] == items;
    assert Names(items) <= Names(items + [item]) && item.name in Names(items + [item]);
  }

  method CollectCandidates(rules: Rules, e: Evidence, items: seq<ProposalValue>)
    returns (candidates: map<string, seq<Choice>>, invalid: set<string>)
    ensures Recorded(rules, e, items, candidates)
    ensures invalid == Resolve(rules, e, items).invalid
  {
    candidates, invalid := map[], {};
    for i := 0 to |items|
      invariant invalid == set item | item in items[..i] && Refused(rules, e, item) :: item.name
      invariant Recorded(rules, e, items[..i], candidates)
    {
      var item := items[i];
      ghost var before := candidates;
      assert items[..i + 1] == items[..i] + [item];
      if item.name in e.fields && Present(rules, item.value) {
        var sources := SourceCandidates(item, e.body, e.document);
        if sources == [] {
          invalid := invalid + {item.name};
        } else if !Accepts(rules, item.value, e.fields[item.name]) {
          invalid := invalid + {item.name};
        } else {
          var known := if item.name in candidates then candidates[item.name] else [];
          var grown := Record(known, sources, item.value);
          candidates := candidates[item.name := grown];
        }
      }
      RecordedAfter(rules, e, items[..i], item, before, candidates);
    }
    assert items[..|items|] == items;
  }

  lemma ChosenFromRecorded(rules: Rules, e: Evidence, items: seq<ProposalValue>, candidates: map<string, seq<Choice>>)
    requires Recorded(rules, e, items, candidates)
    ensures forall name :: Choose(rules, e, items, name).Some? <==> name in candidates
    ensures forall name <- candidates ::
      (BodyFirst(candidates[name]) != []
       && Choose(rules, e, items, name) == Some(BodyFirst(candidates[name])[0].value))
    ensures Resolve(rules, e, items).values.Keys == candidates.Keys
  {
    forall name <- candidates ensures BodyFirst(candidates[name]) != []
      && Choose(rules, e, items, name) == Some(BodyFirst(candidates[name])[0].value)
    {
      SortedHead(candidates[name]);
    }
  }

  /** Each value is the first of its candidates, body entries first. */
  predicate Heads(candidates: map<string, seq<Choice>>, values: map<string, Value>) {
    && values.Keys <= candidates.Keys
    && (forall name <- values ::
          BodyFirst(candidates[name]) != [] && values[name] == BodyFirst(candidates[name])[0].value)
  }

  lemma HeadsResolve(rules: Rules, e: Evidence, items: seq<ProposalValue>, candidates: map<string, seq<Choice>>,
                     values: map<string, Value>)
    requires Recorded(rules, e, items, candidates) && Heads(candidates, values) && values.Keys == candidates.Keys
    ensures values == Resolve(rules, e, items).values
  {
    ChosenFromRecorded(rules, e, items, candidates);
  }

  /** The second loop: sort each field's candidates body-first and keep the first. */
  method TakeHeads(candidates: map<string, seq<Choice>>) returns (values: map<string, Value>)
    requires forall name <- candidates :: candidates[name] != []
    ensures Heads(candidates, values) && values.Keys == candidates.Keys
  {
    values := map[];
    var left := candidates.Keys;
    while left != {}
      invariant left <= candidates.Keys
      invariant values.Keys == candidates.Keys - left
      invariant Heads(candidates, values)
    {
      var name :| name in left;
      SortedHead(candidates[name]);
      values := values[name := BodyFirst(candidates[name])[0].value];
      left := left - {name};
    }
  }

  /** The source's validation loops compute the simple specification. */
  method ValidateProposalFields(rules: Rules, e: Evidence, items: seq<ProposalValue>) returns (r: Validated)
    ensures r == Resolve(rules, e, items)
  {
    var candidates, invalid := CollectCandidates(rules, e, items);
    var values := TakeHeads(candidates);
    HeadsResolve(rules, e, items, candidates, values);
    r := Validated(values, invalid);
  }

  // ---------------------------------------------------------------- order of the proposal

  lemma {:induction false} ConfirmedMember(rules: Rules, e: Evidence, items: seq<ProposalValue>, name: string,
                                           src: FieldSource, v: Value)
    ensures v in Confirmed(rules, e, items, name, src)
       <==> exists item <- items :: Confirms(rules, e, item, name, src) && item.value == v
  {
    if items != [] {
      var n := |items| - 1;
      ConfirmedMember(rules, e, items[..n], name, src, v);
      assert items == items[..n] + [items[n]];
    }
  }

  lemma {:induction false} ConfirmedOfAppended(rules: Rules, e: Evidence, a: seq<ProposalValue>,
                                               b: seq<ProposalValue>, name: string, src: FieldSource)
    ensures Confirmed(rules, e, a + b, name, src)
         == Confirmed(rules, e, a, name, src) + Confirmed(rules, e, b, name, src)
  {
    if b == [] {
      assert a + b == a;
    } else {
      var n := |b| - 1;
      assert (a + b)[..|a + b| - 1] == a + b[..n];
      ConfirmedOfAppended(rules, e, a, b[..n], name, src);
    }
  }

  predicate AllEqual<T(==)>(xs: seq<T>) {
    forall x <- xs :: x == xs[0]
  }

  /** The source whose confirmed values decide a field. */
  function Deciding(rules: Rules, e: Evidence, items: seq<ProposalValue>, name: string): FieldSource {
    if Confirmed(rules, e, items, name, Body) != [] then Body else Document
  }

  /** No field has two different values that its deciding source both confirms. */
  ghost predicate Unambiguous(rules: Rules, e: Evidence, items: seq<ProposalValue>) {
    forall name :: AllEqual(Confirmed(rules, e, items, name, Deciding(rules, e, items, name)))
  }

  ghost predicate OrderIrrelevant(rules: Rules, e: Evidence, items: seq<ProposalValue>) {
    forall other: seq<ProposalValue> | multiset(other) == multiset(items) ::
      Resolve(rules, e, other) == Resolve(rules, e, items)
  }

  lemma SameMembers(a: seq<ProposalValue>, b: seq<ProposalValue>)
    requires multiset(a) == multiset(b)
    ensures forall x :: x in a <==> x in b
  {
    forall x ensures x in a <==> x in b {
      assert x in a <==> x in multiset(a);
      assert x in b <==> x in multiset(b);
    }
  }

  lemma BothEmpty<T>(xs: seq<T>, ys: seq<T>)
    requires forall v :: v in xs <==> v in ys
    ensures xs == [] <==> ys == []
  {
    if xs != [] {
      assert xs[0] in ys;
    }
    if ys != [] {
      assert ys[0] in xs;
    }
  }

  lemma SameConfirmed(rules: Rules, e: Evidence, a: seq<ProposalValue>, b: seq<ProposalValue>, name: string,
                      src: FieldSource)
    requires forall x :: x in a <==> x in b
    ensures forall v :: v in Confirmed(rules, e, a, name, src) <==> v in Confirmed(rules, e, b, name, src)
    ensures Confirmed(rules, e, a, name, src) == [] <==> Confirmed(rules, e, b, name, src) == []
  {
    var fromA, fromB := Confirmed(rules, e, a, name, src), Confirmed(rules, e, b, name, src);
    forall v ensures v in Confirmed(rules, e, a, name, src) <==> v in Confirmed(rules, e, b, name, src) {
      ConfirmedMember(rules, e, a, name, src, v);
      ConfirmedMember(rules, e, b, name, src, v);
    }
    BothEmpty(fromA, fromB);
  }

  lemma UnambiguousChoice(rules: Rules, e: Evidence, a: seq<ProposalValue>, b: seq<ProposalValue>, name: string)
    requires forall x :: x in a <==> x in b
    requires Unambiguous(rules, e, a)
    ensures Choose(rules, e, a, name) == Choose(rules, e, b, name)
  {
    SameConfirmed(rules, e, a, b, name, Body);
    SameConfirmed(rules, e, a, b, name, Document);
    var aBody, bBody := Confirmed(rules, e, a, name, Body), Confirmed(rules, e, b, name, Body);
    var aDoc, bDoc := Confirmed(rules, e, a, name, Document), Confirmed(rules, e, b, name, Document);
    assert AllEqual(Confirmed(rules, e, a, name, Deciding(rules, e, a, name)));
    if aBody != [] {
      assert aBody[0] in bBody;
      assert bBody[0] in aBody;
    } else if aDoc != [] {
      assert aDoc[0] in bDoc;
      assert bDoc[0] in aDoc;
    }
  }

  /** Moving an item to the front keeps the proposal a permutation of itself. */
  lemma MovedToFront(items: seq<ProposalValue>, k: nat)
    requires k < |items|
    ensures multiset([items[k]] + items[..k] + items[k + 1..]) == multiset(items)
  {
    assert items == items[..k] + [items[k]] + items[k + 1..];
  }

  lemma FrontDecides(rules: Rules, e: Evidence, items: seq<ProposalValue>, k: nat, name: string, src: FieldSource)
    requires k < |items| && Confirms(rules, e, items[k], name, src)
    ensures var moved := [items[k]] + items[..k] + items[k + 1..];
      Confirmed(rules, e, moved, name, src) != [] && Confirmed(rules, e, moved, name, src)[0] == items[k].value
  {
    var rest := items[..k] + items[k + 1..];
    assert [items[k]] + items[..k] + items[k + 1..] == [items[k]] + rest;
    ConfirmedOfAppended(rules, e, [items[k]], rest, name, src);
    assert [items[k]][..0] == [];
    assert Confirmed(rules, e, [items[k]], name, src) == [items[k].value];
  }

  lemma ReorderedChoice(rules: Rules, e: Evidence, items: seq<ProposalValue>, k: nat, name: string)
    requires k < |items| && Confirms(rules, e, items[k], name, Deciding(rules, e, items, name))
    ensures Choose(rules, e, [items[k]] + items[..k] + items[k + 1..], name) == Some(items[k].value)
  {
    var moved := [items[k]] + items[..k] + items[k + 1..];
    MovedToFront(items, k);
    FrontDecides(rules, e, items, k, name, Deciding(rules, e, items, name));
    SameMembers(moved, items);
    SameConfirmed(rules, e, moved, items, name, Body);
  }

  /** If the deciding source confirms two different values, some reordering changes the result. */
  lemma AmbiguousOrderMatters(rules: Rules, e: Evidence, items: seq<ProposalValue>, name: string)
    requires !AllEqual(Confirmed(rules, e, items, name, Deciding(rules, e, items, name)))
    ensures !OrderIrrelevant(rules, e, items)
  {
    var src := Deciding(rules, e, items, name);
    var confirmed := Confirmed(rules, e, items, name, src);
    var v :| v in confirmed && v != confirmed[0];
    ConfirmedMember(rules, e, items, name, src, v);
    var item :| item in items && Confirms(rules, e, item, name, src) && item.value == v;
    var k :| 0 <= k < |items| && items[k] == item;
    var moved := [items[k]] + items[..k] + items[k + 1..];
    MovedToFront(items, k);
    ReorderedChoice(rules, e, items, k, name);
    assert moved[0].name == name && name in Names(moved);
    assert Resolve(rules, e, moved).values[name] == v;
    assert item.name == name && name in Names(items);
    assert Resolve(rules, e, items).values[name] == confirmed[0];
  }

  /** The result is the same for every order of the fields exactly when no field is ambiguous. */
  lemma OrderIrrelevantIff(rules: Rules, e: Evidence, items: seq<ProposalValue>)
    ensures OrderIrrelevant(rules, e, items) <==> Unambiguous(rules, e, items)
  {
    if Unambiguous(rules, e, items) {
      forall other: seq<ProposalValue> | multiset(other) == multiset(items)
        ensures Resolve(rules, e, other) == Resolve(rules, e, items)
      {
        SameMembers(other, items);
        assert Names(other) == Names(items);
        forall name ensures Choose(rules, e, other, name) == Choose(rules, e, items, name) {
          UnambiguousChoice(rules, e, items, other, name);
        }
        assert Resolve(rules, e, other).invalid == Resolve(rules, e, items).invalid;
      }
    } else {
      var name :| !AllEqual(Confirmed(rules, e, items, name, Deciding(rules, e, items, name)));
      AmbiguousOrderMatters(rules, e, items, name);
    }
  }

  /** What the proposal contract checks: one item per (name, source). */
  predicate UniqueIdentities(items: seq<ProposalValue>) {
    forall i, j :: 0 <= i < j < |items| ==> (items[i].name, items[i].source) != (items[j].name, items[j].source)
  }

  predicate NoMixedSourcing(items: seq<ProposalValue>) {
    forall x <- items, y <- items :: x.name == y.name ==> (x.source.None? <==> y.source.None?)
  }

  lemma LabelIsTheSource(item: ProposalValue, body: string, document: Option<string>, src: FieldSource)
    requires src in SourceCandidates(item, body, document) && item.source.Some?
    ensures item.source == Some(src)
  {
    if document.None? {
      assert SourceCandidates(item, body, document) == [Body];
      assert item.source.value != Document;
    } else {
      assert SourceCandidates(item, body, document) == [item.source.value];
    }
  }

  lemma UnmixedItems(rules: Rules, e: Evidence, items: seq<ProposalValue>, x: ProposalValue, y: ProposalValue,
                     name: string, src: FieldSource)
    requires UniqueIdentities(items) && NoMixedSourcing(items) && x in items && y in items
    requires Confirms(rules, e, x, name, src) && Confirms(rules, e, y, name, src)
    ensures x == y
  {
    if x.source.Some? {
      LabelIsTheSource(x, e.body, e.document, src);
      LabelIsTheSource(y, e.body, e.document, src);
    }
    var i :| 0 <= i < |items| && items[i] == x;
    var j :| 0 <= j < |items| && items[j] == y;
    assert (items[i].name, items[i].source) == (items[j].name, items[j].source);
  }

  lemma UnmixedValues(rules: Rules, e: Evidence, items: seq<ProposalValue>, name: string, src: FieldSource, v: Value,
                      u: Value)
    requires UniqueIdentities(items) && NoMixedSourcing(items)
    requires v in Confirmed(rules, e, items, name, src) && u in Confirmed(rules, e, items, name, src)
    ensures v == u
  {
    ConfirmedMember(rules, e, items, name, src, v);
    ConfirmedMember(rules, e, items, name, src, u);
    var x :| x in items && Confirms(rules, e, x, name, src) && x.value == v;
    var y :| y in items && Confirms(rules, e, y, name, src) && y.value == u;
    UnmixedItems(rules, e, items, x, y, name, src);
  }

  /** Unless a field mixes labelled and unlabelled items, the order of the proposal is irrelevant. */
  lemma UnmixedIsUnambiguous(rules: Rules, e: Evidence, items: seq<ProposalValue>)
    requires UniqueIdentities(items) && NoMixedSourcing(items)
    ensures Unambiguous(rules, e, items)
    ensures OrderIrrelevant(rules, e, items)
  {
    forall name ensures AllEqual(Confirmed(rules, e, items, name, Deciding(rules, e, items, name))) {
      var src := Deciding(rules, e, items, name);
      var confirmed := Confirmed(rules, e, items, name, src);
      forall v <- confirmed ensures v == confirmed[0] {
        UnmixedValues(rules, e, items, name, src, v, confirmed[0]);
      }
    }
    OrderIrrelevantIff(rules, e, items);
  }

  /** Mixing them makes it matter: two body-confirmed values of one field. */
  lemma MixedSourcingCanDependOnOrder(rules: Rules)
    requires !rules.blank("a") && !rules.blank("b")
    ensures var e := Evidence(map["n" := FieldDefinition(ShortText, None)], "", None);
      var items := [ProposalValue("n", One(Str("a")), None, None), ProposalValue("n", One(Str("b")), Some(Body), None)];
      UniqueIdentities(items) && !OrderIrrelevant(rules, e, items)
  {
    var e := Evidence(map["n" := FieldDefinition(ShortText, None)], "", None);
    var first := ProposalValue("n", One(Str("a")), None, None);
    var second := ProposalValue("n", One(Str("b")), Some(Body), None);
    var items := [first, second];
    assert items[..1] == [first] && [first][..0] == [];
    assert Confirmed(rules, e, [first], "n", Body) == [One(Str("a"))];
    var confirmed := Confirmed(rules, e, items, "n", Body);
    assert confirmed == [One(Str("a")), One(Str("b"))];
    assert confirmed[1] in confirmed;
    AmbiguousOrderMatters(rules, e, items, "n");
  }

  // ---------------------------------------------------------------- what is accepted, and on whose word

  /** A trusted text vouches for an item unless the item names the other one. The body also vouches for an item without
      an excerpt, but only while there is no attachment; the attachment never does. */
  predicate Vouches(e: Evidence, item: ProposalValue, src: FieldSource) {
    && (item.source.None? || item.source == Some(src))
    && (match src
        case Body => if item.excerpt.Some? then Contains(e.body, item.excerpt.value) else e.document.None?
        case Document => e.document.Some? && item.excerpt.Some? && Contains(e.document.value, item.excerpt.value))
  }

  /** A value that says nothing. */
  predicate Blank(rules: Rules, v: Value) {
    v == One(Null) || v == Many([]) || (v.One? && v.scalar.Str? && rules.blank(v.scalar.s))
  }

  /** What a text must be for a field of that kind. */
  predicate AdmitsText(rules: Rules, d: FieldDefinition, text: string) {
    match d.kind
    case ShortText => |text| <= 500
    case LongText => |text| <= 10_000
    case Address => |text| <= 1_000
    case Email => |text| <= 320 && rules.email(text)
    case Phone => |text| <= 50 && rules.phone(text)
    case DateTime => rules.dateTime(text)
    case SingleSelect => d.options.Some? && text in d.options.value
    case _ => false
  }

  /** What a field may hold, by the shape of the value: a boolean is no number, only a choice of several is a list. */
  predicate Admits(rules: Rules, d: FieldDefinition, v: Value) {
    match v
    case One(Null) => false
    case One(Bool(_)) => d.kind == Boolean
    case One(Int(_)) => d.kind == Number
    case One(Flt(_)) => d.kind == Number
    case One(Str(text)) => AdmitsText(rules, d, text)
    case Many(xs) =>
      && d.kind == MultiSelect && NoDuplicates(xs)
      && (forall x <- xs :: x.Str? && d.options.Some? && x.s in d.options.value)
  }

  /** The item gives the field `name` a value of its type, on the word of `src`. */
  predicate Usable(rules: Rules, e: Evidence, item: ProposalValue, name: string, src: FieldSource) {
    && item.name == name && name in e.fields
    && !Blank(rules, item.value) && Admits(rules, e.fields[name], item.value) && Vouches(e, item, src)
  }

  lemma CandidatesExactly(item: ProposalValue, e: Evidence, src: FieldSource)
    ensures src in SourceCandidates(item, e.body, e.document) <==> Vouches(e, item, src)
  {
    var sources := SourceCandidates(item, e.body, e.document);
    if e.document.Some? && item.source.None? && item.excerpt.Some? {
      var fromBody := if Contains(e.body, item.excerpt.value) then [Body] else [];
      var fromDocument := if Contains(e.document.value, item.excerpt.value) then [Document] else [];
      assert sources == fromBody + fromDocument;
      assert src in sources <==> src in fromBody || src in fromDocument;
    } else if item.source.Some? {
      assert item.source.value == Body || item.source.value == Document;
    }
  }

  lemma NoCandidates(item: ProposalValue, e: Evidence)
    ensures SourceCandidates(item, e.body, e.document) == [] <==> !Vouches(e, item, Body) && !Vouches(e, item, Document)
  {
    var sources := SourceCandidates(item, e.body, e.document);
    CandidatesExactly(item, e, Body);
    CandidatesExactly(item, e, Document);
    assert sources != [] ==> sources[0] in sources;
  }

  lemma PresentExactly(rules: Rules, v: Value)
    ensures Present(rules, v) <==> !Blank(rules, v)
  {
  }

  lemma AcceptsExactly(rules: Rules, v: Value, d: FieldDefinition)
    requires !Blank(rules, v)
    ensures Accepts(rules, v, d) <==> Admits(rules, d, v)
  {
  }

  lemma ConfirmsExactly(rules: Rules, e: Evidence, item: ProposalValue, name: string, src: FieldSource)
    ensures Confirms(rules, e, item, name, src) <==> Usable(rules, e, item, name, src)
  {
    CandidatesExactly(item, e, src);
    PresentExactly(rules, item.value);
    if name in e.fields && !Blank(rules, item.value) {
      AcceptsExactly(rules, item.value, e.fields[name]);
    }
  }

  lemma {:induction false} ConfirmedFirst(rules: Rules, e: Evidence, items: seq<ProposalValue>, name: string,
                                          src: FieldSource) returns (k: nat)
    requires Confirmed(rules, e, items, name, src) != []
    ensures FirstUsable(rules, e, items, name, src, k)
    ensures items[k].value == Confirmed(rules, e, items, name, src)[0]
  {
    var n := |items| - 1;
    if Confirmed(rules, e, items[..n], name, src) != [] {
      k := ConfirmedFirst(rules, e, items[..n], name, src);
    } else {
      k := n;
      forall i | 0 <= i < n ensures !Usable(rules, e, items[i], name, src) {
        NoneConfirmed(rules, e, items[..n], name, src, i);
      }
      ConfirmsExactly(rules, e, items[n], name, src);
    }
  }

  lemma NoneConfirmed(rules: Rules, e: Evidence, items: seq<ProposalValue>, name: string, src: FieldSource, i: nat)
    requires i < |items| && Confirmed(rules, e, items, name, src) == []
    ensures !Usable(rules, e, items[i], name, src)
  {
    ConfirmsExactly(rules, e, items[i], name, src);
    ConfirmedMember(rules, e, items, name, src, items[i].value);
  }

  /** The first item of the proposal that `src` makes usable for the field. */
  predicate FirstUsable(rules: Rules, e: Evidence, items: seq<ProposalValue>, name: string, src: FieldSource, k: nat) {
    && k < |items| && Usable(rules, e, items[k], name, src)
    && forall i :: 0 <= i < k ==> !Usable(rules, e, items[i], name, src)
  }

  /** The value a field gets: that of the first item usable on the body's word, and only without any such item that of
      the first one usable on the attachment's. */
  ghost predicate Decides(rules: Rules, e: Evidence, items: seq<ProposalValue>, name: string, v: Value) {
    || (exists k: nat :: FirstUsable(rules, e, items, name, Body, k) && v == items[k].value)
    || ((forall item <- items :: !Usable(rules, e, item, name, Body))
        && exists k: nat :: FirstUsable(rules, e, items, name, Document, k) && v == items[k].value)
  }

  lemma ChosenExactly(rules: Rules, e: Evidence, items: seq<ProposalValue>, name: string)
    ensures var chosen := Choose(rules, e, items, name);
      if chosen.Some? then Decides(rules, e, items, name, chosen.value)
      else forall item <- items, src: FieldSource :: !Usable(rules, e, item, name, src)
  {
    if Confirmed(rules, e, items, name, Body) != [] {
      var k := ConfirmedFirst(rules, e, items, name, Body);
    } else {
      forall item <- items ensures !Usable(rules, e, item, name, Body) {
        var i :| 0 <= i < |items| && items[i] == item;
        NoneConfirmed(rules, e, items, name, Body, i);
      }
      if Confirmed(rules, e, items, name, Document) != [] {
        var k := ConfirmedFirst(rules, e, items, name, Document);
      } else {
        forall item <- items ensures !Usable(rules, e, item, name, Document) {
          var i :| 0 <= i < |items| && items[i] == item;
          NoneConfirmed(rules, e, items, name, Document, i);
        }
      }
    }
  }

  lemma DecidedIsUsable(rules: Rules, e: Evidence, items: seq<ProposalValue>, name: string, v: Value)
    requires Decides(rules, e, items, name, v)
    ensures name in Names(items)
    ensures exists item <- items, src: FieldSource :: Usable(rules, e, item, name, src)
  {
    if exists k: nat :: FirstUsable(rules, e, items, name, Body, k) && v == items[k].value {
      var k: nat :| FirstUsable(rules, e, items, name, Body, k) && v == items[k].value;
      assert items[k] in items && Usable(rules, e, items[k], name, Body);
    } else {
      var k: nat :| FirstUsable(rules, e, items, name, Document, k) && v == items[k].value;
      assert items[k] in items && Usable(rules, e, items[k], name, Document);
    }
  }

  lemma RefusedExactly(rules: Rules, e: Evidence, item: ProposalValue)
    ensures Refused(rules, e, item)
       <==> && item.name in e.fields && !Blank(rules, item.value)
            && forall src: FieldSource :: !Usable(rules, e, item, item.name, src)
  {
    NoCandidates(item, e);
    PresentExactly(rules, item.value);
    if item.name in e.fields && !Blank(rules, item.value) {
      AcceptsExactly(rules, item.value, e.fields[item.name]);
      assert Usable(rules, e, item, item.name, Body)
        == (Admits(rules, e.fields[item.name], item.value) && Vouches(e, item, Body));
      assert Usable(rules, e, item, item.name, Document)
        == (Admits(rules, e.fields[item.name], item.value) && Vouches(e, item, Document));
    }
  }

  /** What validation accepts and refuses, for every proposal and every field: a field gets a value exactly when some
      trusted text vouches for an item of it with a value of its type, the first on the body's word before the first on
      the attachment's; a known field is named invalid exactly when one of its items says something unusable. */
  lemma ResolvesExactly(rules: Rules, e: Evidence, items: seq<ProposalValue>, name: string)
    ensures name in Resolve(rules, e, items).values
       <==> exists item <- items, src: FieldSource :: Usable(rules, e, item, name, src)
    ensures name in Resolve(rules, e, items).values ==>
      Decides(rules, e, items, name, Resolve(rules, e, items).values[name])
    ensures name in Resolve(rules, e, items).invalid
       <==> && name in e.fields
            && exists item <- items :: (
                 item.name == name && !Blank(rules, item.value)
                 && forall src: FieldSource :: !Usable(rules, e, item, name, src))
  {
    ChosenExactly(rules, e, items, name);
    if Choose(rules, e, items, name).Some? {
      DecidedIsUsable(rules, e, items, name, Choose(rules, e, items, name).value);
    }
    forall item <- items ensures Refused(rules, e, item)
      <==> && item.name in e.fields && !Blank(rules, item.value)
           && forall src: FieldSource :: !Usable(rules, e, item, item.name, src)
    {
      RefusedExactly(rules, e, item);
    }
  }

  /** Every accepted value was proposed for its field, has the field's type, and is vouched for by the very text that
      decided it: the body, or the attachment when the body confirms no value of that field. */
  lemma AcceptedValueHasProvenance(rules: Rules, e: Evidence, items: seq<ProposalValue>, name: string)
    requires name in Resolve(rules, e, items).values
    ensures var v := Resolve(rules, e, items).values[name];
      && name in e.fields && !Blank(rules, v) && Admits(rules, e.fields[name], v)
      && exists item <- items, src: FieldSource :: (
           && item.name == name && item.value == v && Vouches(e, item, src)
           && (src == Document ==> forall other <- items :: !Usable(rules, e, other, name, Body)))
  {
    ResolvesExactly(rules, e, items, name);
    var v := Resolve(rules, e, items).values[name];
    if exists k: nat :: FirstUsable(rules, e, items, name, Body, k) && v == items[k].value {
      var k: nat :| FirstUsable(rules, e, items, name, Body, k) && v == items[k].value;
      assert items[k] in items && Vouches(e, items[k], Body);
    } else {
      var k: nat :| FirstUsable(rules, e, items, name, Document, k) && v == items[k].value;
      assert items[k] in items && Vouches(e, items[k], Document);
    }
  }

  // ---------------------------------------------------------------- frozen commands

  function FrozenItem(name: string, fields: map<string, Value>): ProposalValue
    requires name in fields
  {
    ProposalValue(name, fields[name], Some(Body), None)
  }

  predicate Keeps(rules: Rules, definitions: map<string, FieldDefinition>, name: string, v: Value) {
    name in definitions && Present(rules, v) && Accepts(rules, v, definitions[name])
  }

  /** What revalidating a stored command must report. */
  function FrozenResult(rules: Rules, definitions: map<string, FieldDefinition>, fields: map<string,
                        Value>): Validated {
    if "" in fields then Validated(map[], fields.Keys)
    else Validated(
      map name | name in fields && Keeps(rules, definitions, name, fields[name]) :: fields[name],
      set name | name in fields
        && (name !in definitions || (Present(rules, fields[name]) && !Accepts(rules, fields[name], definitions[name]))))
  }

  /** A stored command's fields pass whole exactly when each is known, named, and still holds a value of its type. */
  lemma FrozenExactly(rules: Rules, definitions: map<string, FieldDefinition>, fields: map<string, Value>)
    ensures var r := FrozenResult(rules, definitions, fields);
      (r.invalid == {} && r.values.Keys == fields.Keys)
      <==> forall name <- fields ::
             && name != "" && name in definitions
             && !Blank(rules, fields[name]) && Admits(rules, definitions[name], fields[name])
  {
    forall name <- fields
      ensures Present(rules, fields[name]) <==> !Blank(rules, fields[name])
      ensures name in definitions && !Blank(rules, fields[name]) ==>
        (Accepts(rules, fields[name], definitions[name]) <==> Admits(rules, definitions[name], fields[name]))
    {
      PresentExactly(rules, fields[name]);
      if name in definitions && !Blank(rules, fields[name]) {
        AcceptsExactly(rules, fields[name], definitions[name]);
      }
    }
    var r := FrozenResult(rules, definitions, fields);
    if r.values.Keys == fields.Keys {
      assert forall name <- fields :: name in r.values;
    }
  }

  lemma {:induction false} FrozenConfirmed(rules: Rules, e: Evidence, fields: map<string, Value>,
                                           items: seq<ProposalValue>, name: string)
    requires e.document.None?
    requires forall item <- items :: item.name in fields && item == FrozenItem(item.name, fields)
    ensures Confirmed(rules, e, items, name, Document) == []
    ensures forall v <- Confirmed(rules, e, items, name, Body) :: name in fields && v == fields[name]
    ensures Confirmed(rules, e, items, name, Body) != []
       <==> name in Names(items) && Keeps(rules, e.fields, name, fields[name])
  {
    if items != [] {
      var n := |items| - 1;
      FrozenConfirmed(rules, e, fields, items[..n], name);
      assert items == items[..n] + [items[n]];
      assert Names(items) == Names(items[..n]) + {items[n].name};
    }
  }

  ghost predicate FrozenItems(fields: map<string, Value>, items: seq<ProposalValue>) {
    && (forall item <- items :: item.name in fields && item == FrozenItem(item.name, fields))
    && Names(items) == fields.Keys
  }

  lemma FrozenChoice(rules: Rules, e: Evidence, fields: map<string, Value>, items: seq<ProposalValue>, name: string)
    requires e.document.None? && FrozenItems(fields, items)
    ensures Choose(rules, e, items, name)
      == if name in fields && Keeps(rules, e.fields, name, fields[name]) then Some(fields[name]) else None
  {
    FrozenConfirmed(rules, e, fields, items, name);
    var fromBody := Confirmed(rules, e, items, name, Body);
    assert fromBody != [] ==> fromBody[0] in fromBody;
  }

  lemma FrozenValues(rules: Rules, e: Evidence, fields: map<string, Value>, items: seq<ProposalValue>)
    requires e.document.None? && "" !in fields && FrozenItems(fields, items)
    ensures Resolve(rules, e, items).values == FrozenResult(rules, e.fields, fields).values
  {
    forall name ensures Choose(rules, e, items, name)
      == if name in fields && Keeps(rules, e.fields, name, fields[name]) then Some(fields[name]) else None
    {
      FrozenChoice(rules, e, fields, items, name);
    }
  }

  lemma FrozenInvalid(rules: Rules, e: Evidence, fields: map<string, Value>, items: seq<ProposalValue>)
    requires e.document.None? && "" !in fields && FrozenItems(fields, items)
    ensures Resolve(rules, e, items).invalid + (fields.Keys - e.fields.Keys)
      == FrozenResult(rules, e.fields, fields).invalid
  {
    var invalid := Resolve(rules, e, items).invalid;
    var expected := FrozenResult(rules, e.fields, fields).invalid;
    forall name | name in expected && name in e.fields ensures name in invalid {
      assert name in Names(items);
      var item :| item in items && item.name == name;
      assert Refused(rules, e, item);
    }
    forall name | name in invalid ensures name in expected {
      var item :| item in items && Refused(rules, e, item) && item.name == name;
      assert item == FrozenItem(name, fields);
    }
  }

  /** Revalidation of the fields stored in an approval command, as body-origin values without an attachment. */
  method ValidateFrozenFields(rules: Rules, definitions: map<string, FieldDefinition>, body: string,
                              fields: map<string, Value>)
    returns (r: Validated)
    ensures r == FrozenResult(rules, definitions, fields)
  {
    if "" in fields {
      return Validated(map[], fields.Keys);
    }
    var items: seq<ProposalValue> := [];
    var left := fields.Keys;
    while left != {}
      invariant left <= fields.Keys && Names(items) == fields.Keys - left
      invariant forall item <- items :: item.name in fields && item == FrozenItem(item.name, fields)
    {
      var name :| name in left;
      ghost var before := items;
      items := items + [FrozenItem(name, fields)];
      assert Names(items) == Names(before) + {name};
      left := left - {name};
    }
    var e := Evidence(definitions, body, None);
    FrozenValues(rules, e, fields, items);
    FrozenInvalid(rules, e, fields, items);
    var checked := ValidateProposalFields(rules, e, items);
    r := Validated(checked.values, checked.invalid + (fields.Keys - definitions.Keys));
  }

  /** Whatever the gate accepted passes revalidation unchanged under the same profile. */
  lemma FrozenFieldsRevalidate(rules: Rules, e: Evidence, items: seq<ProposalValue>)
    requires "" !in e.fields
    ensures FrozenResult(rules, e.fields, Resolve(rules, e, items).values)
         == Validated(Resolve(rules, e, items).values, {})
  {
    var values := Resolve(rules, e, items).values;
    forall name <- values ensures Keeps(rules, e.fields, name, values[name]) {
      AcceptedValueHasProvenance(rules, e, items, name);
      PresentExactly(rules, values[name]);
      AcceptsExactly(rules, values[name], e.fields[name]);
    }
  }
}
