/**
 * Validating answers and translating them between the dialects:
 * `internal/model/decision_response.go`.
 */
module DecisionAnswers {
  import opened Deployments
  import opened Decisions

  // ---------- Validity ----------

  /** A number that is present, not null, and in range. */
  predicate NumberIn(a: Fields, field: Word, max: real)
  {
    field in a && a[field].Num? && 0.0 <= a[field].n <= max
  }

  predicate Selected(a: Fields, q: Question)
  {
    Choice in a && exists c | c in q.choices :: c.value == a[Choice]
  }

  predicate EdgeIn(box: Fields, side: Word)
  {
    NumberIn(box, side, 1.0)
  }

  predicate GoodBox(a: Fields)
  {
    && Box in a && a[Box].Obj?
    && var box := a[Box].fields;
       && (forall k | k in box :: box[k].Num? || box[k].Null?)
       && EdgeIn(box, Top) && EdgeIn(box, Bottom) && EdgeIn(box, Left) && EdgeIn(box, Right)
       && box[Bottom].n >= box[Top].n && box[Right].n >= box[Left].n
  }

  function TypeOf(a: Fields): Option<Word>
  {
    if Type in a then AsText(a[Type]) else None
  }

  predicate Valid(a: Fields, q: Question, dialect: Dialect)
  {
    var t := TypeOf(a);
    t.Some? &&
    (t.value == Refusal ||
     (var kind := if t.value == Noul && dialect == SystemOne then Predicate else t.value;
      && kind == q.kind
      && (kind == Predicate ==> NumberIn(a, if dialect == SystemOne then Noul else Probability, 1.0))
      && (kind == Score ==> NumberIn(a, Score, (|q.levels| - 1) as real))
      && (kind == Choice ==> Selected(a, q))
      && (kind == Box ==> GoodBox(a))))
  }

  method FindChoice(q: Question, value: Json) returns (found: bool)
    ensures found == exists c | c in q.choices :: c.value == value
  {
    found := false;
    for i := 0 to |q.choices|
      invariant forall k | 0 <= k < i :: q.choices[k].value != value
    {
      if q.choices[i].value == value {
        return true;
      }
    }
  }

  // ---------- System One answers for a Decisions request ----------

  /** The probabilities of an answer by name. */
  function NamedProbabilities(j: Json): Option<map<Word, real>>
  {
    match j
    case Null => Some(map[])
    case Obj(o) =>
      if forall k | k in o :: AsNumber(o[k]).Some? then Some(map k | k in o :: AsNumber(o[k]).value) else None
    case _ => None
  }

  function ChoiceEntry(c: Alternative, p: real): Json
  {
    Obj(map[Value := c.value, Probability := Num(p)])
  }

  function LevelEntry(l: Level, j: nat, p: real): Json
  {
    Obj(map[Label := Str(l.title), Value := Num(j as real), Probability := Num(p)])
  }

  /** An entry for every alternative, as far as its probability is known. */
  function ChoiceEntries(cs: seq<Alternative>, probs: map<Word, real>): (entries: seq<Option<Json>>)
    ensures |entries| == |cs|
    ensures forall i | 0 <= i < |cs| ::
              entries[i] == if WordOf(cs[i].value) in probs
                            then Some(ChoiceEntry(cs[i], probs[WordOf(cs[i].value)])) else None
  {
    seq(|cs|, i requires 0 <= i < |cs| =>
      if WordOf(cs[i].value) in probs then Some(ChoiceEntry(cs[i], probs[WordOf(cs[i].value)])) else None)
  }

  function LevelEntries(ls: seq<Level>, probs: map<Word, real>): (entries: seq<Option<Json>>)
    ensures |entries| == |ls|
    ensures forall j | 0 <= j < |ls| ::
              entries[j] == if Index(j) in probs then Some(LevelEntry(ls[j], j, probs[Index(j)])) else None
  {
    seq(|ls|, j requires 0 <= j < |ls| =>
      if Index(j) in probs then Some(LevelEntry(ls[j], j, probs[Index(j)])) else None)
  }

  function ListChoices(cs: seq<Alternative>, probs: map<Word, real>): Option<seq<Json>>
  {
    Collect(ChoiceEntries(cs, probs))
  }

  function ListLevels(ls: seq<Level>, probs: map<Word, real>): Option<seq<Json>>
  {
    Collect(LevelEntries(ls, probs))
  }

  function ListProbabilities(q: Question, probs: map<Word, real>): Option<seq<Json>>
  {
    if q.kind == Choice then ListChoices(q.choices, probs)
    else if q.kind == Score then ListLevels(q.levels, probs)
    else Some([])
  }

  /** The loop over the declared choices or levels; a missing probability ends it. */
  method ListEntries(q: Question, probs: map<Word, real>) returns (listed: Option<seq<Json>>)
    ensures listed == ListProbabilities(q, probs)
  {
    hide ChoiceEntry, LevelEntry;
    var values: seq<Json> := [];
    if q.kind == Choice {
      ghost var entries := ChoiceEntries(q.choices, probs);
      for i := 0 to |q.choices|
        invariant |values| == i && forall k | 0 <= k < i :: entries[k] == Some(values[k])
      {
        var c := q.choices[i];
        if WordOf(c.value) !in probs {
          assert entries[i].None?;
          return None;
        }
        values := values + [ChoiceEntry(c, probs[WordOf(c.value)])];
      }
      Collects(entries, values);
    } else if q.kind == Score {
      ghost var entries := LevelEntries(q.levels, probs);
      for j := 0 to |q.levels|
        invariant |values| == j && forall k | 0 <= k < j :: entries[k] == Some(values[k])
      {
        if Index(j) !in probs {
          assert entries[j].None?;
          return None;
        }
        values := values + [LevelEntry(q.levels[j], j, probs[Index(j)])];
      }
      Collects(entries, values);
    }
    listed := Some(values);
  }

  function RenamedToPlain(a: Fields): Fields
  {
    if TypeOf(a) == Some(Noul)
    then (a[Type := Str(Predicate)][Probability := if Noul in a then a[Noul] else Null]) - {Noul}
    else a
  }

  /** The choices of a request that was sent to System One are texts. */
  function ToPlainAnswer(a: Fields, q: Question): Option<Fields>
    requires forall c | c in q.choices :: c.value.Str?
  {
    var b := RenamedToPlain(a)[Name := if Name in q.raw then q.raw[Name] else Null];
    if Probabilities !in b then Some(b)
    else
      var probs := NamedProbabilities(b[Probabilities]);
      if probs.None? then None
      else
        var listed := ListProbabilities(q, probs.value);
        if listed.None? then None else Some(b[Probabilities := Arr(listed.value)] - {Legend})
  }

  // ---------- Decisions answers for a System One request ----------

  /** An index into the levels. */
  function AsIndex(j: Json): Option<int>
  {
    if j.Num? && j.n == j.n.Floor as real then Some(j.n.Floor) else None
  }

  /** The name under which an entry is filed, if it is one of the question's. */
  function EntryKey(o: Fields, q: Question): Option<Word>
  {
    if q.kind == Score then
      var index, title := if Value in o then AsIndex(o[Value]) else None, MemberText(o, Label);
      if index.None? || title.None? || index.value < 0 || index.value >= |q.levels| then None
      else if q.levels[index.value].title != title.value then None
      else Some(Index(index.value))
    else if Value in o then AsText(o[Value])
    else None
  }

  function EntryNumber(o: Fields): Option<real>
  {
    if Probability in o then AsNumber(o[Probability]) else Some(0.0)
  }

  /** Entries in order; a later one replaces an earlier one of the same name. */
  function Filed(items: seq<Json>, q: Question): Option<map<Word, real>>
  {
    if items == [] then Some(map[])
    else
      var before := Filed(items[..|items| - 1], q);
      var o := Members(items[|items| - 1]);
      if before.None? || o.None? || MemberText(o.value, Label).None? then None
      else
        var key, p := EntryKey(o.value, q), EntryNumber(o.value);
        if key.None? || p.None? then None else Some(before.value[key.value := p.value])
  }

  lemma {:induction false} UnfiledStays(items: seq<Json>, q: Question, n: nat)
    requires n <= |items| && Filed(items[..n], q).None?
    ensures Filed(items, q).None?
    decreases |items| - n
  {
    hide EntryKey, EntryNumber;
    if n == |items| {
      assert items[..n] == items;
    } else {
      assert items[..n + 1][..n] == items[..n];
      UnfiledStays(items, q, n + 1);
    }
  }

  /** The loop over the listed probabilities; an entry that does not fit the question ends it. */
  method FileEntries(items: seq<Json>, q: Question) returns (filed: Option<map<Word, real>>)
    ensures filed == Filed(items, q)
  {
    hide EntryKey, EntryNumber;
    var values: map<Word, real> := map[];
    for i := 0 to |items|
      invariant Filed(items[..i], q) == Some(values)
    {
      assert items[..i + 1][..i] == items[..i];
      var o := Members(items[i]);
      if o.None? || MemberText(o.value, Label).None? {
        UnfiledStays(items, q, i + 1);
        return None;
      }
      var key, p := EntryKey(o.value, q), EntryNumber(o.value);
      if key.None? || p.None? {
        UnfiledStays(items, q, i + 1);
        return None;
      }
      values := values[key.value := p.value];
    }
    assert items[..|items|] == items;
    filed := Some(values);
  }

  function Numbers(m: map<Word, real>): Fields
  {
    map k | k in m :: Num(m[k])
  }

  function LegendOf(ls: seq<Level>): Fields
  {
    if ls == [] then map[] else LegendOf(ls[..|ls| - 1])[Index(|ls| - 1) := Str(ls[|ls| - 1].title)]
  }

  function RenamedToSystemOne(a: Fields): Fields
  {
    if TypeOf(a) == Some(Predicate)
    then (a[Type := Str(Noul)][Noul := if Probability in a then a[Probability] else Null]) - {Probability}
    else a
  }

  function ToSystemOneAnswer(a: Fields, q: Question): Option<Fields>
  {
    var b := RenamedToSystemOne(a - {Name});
    if Probabilities !in b then Some(b)
    else
      var items := Items(b[Probabilities]);
      if items.None? then None
      else
        var filed := Filed(items.value, q);
        if filed.None? then None
        else
          var c := b[Probabilities := Obj(Numbers(filed.value))];
          Some(if q.kind == Score then c[Legend := Obj(LegendOf(q.levels))] else c)
  }

  // ---------- Validity across the translation ----------

  /**
   * A valid System One answer that is accepted stays valid for the Decisions caller if and only if
   * it is not of type predicate, or happens to carry a probability already. The validator accepts
   * that spelling beside noul, but only noul is renamed, so the value is lost.
   */
  lemma PlainAnswerIsValidIff(a: Fields, q: Question)
    requires forall c | c in q.choices :: c.value.Str?
    requires Valid(a, q, SystemOne) && ToPlainAnswer(a, q).Some?
    ensures Valid(ToPlainAnswer(a, q).value, q, Plain) <==>
            (TypeOf(a) == Some(Predicate) ==> NumberIn(a, Probability, 1.0))
  {
    hide ListProbabilities, NamedProbabilities, GoodBox;
    var b := ToPlainAnswer(a, q).value;
    PlainMembers(a, q);
    if TypeOf(a) != Some(Noul) {
      assert TypeOf(b) == TypeOf(a);
      BoxDependsOnBox(a, b);
    }
  }

  lemma PlainMembers(a: Fields, q: Question)
    requires forall c | c in q.choices :: c.value.Str?
    requires ToPlainAnswer(a, q).Some?
    ensures var b := ToPlainAnswer(a, q).value;
            && (TypeOf(a) == Some(Noul) ==>
                  TypeOf(b) == Some(Predicate) && Get(b, Probability) == Some(if Noul in a then a[Noul] else Null))
            && (TypeOf(a) != Some(Noul) ==>
                  && Get(b, Type) == Get(a, Type) && Get(b, Noul) == Get(a, Noul)
                  && Get(b, Probability) == Get(a, Probability))
            && Get(b, Score) == Get(a, Score) && Get(b, Choice) == Get(a, Choice) && Get(b, Box) == Get(a, Box)
            && (Probabilities in b <==> Probabilities in a)
            && Get(b, Name) == Some(if Name in q.raw then q.raw[Name] else Null)
  {
    hide ListProbabilities, NamedProbabilities;
  }

  lemma BoxDependsOnBox(a: Fields, b: Fields)
    requires Get(a, Box) == Get(b, Box)
    ensures GoodBox(a) <==> GoodBox(b)
  {
  }

  lemma SystemOneMembers(a: Fields, q: Question)
    requires ToSystemOneAnswer(a, q).Some?
    ensures var b := ToSystemOneAnswer(a, q).value;
            && (TypeOf(a) == Some(Predicate) ==>
                  TypeOf(b) == Some(Noul) && Get(b, Noul) == Some(if Probability in a then a[Probability] else Null))
            && (TypeOf(a) != Some(Predicate) ==>
                  && Get(b, Type) == Get(a, Type) && Get(b, Noul) == Get(a, Noul)
                  && Get(b, Probability) == Get(a, Probability))
            && Get(b, Score) == Get(a, Score) && Get(b, Choice) == Get(a, Choice) && Get(b, Box) == Get(a, Box)
            && (Probabilities in b <==> Probabilities in a)
            && Name !in b
  {
    hide Filed, LegendOf, Numbers;
  }

  predicate KnownKind(q: Question)
  {
    q.kind == Predicate || q.kind == Choice || q.kind == Score || q.kind == Box
  }

  /** A valid Decisions answer that is accepted stays valid for the System One caller. */
  lemma SystemOneAnswerIsValid(a: Fields, q: Question)
    requires KnownKind(q)
    requires Valid(a, q, Plain) && ToSystemOneAnswer(a, q).Some?
    ensures Valid(ToSystemOneAnswer(a, q).value, q, SystemOne)
  {
    hide GoodBox;
    SystemOneMembers(a, q);
    hide ToSystemOneAnswer;
    BoxDependsOnBox(a, ToSystemOneAnswer(a, q).value);
  }

  // ---------- Round trips ----------

  /** The probability that an answer of System One gives to a name. */
  function ProbabilityOf(a: Fields, k: Word): Option<real>
  {
    if Probabilities in a && a[Probabilities].Obj? && k in a[Probabilities].fields
    then AsNumber(a[Probabilities].fields[k]) else None
  }

  /** The names that a question declares. */
  predicate Declared(q: Question, k: Word)
  {
    || (q.kind == Choice && exists c | c in q.choices :: c.value == Str(k))
    || (q.kind == Score && k.Index? && k.j < |q.levels|)
  }

  lemma {:induction false} FilesChoices(cs: seq<Alternative>, probs: map<Word, real>, q: Question, n: nat)
    requires q.kind == Choice && n <= |cs|
    requires forall i | 0 <= i < |cs| :: cs[i].value.Str? && WordOf(cs[i].value) in probs
    ensures var filed := Filed(seq(n, i requires 0 <= i < n => ChoiceEntry(cs[i], probs[WordOf(cs[i].value)])), q);
            && filed.Some?
            && (forall i | 0 <= i < n :: cs[i].value.w in filed.value)
            && (forall k | k in filed.value :: k in probs && filed.value[k] == probs[k])
  {
    if n > 0 {
      FilesChoices(cs, probs, q, n - 1);
      var items := seq(n, i requires 0 <= i < n => ChoiceEntry(cs[i], probs[WordOf(cs[i].value)]));
      var front := seq(n - 1, i requires 0 <= i < n - 1 => ChoiceEntry(cs[i], probs[WordOf(cs[i].value)]));
      assert items[..n - 1] == front;
      ChoiceEntryReads(cs[n - 1], probs[WordOf(cs[n - 1].value)], q);
    }
  }

  lemma ChoiceEntryReads(c: Alternative, p: real, q: Question)
    requires q.kind == Choice && c.value.Str?
    ensures var o := ChoiceEntry(c, p).fields;
            EntryKey(o, q) == Some(c.value.w) && EntryNumber(o) == Some(p) && MemberText(o, Label) == Some(Empty)
  {
  }

  lemma LevelEntryReads(q: Question, j: nat, p: real)
    requires q.kind == Score && j < |q.levels|
    ensures var o := LevelEntry(q.levels[j], j, p).fields;
            EntryKey(o, q) == Some(Index(j)) && EntryNumber(o) == Some(p) && MemberText(o, Label).Some?
  {
    assert (j as real).Floor == j;
  }

  lemma {:induction false} FilesLevels(q: Question, probs: map<Word, real>, n: nat)
    requires q.kind == Score && n <= |q.levels|
    requires forall j | 0 <= j < |q.levels| :: Index(j) in probs
    ensures var filed := Filed(seq(n, j requires 0 <= j < n => LevelEntry(q.levels[j], j, probs[Index(j)])), q);
            && filed.Some?
            && (forall j | 0 <= j < n :: Index(j) in filed.value)
            && (forall k | k in filed.value :: k in probs && filed.value[k] == probs[k])
  {
    if n > 0 {
      FilesLevels(q, probs, n - 1);
      var items := seq(n, j requires 0 <= j < n => LevelEntry(q.levels[j], j, probs[Index(j)]));
      var front := seq(n - 1, j requires 0 <= j < n - 1 => LevelEntry(q.levels[j], j, probs[Index(j)]));
      assert items[..n - 1] == front;
      LevelEntryReads(q, n - 1, probs[Index(n - 1)]);
    }
  }

  lemma ListedChoices(cs: seq<Alternative>, probs: map<Word, real>)
    requires ListChoices(cs, probs).Some?
    ensures forall i | 0 <= i < |cs| :: WordOf(cs[i].value) in probs
    ensures ListChoices(cs, probs).value ==
            seq(|cs|, i requires 0 <= i < |cs| && WordOf(cs[i].value) in probs =>
              ChoiceEntry(cs[i], probs[WordOf(cs[i].value)]))
  {
    var options := ChoiceEntries(cs, probs);
    forall i | 0 <= i < |cs| ensures WordOf(cs[i].value) in probs {
      assert options[i].Some?;
    }
  }

  lemma ListedLevels(ls: seq<Level>, probs: map<Word, real>)
    requires ListLevels(ls, probs).Some?
    ensures forall j | 0 <= j < |ls| :: Index(j) in probs
    ensures ListLevels(ls, probs).value ==
            seq(|ls|, j requires 0 <= j < |ls| && Index(j) in probs => LevelEntry(ls[j], j, probs[Index(j)]))
  {
    var options := LevelEntries(ls, probs);
    forall j | 0 <= j < |ls| ensures Index(j) in probs {
      assert options[j].Some?;
    }
  }

  /** Listing declared probabilities and filing them again keeps every one of them. */
  lemma ListedThenFiled(q: Question, probs: map<Word, real>)
    requires forall c | c in q.choices :: c.value.Str?
    requires ListProbabilities(q, probs).Some?
    ensures var filed := Filed(ListProbabilities(q, probs).value, q);
            && filed.Some?
            && (forall k | Declared(q, k) :: k in filed.value && k in probs && filed.value[k] == probs[k])
  {
    hide ListChoices, ListLevels, ChoiceEntry, LevelEntry, EntryKey, EntryNumber;
    var items := ListProbabilities(q, probs).value;
    if q.kind == Choice {
      ListedChoices(q.choices, probs);
      forall i | 0 <= i < |q.choices| ensures q.choices[i].value.Str? {
        assert q.choices[i] in q.choices;
      }
      var n := |q.choices|;
      assert items == seq(n, i requires 0 <= i < n => ChoiceEntry(q.choices[i], probs[WordOf(q.choices[i].value)]));
      FilesChoices(q.choices, probs, q, n);
    } else if q.kind == Score {
      ListedLevels(q.levels, probs);
      var n := |q.levels|;
      assert items == seq(n, j requires 0 <= j < n => LevelEntry(q.levels[j], j, probs[Index(j)]));
      FilesLevels(q, probs, n);
    }
  }

  /** The members of an answer that neither translation speaks of. */
  predicate Untouched(k: Word)
  {
    k !in {Type, Name, Noul, Probability, Probabilities, Legend}
  }

  lemma OthersStay(a: Fields, q: Question)
    requires forall c | c in q.choices :: c.value.Str?
    ensures ToPlainAnswer(a, q).Some? ==> forall k | Untouched(k) :: Get(ToPlainAnswer(a, q).value, k) == Get(a, k)
    ensures ToSystemOneAnswer(a, q).Some? ==>
              forall k | Untouched(k) :: Get(ToSystemOneAnswer(a, q).value, k) == Get(a, k)
  {
    hide ListProbabilities, NamedProbabilities, Filed, LegendOf, Numbers;
  }

  /** The name of a predicate answer in the System One dialect. */
  function Renamed(kind: Option<Word>): Option<Word>
  {
    if kind == Some(Predicate) then Some(Noul) else kind
  }

  /**
   * What comes back of a System One answer: its type, its value, its declared probabilities and all
   * members that the translation does not speak of. Of an answer spelt predicate the probability
   * comes back as its value, which is the same value exactly if the two were equal.
   */
  ghost predicate Returned(a: Fields, c: Fields, q: Question)
  {
    && TypeOf(c) == Renamed(TypeOf(a))
    && (TypeOf(a) != Some(Predicate) ==> Get(c, Noul) == Get(a, Noul))
    && (TypeOf(a) == Some(Predicate) ==> (Get(c, Noul) == Get(a, Noul) <==> Get(a, Noul) == Get(a, Probability)))
    && (forall k | Untouched(k) :: Get(c, k) == Get(a, k))
    && (Probabilities in c <==> Probabilities in a)
    && (Probabilities in a && a[Probabilities].Obj? ==>
          forall k | Declared(q, k) :: ProbabilityOf(c, k) == ProbabilityOf(a, k))
  }

  /** A System One answer that a Decisions caller accepts, translated back, always returns. */
  lemma AnswerReturns(a: Fields, q: Question)
    requires forall c | c in q.choices :: c.value.Str?
    requires Valid(a, q, SystemOne) && ToPlainAnswer(a, q).Some?
    ensures var c := ToSystemOneAnswer(ToPlainAnswer(a, q).value, q);
            c.Some? && Returned(a, c.value, q)
  {
    hide ListProbabilities, Filed, LegendOf, Numbers, GoodBox, Declared, NamedProbabilities;
    var b := ToPlainAnswer(a, q).value;
    PlainMembers(a, q);
    if Probabilities in a {
      ProbabilitiesReturn(a, b, q);
    }
    SystemOneMembers(b, q);
    OthersStay(a, q);
    OthersStay(b, q);
    hide ToPlainAnswer, ToSystemOneAnswer, Selected, NumberIn, ProbabilityOf;
  }

  lemma ProbabilitiesReturn(a: Fields, b: Fields, q: Question)
    requires forall c | c in q.choices :: c.value.Str?
    requires ToPlainAnswer(a, q) == Some(b) && Probabilities in a
    ensures Probabilities in b && b[Probabilities].Arr? && Filed(b[Probabilities].items, q).Some?
    ensures ToSystemOneAnswer(b, q).Some?
    ensures a[Probabilities].Obj? ==>
              forall k | Declared(q, k) :: ProbabilityOf(ToSystemOneAnswer(b, q).value, k) == ProbabilityOf(a, k)
  {
    hide ListProbabilities, Filed, LegendOf, GoodBox, Declared;
    assert RenamedToPlain(a)[Probabilities] == a[Probabilities];
    var probs := NamedProbabilities(a[Probabilities]).value;
    assert b[Probabilities] == Arr(ListProbabilities(q, probs).value);
    ListedThenFiled(q, probs);
    var filed := Filed(b[Probabilities].items, q).value;
    assert RenamedToSystemOne(b - {Name})[Probabilities] == b[Probabilities];
    var c := ToSystemOneAnswer(b, q).value;
    assert c[Probabilities] == Obj(Numbers(filed));
    if a[Probabilities].Obj? {
      forall k | Declared(q, k) ensures ProbabilityOf(c, k) == ProbabilityOf(a, k) {
        assert filed[k] == probs[k];
      }
    }
  }

  lemma BackToNumbers(filed: map<Word, real>)
    ensures NamedProbabilities(Obj(Numbers(filed))) == Some(filed)
  {
    var o := Numbers(filed);
    assert forall k | k in o :: AsNumber(o[k]) == Some(filed[k]);
    assert (map k | k in o :: AsNumber(o[k]).value) == filed;
  }

  // ---------- Incomplete lists ----------

  /** A listed probability is for this name. */
  predicate IsFor(item: Json, q: Question, k: Word)
  {
    Members(item).Some? && EntryKey(Members(item).value, q) == Some(k)
  }

  /** The names that are filed are the ones that are listed. */
  lemma {:induction false} FiledNames(items: seq<Json>, q: Question, k: Word)
    requires Filed(items, q).Some?
    ensures k in Filed(items, q).value <==> exists item | item in items :: IsFor(item, q, k)
  {
    hide EntryKey, EntryNumber;
    if items != [] {
      var front, last := items[..|items| - 1], items[|items| - 1];
      assert items == front + [last];
      FiledNames(front, q, k);
      assert k in Filed(items, q).value <==> k in Filed(front, q).value || IsFor(last, q, k);
      assert forall item | item in items :: item in front || item == last;
      assert forall item | item in front :: item in items;
      assert last in items;
    }
  }

  /** The answer has no list of probabilities, or one for every declared name. */
  ghost predicate Covers(a: Fields, q: Question)
  {
    Probabilities in a ==>
      && Items(a[Probabilities]).Some?
      && forall k | Declared(q, k) :: exists item | item in Items(a[Probabilities]).value :: IsFor(item, q, k)
  }

  /** A listing exists exactly of probabilities for all declared names. */
  lemma ListedIff(q: Question, probs: map<Word, real>)
    requires forall c | c in q.choices :: c.value.Str?
    ensures ListProbabilities(q, probs).Some? <==> forall k | Declared(q, k) :: k in probs
  {
    if q.kind == Choice {
      var entries := ChoiceEntries(q.choices, probs);
      if ListProbabilities(q, probs).Some? {
        forall k | Declared(q, k) ensures k in probs {
          var c :| c in q.choices && c.value == Str(k);
          var i :| 0 <= i < |q.choices| && q.choices[i] == c;
          assert entries[i].Some?;
        }
      }
      if forall k | Declared(q, k) :: k in probs {
        forall i | 0 <= i < |entries| ensures entries[i].Some? {
          assert q.choices[i] in q.choices;
          assert Declared(q, q.choices[i].value.w);
        }
      }
    } else if q.kind == Score {
      var entries := LevelEntries(q.levels, probs);
      if ListProbabilities(q, probs).Some? {
        forall k | Declared(q, k) ensures k in probs {
          assert entries[k.j].Some?;
        }
      }
      if forall k | Declared(q, k) :: k in probs {
        forall j | 0 <= j < |entries| ensures entries[j].Some? {
          assert Declared(q, Index(j));
        }
      }
    }
  }

  /** One entry for each declared name, in order, and nothing else. */
  ghost predicate IsListing(q: Question, items: seq<Json>)
  {
    exists probs :: ListProbabilities(q, probs) == Some(items)
  }

  lemma FiledListing(q: Question, items: seq<Json>)
    requires forall c | c in q.choices :: c.value.Str?
    requires IsListing(q, items)
    ensures Filed(items, q).Some? && ListProbabilities(q, Filed(items, q).value) == Some(items)
  {
    hide ListProbabilities, Filed, Declared;
    var probs :| ListProbabilities(q, probs) == Some(items);
    ListedThenFiled(q, probs);
    SameListing(q, probs, Filed(items, q).value);
  }

  /** Listing looks only at declared names. */
  lemma SameListing(q: Question, probs: map<Word, real>, others: map<Word, real>)
    requires forall c | c in q.choices :: c.value.Str?
    requires ListProbabilities(q, probs).Some?
    requires forall k | Declared(q, k) :: k in others && k in probs && others[k] == probs[k]
    ensures ListProbabilities(q, others) == ListProbabilities(q, probs)
  {
    hide ChoiceEntry, LevelEntry;
    if q.kind == Choice {
      ListedChoices(q.choices, probs);
      forall i | 0 <= i < |q.choices|
        ensures WordOf(q.choices[i].value) in others
        ensures others[WordOf(q.choices[i].value)] == probs[WordOf(q.choices[i].value)]
      {
        assert q.choices[i] in q.choices;
        assert Declared(q, q.choices[i].value.w);
      }
      assert ChoiceEntries(q.choices, others) == ChoiceEntries(q.choices, probs);
    } else if q.kind == Score {
      ListedLevels(q.levels, probs);
      forall j | 0 <= j < |q.levels| ensures Index(j) in others && others[Index(j)] == probs[Index(j)] {
        assert Declared(q, Index(j));
      }
      assert LevelEntries(q.levels, others) == LevelEntries(q.levels, probs);
    }
  }

  /** What System One sees of a Decisions list: the filed entries. */
  lemma FiledInSystemOne(a: Fields, q: Question)
    requires ToSystemOneAnswer(a, q).Some? && Probabilities in a
    ensures Items(a[Probabilities]).Some? && Filed(Items(a[Probabilities]).value, q).Some?
    ensures Get(ToSystemOneAnswer(a, q).value, Probabilities) ==
            Some(Obj(Numbers(Filed(Items(a[Probabilities]).value, q).value)))
  {
    hide Filed, LegendOf, Numbers;
    assert RenamedToSystemOne(a - {Name})[Probabilities] == a[Probabilities];
  }

  /** A System One answer with these probabilities is accepted exactly if they can be listed. */
  lemma PlainAccepts(b: Fields, q: Question, filed: map<Word, real>)
    requires forall c | c in q.choices :: c.value.Str?
    requires Get(b, Probabilities) == Some(Obj(Numbers(filed)))
    ensures ToPlainAnswer(b, q).Some? <==> ListProbabilities(q, filed).Some?
    ensures ToPlainAnswer(b, q).Some? ==>
              Get(ToPlainAnswer(b, q).value, Probabilities) == Some(Arr(ListProbabilities(q, filed).value))
  {
    BackToNumbers(filed);
    hide ListProbabilities, Numbers, NamedProbabilities;
    assert RenamedToPlain(b)[Probabilities] == b[Probabilities];
  }

  /**
   * What comes back of a Decisions answer: its type, its value, all members that the translation
   * does not speak of, and its probabilities as the list of the declared names. That is the same
   * list exactly if it was such a list before.
   */
  ghost predicate PlainReturned(a: Fields, c: Fields, q: Question)
  {
    && TypeOf(c) == TypeOf(a)
    && Get(c, Probability) == Get(a, Probability)
    && (forall k | Untouched(k) :: Get(c, k) == Get(a, k))
    && (Probabilities in c <==> Probabilities in a)
    && (Probabilities in a ==>
          && Items(a[Probabilities]).Some? && Filed(Items(a[Probabilities]).value, q).Some?
          && ListProbabilities(q, Filed(Items(a[Probabilities]).value, q).value).Some?
          && c[Probabilities] == Arr(ListProbabilities(q, Filed(Items(a[Probabilities]).value, q).value).value)
          && (c[Probabilities] == a[Probabilities] <==>
                a[Probabilities].Arr? && IsListing(q, a[Probabilities].items)))
    && Get(c, Name) == Some(if Name in q.raw then q.raw[Name] else Null)
  }

  /**
   * A Decisions answer that System One accepts is accepted on the way back if and only if it has no
   * list of probabilities or one that covers every declared name, and then it returns.
   */
  lemma PlainAnswerReturns(a: Fields, q: Question)
    requires KnownKind(q) && forall c | c in q.choices :: c.value.Str?
    requires Valid(a, q, Plain) && ToSystemOneAnswer(a, q).Some?
    ensures var c := ToPlainAnswer(ToSystemOneAnswer(a, q).value, q);
            && (c.Some? <==> Covers(a, q))
            && (c.Some? ==> PlainReturned(a, c.value, q))
  {
    hide ListProbabilities, Filed, LegendOf, GoodBox, Declared, Numbers, NamedProbabilities, Selected, IsListing;
    var b := ToSystemOneAnswer(a, q).value;
    SystemOneMembers(a, q);
    OthersStay(a, q);
    OthersStay(b, q);
    if Probabilities in a {
      ListReturns(a, q);
    } else {
      NoListReturns(b, q);
    }
    if ToPlainAnswer(b, q).Some? {
      PlainMembers(b, q);
    }
    hide ToPlainAnswer, ToSystemOneAnswer;
  }

  lemma NoListReturns(b: Fields, q: Question)
    requires (forall c | c in q.choices :: c.value.Str?) && Probabilities !in b
    ensures ToPlainAnswer(b, q).Some?
  {
  }

  lemma ListReturns(a: Fields, q: Question)
    requires forall c | c in q.choices :: c.value.Str?
    requires ToSystemOneAnswer(a, q).Some? && Probabilities in a
    ensures var items := Items(a[Probabilities]); var c := ToPlainAnswer(ToSystemOneAnswer(a, q).value, q);
            && items.Some? && Filed(items.value, q).Some?
            && (c.Some? <==> Covers(a, q))
            && (c.Some? ==>
                  var listed := ListProbabilities(q, Filed(items.value, q).value);
                  && listed.Some? && Get(c.value, Probabilities) == Some(Arr(listed.value))
                  && (Arr(listed.value) == a[Probabilities] <==>
                        a[Probabilities].Arr? && IsListing(q, a[Probabilities].items)))
  {
    hide ToSystemOneAnswer, ToPlainAnswer, ListProbabilities, Filed, Declared, Numbers, IsFor;
    FiledInSystemOne(a, q);
    var items := Items(a[Probabilities]).value;
    var filed := Filed(items, q).value;
    PlainAccepts(ToSystemOneAnswer(a, q).value, q, filed);
    ListedIff(q, filed);
    forall k ensures k in filed <==> exists item | item in items :: IsFor(item, q, k) {
      FiledNames(items, q, k);
    }
    if a[Probabilities].Arr? && IsListing(q, a[Probabilities].items) {
      FiledListing(q, items);
    }
  }

  /** A choice answer that lists one of two declared choices is valid, and lost on the way back. */
  lemma IncompleteListIsRefused(yes: Alternative, no: Alternative)
    requires yes.value == Str(Free("yes")) && no.value == Str(Free("no"))
    ensures var q := Question(false, Free("sure"), Choice, Free("Sure?"), [yes, no], [], map[]);
            var a := map[Type := Str(Choice), Choice := yes.value,
                         Probabilities := Arr([Obj(map[Value := yes.value, Probability := Num(0.75)])])];
            && Valid(a, q, Plain) && ToSystemOneAnswer(a, q).Some?
            && ToPlainAnswer(ToSystemOneAnswer(a, q).value, q).None?
  {
    var q := Question(false, Free("sure"), Choice, Free("Sure?"), [yes, no], [], map[]);
    var item := Obj(map[Value := yes.value, Probability := Num(0.75)]);
    var a: Fields := map[Type := Str(Choice), Choice := yes.value, Probabilities := Arr([item])];
    assert yes in q.choices && no in q.choices;
    assert Filed([item], q) == Some(map[Free("yes") := 0.75]) by {
      assert [item][..0] == [];
    }
    assert Valid(a, q, Plain) && ToSystemOneAnswer(a, q).Some?;
    PlainAnswerReturns(a, q);
    assert Declared(q, Free("no"));
    assert forall other | other in [item] :: !IsFor(other, q, Free("no"));
  }
}
