/**
 * Which decision questions are accepted and how they are read, member by member, and which of them
 * are translated: `parseDecisionQuestion` and `Wire` of `internal/model/decisions.go`.
 */
module QuestionForms {
  import opened Deployments
  import opened Decisions
  import opened AnswerForms

  // ---------- Parts of a question ----------

  /** Content that only System One carries. */
  predicate Rich(j: Json)
  {
    j.Obj? || j.Arr?
  }

  /** A criterion: a text, or rich content, which counts as none. */
  predicate Describes(j: Json, w: Word)
  {
    SpellsText(j, w) || (Rich(j) && w == Empty)
  }

  predicate IsKind(raw: Fields, dialect: Dialect, kind: Word)
  {
    && Type in raw
    && kind in {Predicate, Choice, Score, Box}
    && (raw[Type] == Str(kind) || (dialect == SystemOne && raw[Type] == Str(Noul) && kind == Predicate))
  }

  predicate IsInstructions(raw: Fields, dialect: Dialect, w: Word)
  {
    HasText(raw, Instructions, w) || (dialect == SystemOne && RichInstructions(raw) && w == Empty)
  }

  predicate RichInstructions(raw: Fields)
  {
    Instructions in raw && Rich(raw[Instructions])
  }

  /** One declared choice of a Decisions question. */
  predicate IsAlternative(j: Json, c: Alternative)
  {
    || (j == Null && c == Alternative(Null, Empty))
    || (j.Obj? && HasText(j.fields, Description, c.description) &&
        c.value == if Value in j.fields then j.fields[Value] else Null)
  }

  predicate IsLevel(j: Json, l: Level)
  {
    || (j == Null && l == Level(Empty, Empty))
    || (j.Obj? && HasText(j.fields, Label, l.title) && HasText(j.fields, Description, l.description))
  }

  predicate CriteriaAre(o: Fields, keys: seq<Word>, cs: seq<Alternative>)
  {
    && |cs| == |keys|
    && forall i | 0 <= i < |cs| ::
         keys[i] in o && cs[i].value == Str(keys[i]) && Describes(o[keys[i]], cs[i].description)
  }

  /** The choices of a question: listed in one dialect, described under their keys in the other. */
  ghost predicate AreChoices(raw: Fields, dialect: Dialect, order: Order, cs: seq<Alternative>)
  {
    if dialect == Plain then
      && Choices in raw
      && (raw[Choices] == Null ==> cs == [])
      && (raw[Choices] == Null || raw[Choices].Arr?)
      && (raw[Choices].Arr? ==>
            && |cs| == |raw[Choices].items|
            && forall i | 0 <= i < |cs| :: IsAlternative(raw[Choices].items[i], cs[i]))
    else
      && Criteria in raw
      && ((raw[Criteria] == Null && cs == []) ||
          (raw[Criteria].Obj? && CriteriaAre(raw[Criteria].fields, order(raw[Criteria].fields.Keys), cs)))
  }

  ghost predicate RichChoices(raw: Fields, dialect: Dialect)
  {
    dialect == SystemOne && Criteria in raw && raw[Criteria].Obj? &&
    exists k | k in raw[Criteria].fields :: Rich(raw[Criteria].fields[k])
  }

  ghost predicate AreLevels(raw: Fields, dialect: Dialect, ls: seq<Level>)
  {
    var field := if dialect == Plain then Levels else Criteria;
    && field in raw
    && (raw[field] == Null || raw[field].Arr?)
    && (raw[field] == Null ==> ls == [])
    && (raw[field].Arr? ==>
          && |ls| == |raw[field].items|
          && forall i | 0 <= i < |ls| ::
               if dialect == Plain then IsLevel(raw[field].items[i], ls[i])
               else Describes(raw[field].items[i], ls[i].title) && ls[i].description == Empty)
  }

  ghost predicate RichLevels(raw: Fields, dialect: Dialect)
  {
    dialect == SystemOne && Criteria in raw && raw[Criteria].Arr? &&
    exists i | 0 <= i < |raw[Criteria].items| :: Rich(raw[Criteria].items[i])
  }

  /** How a question reads. */
  ghost predicate ReadsQuestion(raw: Fields, dialect: Dialect, order: Order, q: Question)
  {
    && q.raw == raw && IsKind(raw, dialect, q.kind) && HasText(raw, Name, q.name)
    && IsInstructions(raw, dialect, q.instructions)
    && (q.kind == Predicate ==>
          q.instructions != Empty || RichInstructions(raw) || (dialect == SystemOne && Criteria in raw))
    && (if q.kind == Choice then
          && AreChoices(raw, dialect, order, q.choices)
          && 1 <= |q.choices| <= 255
          && (forall i | 0 <= i < |q.choices| :: q.choices[i].value.Str? || q.choices[i].value.Bool?)
          && (forall i, j | 0 <= i < j < |q.choices| :: q.choices[i].value != q.choices[j].value)
        else q.choices == [])
    && (if q.kind == Score then AreLevels(raw, dialect, q.levels) && 1 <= |q.levels| <= 10 else q.levels == [])
    && (q.nativeOnly <==>
          || RichInstructions(raw)
          || (q.kind == Choice && RichChoices(raw, dialect))
          || (q.kind == Score && RichLevels(raw, dialect)))
  }

  // ---------- Reading the parts ----------

  lemma KindIff(raw: Fields, dialect: Dialect, kind: Word)
    ensures KindOf(raw, dialect) == Some(kind) <==> IsKind(raw, dialect, kind)
  {
  }

  lemma InstructionsIff(raw: Fields, dialect: Dialect, w: Word, native: bool)
    ensures InstructionsOf(raw, dialect) == Some((w, native)) <==>
            IsInstructions(raw, dialect, w) && (native <==> RichInstructions(raw))
  {
  }

  lemma NameIff(raw: Fields, w: Word)
    ensures MemberText(raw, Name) == Some(w) <==> HasText(raw, Name, w)
  {
  }

  lemma AlternativeIff(j: Json, c: Alternative)
    ensures DecodeAlternative(j) == Some(c) <==> IsAlternative(j, c)
  {
  }

  lemma LevelIff(j: Json, l: Level)
    ensures DecodeLevel(j) == Some(l) <==> IsLevel(j, l)
  {
  }

  lemma CriterionIff(j: Json, w: Word, rich: bool)
    ensures Criterion(j) == Some((w, rich)) <==> Describes(j, w) && (rich <==> Rich(j))
  {
  }

  lemma PlainChoicesIff(raw: Fields, order: Order, cs: seq<Alternative>, native: bool)
    ensures ParseChoices(raw, Plain, order) == Some((cs, native)) <==> AreChoices(raw, Plain, order, cs) && !native
  {
    if Choices in raw && Items(raw[Choices]).Some? {
      var items := Items(raw[Choices]).value;
      var decoded := seq(|items|, i requires 0 <= i < |items| => DecodeAlternative(items[i]));
      if |cs| == |items| {
        forall i | 0 <= i < |items| ensures decoded[i] == Some(cs[i]) <==> IsAlternative(items[i], cs[i]) {
          AlternativeIff(items[i], cs[i]);
        }
        if AreChoices(raw, Plain, order, cs) {
          Collects(decoded, cs);
        }
      }
    }
  }

  lemma {:induction false} OrderLists(order: Order, keys: set<Word>)
    requires Lists(order)
    ensures forall k :: k in order(keys) <==> k in keys
  {
    assert ListsSet(order(keys), keys);
  }

  /** Criteria under their keys, read in order. */
  lemma CriteriaRead(o: Fields, keys: seq<Word>, cs: seq<Alternative>)
    requires forall k :: k in keys <==> k in o
    ensures var read :=
              Collect(seq(|keys|, i requires 0 <= i < |keys| => assert keys[i] in keys; Criterion(o[keys[i]])));
            && (CriteriaAre(o, keys, cs) <==>
                  && read.Some?
                  && cs == seq(|keys|, i requires 0 <= i < |keys| => Alternative(Str(keys[i]), read.value[i].0)))
            && (read.Some? ==>
                  ((exists c | c in read.value :: c.1) <==> exists k | k in o :: Rich(o[k])))
  {
    assert forall i | 0 <= i < |keys| :: keys[i] in keys;
    var criteria := seq(|keys|, i requires 0 <= i < |keys| => Criterion(o[keys[i]]));
    forall i | 0 <= i < |keys| ensures criteria[i].Some? ==> (criteria[i].value.1 <==> Rich(o[keys[i]])) {
      if criteria[i].Some? {
        CriterionIff(o[keys[i]], criteria[i].value.0, criteria[i].value.1);
      }
    }
    if |cs| == |keys| {
      forall i | 0 <= i < |keys|
        ensures criteria[i].Some? && criteria[i].value.0 == cs[i].description <==>
                Describes(o[keys[i]], cs[i].description)
      {
        CriterionIff(o[keys[i]], cs[i].description, Rich(o[keys[i]]));
        if criteria[i].Some? {
          CriterionIff(o[keys[i]], criteria[i].value.0, criteria[i].value.1);
        }
      }
    }
    hide Criterion, Describes, Rich;
    var read := Collect(criteria);
    if read.Some? {
      var found := seq(|keys|, i requires 0 <= i < |keys| => Alternative(Str(keys[i]), read.value[i].0));
      assert found == cs <==>
             |cs| == |keys| && forall i | 0 <= i < |keys| :: cs[i] == Alternative(Str(keys[i]), read.value[i].0);
    }
  }

  lemma NoKeys(order: Order)
    requires Lists(order)
    ensures order({}) == []
  {
    OrderLists(order, {});
    SomeMember(order({}));
  }

  lemma SomeMember(s: seq<Word>)
    ensures s == [] || exists k :: k in s
  {
    if s != [] {
      assert s[0] in s;
    }
  }

  lemma SystemOneChoicesIff(raw: Fields, order: Order, cs: seq<Alternative>, native: bool)
    requires Lists(order)
    ensures ParseChoices(raw, SystemOne, order) == Some((cs, native)) <==>
            AreChoices(raw, SystemOne, order, cs) && (native <==> RichChoices(raw, SystemOne))
  {
    hide Criterion, Collect, CriteriaAre, Rich, Lists;
    if Criteria in raw && Members(raw[Criteria]).Some? {
      var o := Members(raw[Criteria]).value;
      OrderLists(order, o.Keys);
      CriteriaRead(o, order(o.Keys), cs);
      NoCriteria(order, cs);
      assert raw[Criteria] == Null ==> o.Keys == {};
    }
  }

  lemma NoCriteria(order: Order, cs: seq<Alternative>)
    requires Lists(order)
    ensures CriteriaAre(map[], order({}), cs) <==> cs == []
  {
    NoKeys(order);
  }

  lemma PlainLevelsIff(raw: Fields, ls: seq<Level>, native: bool)
    ensures ParseLevels(raw, Plain) == Some((ls, native)) <==> AreLevels(raw, Plain, ls) && !native
  {
    if Levels in raw && Items(raw[Levels]).Some? {
      var items := Items(raw[Levels]).value;
      var decoded := seq(|items|, i requires 0 <= i < |items| => DecodeLevel(items[i]));
      if |ls| == |items| {
        forall i | 0 <= i < |items| ensures decoded[i] == Some(ls[i]) <==> IsLevel(items[i], ls[i]) {
          LevelIff(items[i], ls[i]);
        }
        if AreLevels(raw, Plain, ls) {
          Collects(decoded, ls);
        }
      }
    }
  }

  lemma ItemsRead(items: seq<Json>, ls: seq<Level>)
    ensures var read := Collect(seq(|items|, i requires 0 <= i < |items| => Criterion(items[i])));
            && (read.Some? && |ls| == |items| && (forall i | 0 <= i < |items| :: ls[i] == Level(read.value[i].0, Empty))
                <==> && |ls| == |items|
                     && forall i | 0 <= i < |items| :: Describes(items[i], ls[i].title) && ls[i].description == Empty)
            && (read.Some? ==>
                  ((exists c | c in read.value :: c.1) <==> exists i | 0 <= i < |items| :: Rich(items[i])))
  {
    var criteria := seq(|items|, i requires 0 <= i < |items| => Criterion(items[i]));
    forall i | 0 <= i < |items| ensures criteria[i].Some? ==> (criteria[i].value.1 <==> Rich(items[i])) {
      if criteria[i].Some? {
        CriterionIff(items[i], criteria[i].value.0, criteria[i].value.1);
      }
    }
    if |ls| == |items| {
      forall i | 0 <= i < |items|
        ensures criteria[i].Some? && criteria[i].value.0 == ls[i].title <==> Describes(items[i], ls[i].title)
      {
        CriterionIff(items[i], ls[i].title, Rich(items[i]));
        if criteria[i].Some? {
          CriterionIff(items[i], criteria[i].value.0, criteria[i].value.1);
        }
      }
    }
  }

  lemma SystemOneLevelsIff(raw: Fields, ls: seq<Level>, native: bool)
    ensures ParseLevels(raw, SystemOne) == Some((ls, native)) <==>
            AreLevels(raw, SystemOne, ls) && (native <==> RichLevels(raw, SystemOne))
  {
    hide Criterion, Collect, Describes, Rich;
    if Criteria in raw && Items(raw[Criteria]).Some? {
      var items := Items(raw[Criteria]).value;
      ItemsRead(items, ls);
      var read := Collect(seq(|items|, i requires 0 <= i < |items| => Criterion(items[i])));
      if read.Some? {
        var found := seq(|items|, i requires 0 <= i < |items| => Level(read.value[i].0, Empty));
        assert found == ls <==>
               |ls| == |items| && forall i | 0 <= i < |items| :: ls[i] == Level(read.value[i].0, Empty);
      }
    }
  }

  lemma ChoicesIff(raw: Fields, dialect: Dialect, order: Order, cs: seq<Alternative>, native: bool)
    requires Lists(order)
    ensures ParseChoices(raw, dialect, order) == Some((cs, native)) <==>
            AreChoices(raw, dialect, order, cs) && (native <==> RichChoices(raw, dialect))
  {
    if dialect == Plain {
      PlainChoicesIff(raw, order, cs, native);
    } else {
      SystemOneChoicesIff(raw, order, cs, native);
    }
  }

  lemma LevelsIff(raw: Fields, dialect: Dialect, ls: seq<Level>, native: bool)
    ensures ParseLevels(raw, dialect) == Some((ls, native)) <==>
            AreLevels(raw, dialect, ls) && (native <==> RichLevels(raw, dialect))
  {
    if dialect == Plain {
      PlainLevelsIff(raw, ls, native);
    } else {
      SystemOneLevelsIff(raw, ls, native);
    }
  }

  lemma GoodChoicesIff(cs: seq<Alternative>)
    ensures GoodChoices(cs) <==>
            && 1 <= |cs| <= 255
            && (forall i | 0 <= i < |cs| :: cs[i].value.Str? || cs[i].value.Bool?)
            && (forall i, j | 0 <= i < j < |cs| :: cs[i].value != cs[j].value)
  {
    assert (forall c | c in cs :: c.value.Str? || c.value.Bool?) <==>
           forall i | 0 <= i < |cs| :: cs[i].value.Str? || cs[i].value.Bool?;
  }

  lemma AcceptedReads(raw: Fields, dialect: Dialect, order: Order, q: Question)
    requires Lists(order) && ParseQuestion(raw, dialect, order) == Some(q)
    ensures ReadsQuestion(raw, dialect, order, q)
  {
    hide KindOf, InstructionsOf, MemberText, ParseChoices, ParseLevels, GoodChoices, Lists;
    hide IsKind, IsInstructions, HasText, AreChoices, AreLevels, RichChoices, RichLevels, RichInstructions;
    KindIff(raw, dialect, q.kind);
    NameIff(raw, q.name);
    InstructionsIff(raw, dialect, q.instructions, InstructionsOf(raw, dialect).value.1);
    if q.kind == Choice {
      ChoicesIff(raw, dialect, order, q.choices, ParseChoices(raw, dialect, order).value.1);
      GoodChoicesIff(q.choices);
    }
    if q.kind == Score {
      LevelsIff(raw, dialect, q.levels, ParseLevels(raw, dialect).value.1);
    }
  }

  lemma ReadIsAccepted(raw: Fields, dialect: Dialect, order: Order, q: Question)
    requires Lists(order) && ReadsQuestion(raw, dialect, order, q)
    ensures ParseQuestion(raw, dialect, order) == Some(q)
  {
    hide KindOf, InstructionsOf, MemberText, ParseChoices, ParseLevels, GoodChoices, Lists;
    hide IsKind, IsInstructions, HasText, AreChoices, AreLevels, RichChoices, RichLevels, RichInstructions;
    KindIff(raw, dialect, q.kind);
    KindsAreKnown(raw, dialect, q.kind);
    NameIff(raw, q.name);
    InstructionsIff(raw, dialect, q.instructions, RichInstructions(raw));
    if q.kind == Choice {
      ChoicesIff(raw, dialect, order, q.choices, RichChoices(raw, dialect));
      GoodChoicesIff(q.choices);
    }
    if q.kind == Score {
      LevelsIff(raw, dialect, q.levels, RichLevels(raw, dialect));
    }
  }

  /**
   * A question is accepted exactly if it reads as one, and then as that one: a known kind, texts where
   * texts belong, up to 255 different choices or up to 10 levels, and instructions for a predicate.
   * Rich content is accepted from System One callers only, and marks the question as theirs.
   */
  lemma QuestionIff(raw: Fields, dialect: Dialect, order: Order, q: Question)
    requires Lists(order)
    ensures ParseQuestion(raw, dialect, order) == Some(q) <==> ReadsQuestion(raw, dialect, order, q)
  {
    hide ParseQuestion, ReadsQuestion, Lists;
    if ParseQuestion(raw, dialect, order) == Some(q) {
      AcceptedReads(raw, dialect, order, q);
    } else if ReadsQuestion(raw, dialect, order, q) {
      ReadIsAccepted(raw, dialect, order, q);
    }
  }

  lemma KindsAreKnown(raw: Fields, dialect: Dialect, kind: Word)
    ensures IsKind(raw, dialect, kind) ==> kind in {Predicate, Choice, Score, Box}
    ensures KindOf(raw, dialect).Some? ==> KindOf(raw, dialect).value in {Predicate, Choice, Score, Box}
  {
  }

  // ---------- Which questions are translated ----------

  /** No member of a list has other members than these. */
  predicate ListsOnly(raw: Fields, field: Word, known: set<Word>)
  {
    field !in raw || raw[field] == Null ||
    (raw[field].Arr? &&
     forall i | 0 <= i < |raw[field].items| ::
       raw[field].items[i] == Null || (raw[field].items[i].Obj? && raw[field].items[i].fields.Keys <= known))
  }

  /** Nothing about a question that the other dialect cannot carry. */
  predicate Portable(q: Question, from: Dialect)
  {
    && !q.nativeOnly
    && (forall k | k in q.raw ::
          || k in {Name, Type, Instructions}
          || (from == Plain && k in {Choices, Levels})
          || (from == SystemOne && k == Criteria && q.kind != Predicate))
    && ListsOnly(q.raw, Choices, {Value, Description}) && ListsOnly(q.raw, Levels, {Label, Description})
    && (forall i, j | 0 <= i < j < |q.levels| :: q.levels[i].title != q.levels[j].title)
  }

  lemma ListsOnlyIff(raw: Fields, field: Word, known: set<Word>)
    ensures ItemsKnown(raw, field, known) <==> ListsOnly(raw, field, known)
  {
    if field in raw && raw[field].Arr? {
      var items := raw[field].items;
      assert forall i | 0 <= i < |items| :: items[i] in items;
    }
  }

  lemma PortableIff(q: Question, from: Dialect)
    ensures Translatable(q, from) <==> Portable(q, from)
  {
    ListsOnlyIff(q.raw, Choices, {Value, Description});
    ListsOnlyIff(q.raw, Levels, {Label, Description});
    hide ItemsKnown, ListsOnly;
  }

  ghost predicate Offers(cs: seq<Alternative>, k: Word)
  {
    exists i | 0 <= i < |cs| :: cs[i].value == Str(k)
  }

  /** The criteria of a question for System One: descriptions by choice, or the titles of the levels in order. */
  ghost predicate AreCriteria(q: Question, j: Json)
  {
    if q.kind == Choice then
      && j.Obj?
      && (forall k :: k in j.fields <==> Offers(q.choices, k))
      && forall i | 0 <= i < |q.choices| && LastOf(q.choices, i) ::
           q.choices[i].value.Str? && q.choices[i].value.w in j.fields &&
           j.fields[q.choices[i].value.w] == Str(q.choices[i].description)
    else
      && j.Arr? && |j.items| == |q.levels|
      && forall i | 0 <= i < |q.levels| :: j.items[i] == Str(q.levels[i].title)
  }

  ghost predicate LastOf(cs: seq<Alternative>, i: nat)
    requires i < |cs|
  {
    forall j | i < j < |cs| :: cs[j].value != cs[i].value
  }

  lemma OffersSnoc(front: seq<Alternative>, last: Alternative, k: Word)
    ensures Offers(front + [last], k) <==> Offers(front, k) || last.value == Str(k)
  {
    var cs := front + [last];
    assert cs[|front|] == last;
    if Offers(front, k) {
      var i :| 0 <= i < |front| && front[i].value == Str(k);
      assert cs[i].value == Str(k);
    }
  }

  lemma {:induction false} DescribedNames(cs: seq<Alternative>, k: Word)
    requires forall i | 0 <= i < |cs| :: cs[i].value.Str?
    ensures k in Described(cs) <==> Offers(cs, k)
  {
    if cs != [] {
      var front, last := cs[..|cs| - 1], cs[|cs| - 1];
      assert cs == front + [last];
      DescribedNames(front, k);
      OffersSnoc(front, last, k);
    }
  }

  lemma {:induction false} DescribedLast(cs: seq<Alternative>, i: nat)
    requires i < |cs| && LastOf(cs, i) && forall j | 0 <= j < |cs| :: cs[j].value.Str?
    ensures cs[i].value.w in Described(cs) && Described(cs)[cs[i].value.w] == Str(cs[i].description)
  {
    var front := cs[..|cs| - 1];
    if i < |front| {
      assert cs[|cs| - 1].value != cs[i].value;
      assert forall j | i < j < |front| :: front[j] == cs[j];
      DescribedLast(front, i);
    }
  }

  lemma DescribedAre(cs: seq<Alternative>)
    requires forall i | 0 <= i < |cs| :: cs[i].value.Str?
    ensures forall k :: k in Described(cs) <==> Offers(cs, k)
    ensures forall i | 0 <= i < |cs| && LastOf(cs, i) ::
              cs[i].value.w in Described(cs) && Described(cs)[cs[i].value.w] == Str(cs[i].description)
  {
    hide Described, LastOf, Offers;
    forall k ensures k in Described(cs) <==> Offers(cs, k) {
      DescribedNames(cs, k);
    }
    forall i | 0 <= i < |cs| && LastOf(cs, i)
      ensures cs[i].value.w in Described(cs) && Described(cs)[cs[i].value.w] == Str(cs[i].description)
    {
      DescribedLast(cs, i);
    }
  }

  /**
   * A Decisions question goes to System One exactly if it is portable, offers no booleans and describes
   * no level. There it has its instructions, its kind, a predicate being called noul, and the criteria
   * of a choice or a score, and nothing else.
   */
  lemma TranslatedIff(q: Question)
    ensures var out := ToSystemOne(q);
            && (out.Some? <==>
                  && Portable(q, Plain)
                  && (q.kind == Choice ==> forall i | 0 <= i < |q.choices| :: q.choices[i].value.Str?)
                  && (q.kind == Score ==> forall i | 0 <= i < |q.levels| :: q.levels[i].description == Empty))
            && (out.Some? ==>
                  var m := out.value;
                  && Get(m, Type) == Some(Str(if q.kind == Predicate then Noul else q.kind))
                  && Get(m, Instructions) == Some(Str(q.instructions))
                  && (forall k | k in m :: k in {Type, Instructions, Criteria})
                  && (Criteria in m <==> q.kind == Choice || q.kind == Score)
                  && (Criteria in m ==> AreCriteria(q, m[Criteria])))
  {
    hide Translatable, Portable, Described, LastOf, Offers;
    PortableIff(q, Plain);
    assert (forall i | 0 <= i < |q.choices| :: q.choices[i].value.Str?) <==>
           !exists c | c in q.choices :: !c.value.Str?;
    assert (forall i | 0 <= i < |q.levels| :: q.levels[i].description == Empty) <==>
           !exists l | l in q.levels :: l.description != Empty;
    if q.kind == Choice && forall i | 0 <= i < |q.choices| :: q.choices[i].value.Str? {
      DescribedAre(q.choices);
    }
  }

  /** A choice or a level in a Decisions question; an empty description is left out. */
  predicate Stated(j: Json, member: Word, value: Json, description: Word)
  {
    && j.Obj? && member in j.fields && j.fields[member] == value
    && (forall k | k in j.fields :: k == member || k == Description)
    && (Description in j.fields <==> description != Empty)
    && (description != Empty ==> j.fields[Description] == Str(description))
  }

  /**
   * A System One question goes to a Decisions provider exactly if it is portable. There it has its
   * name, kind and instructions, and the choices of a choice or the levels of a score in order.
   */
  lemma PlainTranslatedIff(q: Question)
    ensures var out := ToPlain(q);
            && (out.Some? <==> Portable(q, SystemOne))
            && (out.Some? ==>
                  var m := out.value;
                  && Get(m, Type) == Some(Str(q.kind)) && Get(m, Name) == Some(Str(q.name))
                  && Get(m, Instructions) == Some(Str(q.instructions))
                  && (forall k | k in m :: k in {Type, Name, Instructions, Choices, Levels})
                  && (Choices in m <==> q.kind == Choice) && (Levels in m <==> q.kind == Score)
                  && (q.kind == Choice ==>
                        && m[Choices].Arr? && |m[Choices].items| == |q.choices|
                        && forall i | 0 <= i < |q.choices| ::
                             Stated(m[Choices].items[i], Value, q.choices[i].value, q.choices[i].description))
                  && (q.kind == Score ==>
                        && m[Levels].Arr? && |m[Levels].items| == |q.levels|
                        && forall i | 0 <= i < |q.levels| ::
                             Stated(m[Levels].items[i], Label, Str(q.levels[i].title), q.levels[i].description)))
  {
    hide Translatable, Portable;
    PortableIff(q, SystemOne);
    forall i | 0 <= i < |q.choices|
      ensures Stated(EncodeAlternative(q.choices[i]), Value, q.choices[i].value, q.choices[i].description)
    {
    }
    forall i | 0 <= i < |q.levels|
      ensures Stated(EncodeLevel(q.levels[i]), Label, Str(q.levels[i].title), q.levels[i].description)
    {
    }
    hide Stated, EncodeAlternative, EncodeLevel;
  }
}
