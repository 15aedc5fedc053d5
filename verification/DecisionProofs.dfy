/**
 * Translating decision questions preserves what they ask.
 */
module DecisionProofs {
  import opened Deployments
  import opened Decisions

  /** The same kind, instructions, described choices and ordered levels. */
  ghost predicate SameMeaning(q: Question, r: Question)
  {
    && r.kind == q.kind && r.instructions == q.instructions
    && Described(r.choices) == Described(q.choices)
    && r.levels == q.levels
  }

  ghost predicate AllTexts(cs: seq<Alternative>)
  {
    forall i | 0 <= i < |cs| :: cs[i].value.Str?
  }

  // ---------- Described choices ----------

  ghost predicate HasValue(cs: seq<Alternative>, k: Word)
  {
    exists i | 0 <= i < |cs| :: cs[i].value == Str(k)
  }

  lemma HasValueSnoc(cs: seq<Alternative>, k: Word)
    requires cs != []
    ensures HasValue(cs, k) <==> HasValue(cs[..|cs| - 1], k) || cs[|cs| - 1].value == Str(k)
  {
    var front := cs[..|cs| - 1];
    if HasValue(front, k) {
      var i :| 0 <= i < |front| && front[i].value == Str(k);
      assert cs[i].value == Str(k);
    }
    if HasValue(cs, k) {
      var i :| 0 <= i < |cs| && cs[i].value == Str(k);
      assert i < |front| ==> front[i].value == Str(k);
    }
  }

  /** The keys of a description are the values described. */
  lemma {:induction false} DescribedKeys(cs: seq<Alternative>, k: Word)
    requires AllTexts(cs)
    ensures k in Described(cs) <==> HasValue(cs, k)
  {
    hide HasValue;
    if cs == [] {
      NothingHasValue(k);
    } else {
      DescribedKeys(cs[..|cs| - 1], k);
      HasValueSnoc(cs, k);
    }
  }

  lemma NothingHasValue(k: Word)
    ensures !HasValue([], k)
  {
  }

  lemma {:induction false} DescribedAt(cs: seq<Alternative>, i: nat)
    requires AllTexts(cs) && DistinctValues(cs) && i < |cs|
    ensures cs[i].value.w in Described(cs) && Described(cs)[cs[i].value.w] == Str(cs[i].description)
  {
    var n := |cs| - 1;
    if i < n {
      DescribedAt(cs[..n], i);
      assert cs[i].value != cs[n].value;
    }
  }

  lemma {:induction false} DescribedCount(cs: seq<Alternative>)
    requires AllTexts(cs) && DistinctValues(cs)
    ensures |Described(cs).Keys| == |cs|
  {
    if cs != [] {
      var front, last := cs[..|cs| - 1], cs[|cs| - 1];
      DescribedCount(front);
      LastIsNew(cs);
      DescribedKeys(front, last.value.w);
      assert Described(cs).Keys == Described(front).Keys + {last.value.w};
    }
  }

  lemma LastIsNew(cs: seq<Alternative>)
    requires cs != [] && AllTexts(cs) && DistinctValues(cs)
    ensures !HasValue(cs[..|cs| - 1], cs[|cs| - 1].value.w)
  {
    var front := cs[..|cs| - 1];
    forall i | 0 <= i < |front| ensures front[i].value != cs[|cs| - 1].value {
      assert cs[i].value != cs[|cs| - 1].value;
    }
  }

  lemma {:induction false} ListedCount(listed: seq<Word>, keys: set<Word>)
    requires ListsSet(listed, keys)
    ensures |listed| == |keys|
  {
    if listed == [] {
      assert keys == {};
    } else {
      var front, last := listed[..|listed| - 1], listed[|listed| - 1];
      assert last in listed;
      forall k ensures k in front <==> k in keys - {last} {
        if k in front {
          var i :| 0 <= i < |front| && front[i] == k;
          assert listed[i] == k && listed[i] != listed[|listed| - 1];
          assert k in listed;
        }
        if k in keys - {last} {
          assert k in listed;
          var i :| 0 <= i < |listed| && listed[i] == k;
          assert front[i] == k;
        }
      }
      ListedCount(front, keys - {last});
    }
  }

  /** The alternatives that the keys of an object are read as. */
  ghost predicate ReadAs(o: Fields, keys: seq<Word>, back: seq<Alternative>)
  {
    && |back| == |keys|
    && forall i | 0 <= i < |keys| :: keys[i] in o && back[i] == Alternative(Str(keys[i]), WordOf(o[keys[i]]))
  }

  lemma BackIsDistinct(o: Fields, keys: seq<Word>, back: seq<Alternative>)
    requires ListsSet(keys, o.Keys) && ReadAs(o, keys, back)
    ensures AllTexts(back) && DistinctValues(back)
  {
    forall i, j | 0 <= i < j < |back| ensures back[i].value != back[j].value {
      assert keys[i] != keys[j];
    }
  }

  lemma BackHas(o: Fields, keys: seq<Word>, back: seq<Alternative>, k: Word)
    requires ListsSet(keys, o.Keys) && ReadAs(o, keys, back)
    requires forall w | w in o :: o[w].Str?
    ensures k in Described(back) <==> k in o
    ensures k in o ==> Described(back)[k] == o[k]
  {
    hide Described;
    BackIsDistinct(o, keys, back);
    DescribedKeys(back, k);
    if k in o {
      assert k in keys;
      var i :| 0 <= i < |keys| && keys[i] == k;
      DescribedAt(back, i);
    }
    if HasValue(back, k) {
      var i :| 0 <= i < |back| && back[i].value == Str(k);
      assert keys[i] == k;
    }
  }

  lemma DescribedTexts(cs: seq<Alternative>)
    requires AllTexts(cs) && DistinctValues(cs)
    ensures forall k | k in Described(cs) :: Described(cs)[k].Str?
  {
    hide Described;
    forall k | k in Described(cs) ensures Described(cs)[k].Str? {
      DescribedKeys(cs, k);
      var i :| 0 <= i < |cs| && cs[i].value == Str(k);
      DescribedAt(cs, i);
    }
  }

  /** Reading an object of descriptions back, in any order, gives choices that describe the same. */
  lemma ReadsDescribed(cs: seq<Alternative>, keys: seq<Word>, back: seq<Alternative>)
    requires AllTexts(cs) && DistinctValues(cs)
    requires ListsSet(keys, Described(cs).Keys) && ReadAs(Described(cs), keys, back)
    ensures |back| == |cs| && AllTexts(back) && DistinctValues(back)
    ensures Described(back) == Described(cs)
  {
    hide Described, ListsSet, ReadAs, DistinctValues, AllTexts;
    DescribedCount(cs);
    DescribedTexts(cs);
    ListedCount(keys, Described(cs).Keys);
    BackIsDistinct(Described(cs), keys, back);
    forall k ensures k in Described(back) <==> k in Described(cs)
             ensures k in Described(cs) ==> Described(back)[k] == Described(cs)[k]
    {
      BackHas(Described(cs), keys, back, k);
    }
    SameCount(Described(cs), keys, back);
  }

  lemma SameCount(o: Fields, keys: seq<Word>, back: seq<Alternative>)
    requires ReadAs(o, keys, back)
    ensures |back| == |keys|
  {
  }

  // ---------- Decisions to System One ----------

  /** The question that System One sees, with its name. */
  function Named(w: Fields, name: Word): Fields
  {
    w[Name := Str(name)]
  }

  lemma ParsedChoices(raw: Fields, dialect: Dialect, order: Order)
    requires ParseQuestion(raw, dialect, order).Some?
    ensures var q := ParseQuestion(raw, dialect, order).value;
            && (q.kind == Choice ==> GoodChoices(q.choices) && q.levels == [])
            && (q.kind == Score ==> 1 <= |q.levels| <= 10 && q.choices == [])
            && (q.kind != Choice && q.kind != Score ==> q.choices == [] && q.levels == [])
            && (q.kind == Predicate || q.kind == Choice || q.kind == Score || q.kind == Box)
            && (q.kind == Predicate && !q.nativeOnly && Criteria !in raw ==> q.instructions != Empty)
            && q.raw == raw
  {
    hide GoodChoices, ParseChoices, ParseLevels;
  }

  lemma PredicateSurvives(q: Question, name: Word, order: Order)
    requires q.kind == Predicate && ToSystemOne(q).Some? && q.instructions != Empty
    ensures var r := ParseQuestion(Named(ToSystemOne(q).value, name), SystemOne, order);
            r.Some? && r.value.kind == Predicate && r.value.instructions == q.instructions && r.value.name == name
            && r.value.choices == [] && r.value.levels == [] && !r.value.nativeOnly
  {
    hide Translatable, ParseChoices, ParseLevels;
  }

  lemma BoxSurvives(q: Question, name: Word, order: Order)
    requires q.kind == Box && ToSystemOne(q).Some?
    ensures var r := ParseQuestion(Named(ToSystemOne(q).value, name), SystemOne, order);
            r.Some? && r.value.kind == Box && r.value.instructions == q.instructions && r.value.name == name
            && r.value.choices == [] && r.value.levels == [] && !r.value.nativeOnly
  {
    hide Translatable, ParseChoices, ParseLevels;
  }

  lemma CriteriaOfChoices(cs: seq<Alternative>, w: Fields, order: Order)
    requires AllTexts(cs) && GoodChoices(cs) && Lists(order)
    requires Criteria in w && w[Criteria] == Obj(Described(cs))
    ensures var r := ParseChoices(w, SystemOne, order);
            r.Some? && !r.value.1 && GoodChoices(r.value.0) && Described(r.value.0) == Described(cs)
  {
    var o := Described(cs);
    var keys := order(o.Keys);
    assert ListsSet(keys, o.Keys);
    DescribedTexts(cs);
    hide Described;
    assert forall k | k in keys :: k in o;
    forall i | 0 <= i < |keys| ensures keys[i] in o && Criterion(o[keys[i]]) == Some((WordOf(o[keys[i]]), false)) {
      assert keys[i] in keys;
    }
    var r := ParseChoices(w, SystemOne, order);
    assert r.Some? && ReadAs(o, keys, r.value.0);
    ReadsDescribed(cs, keys, r.value.0);
  }

  lemma ChoiceSurvives(q: Question, name: Word, order: Order)
    requires q.kind == Choice && ToSystemOne(q).Some? && GoodChoices(q.choices) && Lists(order)
    ensures var r := ParseQuestion(Named(ToSystemOne(q).value, name), SystemOne, order);
            r.Some? && r.value.kind == Choice && r.value.instructions == q.instructions && r.value.name == name
            && Described(r.value.choices) == Described(q.choices) && r.value.levels == [] && !r.value.nativeOnly
  {
    hide Translatable, ParseChoices, ParseLevels, GoodChoices, Lists, Described;
    CriteriaOfChoices(q.choices, Named(ToSystemOne(q).value, name), order);
  }

  lemma CriteriaOfLevels(q: Question, w: Fields)
    requires q.kind == Score && ToSystemOne(q).Some?
    requires Criteria in w && w[Criteria] == ToSystemOne(q).value[Criteria]
    ensures ParseLevels(w, SystemOne) == Some((q.levels, false))
  {
    hide Translatable;
    var items := w[Criteria].items;
    forall i | 0 <= i < |items|
      ensures Criterion(items[i]) == Some((q.levels[i].title, false)) && q.levels[i].description == Empty
    {
      assert q.levels[i] in q.levels;
    }
    var cs := Collect(seq(|items|, i requires 0 <= i < |items| => Criterion(items[i])));
    assert cs.Some? && forall c | c in cs.value :: !c.1;
    var r := ParseLevels(w, SystemOne);
    assert r.Some? && !r.value.1 && |r.value.0| == |q.levels|;
    assert r.value.0 == q.levels;
  }

  lemma ScoreSurvives(q: Question, name: Word, order: Order)
    requires q.kind == Score && ToSystemOne(q).Some? && 1 <= |q.levels| <= 10
    ensures var r := ParseQuestion(Named(ToSystemOne(q).value, name), SystemOne, order);
            r.Some? && r.value.kind == Score && r.value.instructions == q.instructions && r.value.name == name
            && r.value.choices == [] && r.value.levels == q.levels && !r.value.nativeOnly
  {
    CriteriaOfLevels(q, Named(ToSystemOne(q).value, name));
    hide Translatable, ParseChoices, ParseLevels;
  }

  /**
   * A Decisions question that is accepted for System One reads there as a question of the same kind,
   * with the same instructions, the same described choices and the same levels in order.
   */
  lemma QuestionSurvives(raw: Fields, name: Word, order: Order)
    requires Lists(order) && ParseQuestion(raw, Plain, order).Some?
    requires ToSystemOne(ParseQuestion(raw, Plain, order).value).Some?
    ensures var q := ParseQuestion(raw, Plain, order).value;
            var r := ParseQuestion(Named(ToSystemOne(q).value, name), SystemOne, order);
            r.Some? && SameMeaning(q, r.value) && r.value.name == name && !r.value.nativeOnly
  {
    hide ParseQuestion, ToSystemOne, GoodChoices, Lists, Described;
    var q := ParseQuestion(raw, Plain, order).value;
    ParsedChoices(raw, Plain, order);
    TranslatedQuestion(q, Plain);
    if q.kind == Predicate {
      PredicateSurvives(q, name, order);
    } else if q.kind == Choice {
      ChoiceSurvives(q, name, order);
    } else if q.kind == Score {
      ScoreSurvives(q, name, order);
    } else {
      BoxSurvives(q, name, order);
    }
  }

  lemma TranslatedQuestion(q: Question, from: Dialect)
    requires if from == Plain then ToSystemOne(q).Some? else ToPlain(q).Some?
    ensures !q.nativeOnly && DistinctLabels(q.levels)
    ensures q.kind == Predicate ==> Criteria !in q.raw
  {
  }

  /** Every question of a translated request reads back under the name of its position. */
  lemma RequestSurvives(raws: seq<Fields>, questions: seq<Question>, named: Fields, order: Order)
    requires Lists(order) && |questions| == |raws|
    requires forall i | 0 <= i < |raws| :: ParseQuestion(raws[i], Plain, order) == Some(questions[i])
    requires IsWire(questions, named)
    ensures forall i | 0 <= i < |raws| ::
              && Slot(i) in named && named[Slot(i)].Obj?
              && var r := ParseQuestion(Named(named[Slot(i)].fields, Slot(i)), SystemOne, order);
                 r.Some? && SameMeaning(questions[i], r.value) && r.value.name == Slot(i)
    ensures forall k | k in named :: exists i | 0 <= i < |raws| :: k == Slot(i)
  {
    hide ParseQuestion, ToSystemOne, SameMeaning, Lists, Named;
    forall i | 0 <= i < |raws|
      ensures
        && Slot(i) in named && named[Slot(i)].Obj?
        && var r := ParseQuestion(Named(named[Slot(i)].fields, Slot(i)), SystemOne, order);
           r.Some? && SameMeaning(questions[i], r.value) && r.value.name == Slot(i)
    {
      QuestionSurvives(raws[i], Slot(i), order);
    }
    forall k | k in named ensures exists i | 0 <= i < |raws| :: k == Slot(i) {
      assert k == Slot(k.i);
    }
  }

  // ---------- System One to Decisions ----------

  lemma AlternativeReadsBack(c: Alternative)
    ensures DecodeAlternative(EncodeAlternative(c)) == Some(c)
  {
  }

  lemma LevelReadsBack(l: Level)
    ensures DecodeLevel(EncodeLevel(l)) == Some(l)
  {
  }

  lemma ChoicesReadBack(q: Question, w: Fields, order: Order)
    requires q.kind == Choice && ToPlain(q).Some? && w == ToPlain(q).value
    ensures ParseChoices(w, Plain, order) == Some((q.choices, false))
  {
    hide Translatable, EncodeAlternative, DecodeAlternative;
    var items := w[Choices].items;
    forall i | 0 <= i < |items| ensures DecodeAlternative(items[i]) == Some(q.choices[i]) {
      AlternativeReadsBack(q.choices[i]);
    }
    var r := ParseChoices(w, Plain, order);
    assert r.Some? && |r.value.0| == |q.choices|;
    assert r.value.0 == q.choices;
  }

  lemma LevelsReadBack(q: Question, w: Fields)
    requires q.kind == Score && ToPlain(q).Some? && w == ToPlain(q).value
    ensures ParseLevels(w, Plain) == Some((q.levels, false))
  {
    hide Translatable, EncodeLevel, DecodeLevel;
    var items := w[Levels].items;
    forall i | 0 <= i < |items| ensures DecodeLevel(items[i]) == Some(q.levels[i]) {
      LevelReadsBack(q.levels[i]);
    }
    var r := ParseLevels(w, Plain);
    assert r.Some? && |r.value.0| == |q.levels|;
    assert r.value.0 == q.levels;
  }

  /** A System One question that is accepted for Decisions reads there as exactly the same question. */
  lemma NativeQuestionSurvives(raw: Fields, order: Order)
    requires ParseQuestion(raw, SystemOne, order).Some?
    requires ToPlain(ParseQuestion(raw, SystemOne, order).value).Some?
    ensures var q := ParseQuestion(raw, SystemOne, order).value;
            ParseQuestion(ToPlain(q).value, Plain, order) == Some(q.(raw := ToPlain(q).value))
  {
    var q := ParseQuestion(raw, SystemOne, order).value;
    ParsedChoices(raw, SystemOne, order);
    TranslatedQuestion(q, SystemOne);
    NativeRead(q, order);
  }

  lemma NativeRead(q: Question, order: Order)
    requires ToPlain(q).Some? && !q.nativeOnly
    requires q.kind == Choice ==> GoodChoices(q.choices) && q.levels == []
    requires q.kind == Score ==> 1 <= |q.levels| <= 10 && q.choices == []
    requires q.kind == Predicate || q.kind == Box ==> q.choices == [] && q.levels == []
    requires q.kind == Predicate || q.kind == Choice || q.kind == Score || q.kind == Box
    requires q.kind == Predicate ==> q.instructions != Empty
    ensures ParseQuestion(ToPlain(q).value, Plain, order) == Some(q.(raw := ToPlain(q).value))
  {
    hide GoodChoices, ParseChoices, ParseLevels, Translatable;
    if q.kind == Choice {
      ChoicesReadBack(q, ToPlain(q).value, order);
    } else if q.kind == Score {
      LevelsReadBack(q, ToPlain(q).value);
    }
  }
}
