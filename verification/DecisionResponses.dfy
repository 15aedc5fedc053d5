/**
 * Whole decision responses: `ResponseFromWire` of `internal/model/decision_response.go`.
 */
module DecisionResponses {
  import opened Deployments
  import opened Decisions
  import opened DecisionProofs
  import opened DecisionAnswers

  datatype Request = Request(format: Dialect, questions: seq<Question>)

  const ANSWERS := Free("answers")

  // ---------- Finding the answers ----------

  /** The name of an answer in the System One dialect. */
  function AnswerName(r: Request, i: nat): Word
    requires i < |r.questions|
  {
    if r.format == SystemOne then r.questions[i].name else Slot(i)
  }

  function Names(r: Request): (names: seq<Word>)
    ensures |names| == |r.questions| && forall i | 0 <= i < |names| :: names[i] == AnswerName(r, i)
  {
    seq(|r.questions|, i requires 0 <= i < |r.questions| => AnswerName(r, i))
  }

  function AllMembers(items: seq<Json>): Option<seq<Fields>>
  {
    Collect(seq(|items|, i requires 0 <= i < |items| => Members(items[i])))
  }

  /** One answer for each name. */
  function ByName(o: Fields, names: seq<Word>): Option<seq<Fields>>
  {
    if |o| != |names| || (exists k | k in o :: Members(o[k]).None?) then None
    else
      Collect(seq(|names|, i requires 0 <= i < |names| => if names[i] in o then Members(o[names[i]]) else None))
  }

  function Answers(r: Request, fields: Fields, wire: Dialect): (answers: Option<seq<Fields>>)
    ensures answers.Some? ==> |answers.value| == |r.questions|
  {
    if ANSWERS !in fields then None
    else if wire == Plain then
      var items := Items(fields[ANSWERS]);
      if items.None? || |items.value| != |r.questions| then None else AllMembers(items.value)
    else
      var o := Members(fields[ANSWERS]);
      if o.None? then None else ByName(o.value, Names(r))
  }

  /** The loop that looks up an answer for each name. */
  method CollectAnswers(o: Fields, names: seq<Word>) returns (answers: Option<seq<Fields>>)
    ensures answers == ByName(o, names)
  {
    if |o| != |names| || exists k | k in o :: Members(o[k]).None? {
      return None;
    }
    ghost var looked := seq(|names|, i requires 0 <= i < |names| =>
      if names[i] in o then Members(o[names[i]]) else None);
    var found: seq<Fields> := [];
    for i := 0 to |names|
      invariant |found| == i && forall k | 0 <= k < i :: looked[k] == Some(found[k])
    {
      if names[i] !in o {
        assert looked[i].None?;
        return None;
      }
      assert looked[i] == Members(o[names[i]]);
      found := found + [Members(o[names[i]]).value];
    }
    Collects(looked, found);
    answers := Some(found);
  }

  ghost predicate DistinctNames(names: seq<Word>)
  {
    forall i, j | 0 <= i < j < |names| :: names[i] != names[j]
  }

  lemma {:induction false} DistinctSet(names: seq<Word>)
    requires DistinctNames(names)
    ensures |(set k | k in names)| == |names|
  {
    if names == [] {
      assert (set k | k in names) == {};
    } else {
      var front, last := names[..|names| - 1], names[|names| - 1];
      assert names == front + [last];
      forall i | 0 <= i < |front| ensures front[i] != last {
        assert names[i] != names[|names| - 1];
      }
      DistinctSet(front);
      assert (set k | k in names) == (set k | k in front) + {last};
    }
  }

  lemma SubsetOfSameSize(a: set<Word>, b: set<Word>)
    requires a <= b && |a| == |b|
    ensures a == b
  {
    assert b == a + (b - a);
    assert |b| == |a| + |b - a|;
  }

  /** Answers that are accepted by name are exactly the ones that were asked for: no stranger fits in. */
  lemma AcceptedAnswersAreExactlyTheNames(o: Fields, names: seq<Word>)
    requires DistinctNames(names) && ByName(o, names).Some?
    ensures forall k :: k in o <==> k in names
    ensures |ByName(o, names).value| == |names|
    ensures forall i | 0 <= i < |names| :: names[i] in o && Members(o[names[i]]) == Some(ByName(o, names).value[i])
  {
    var looked := seq(|names|, i requires 0 <= i < |names| => if names[i] in o then Members(o[names[i]]) else None);
    forall i | 0 <= i < |names| ensures names[i] in o {
      assert looked[i].Some?;
    }
    DistinctSet(names);
    SubsetOfSameSize((set k | k in names), o.Keys);
  }

  /** A value that is read as an object; null is an empty one. */
  predicate ReadsAs(j: Json, o: Fields)
  {
    j == Obj(o) || (j == Null && o == map[])
  }

  lemma ReadsIff(j: Json)
    ensures forall o :: ReadsAs(j, o) <==> Members(j) == Some(o)
  {
  }

  /** Answers found in a list: as many as questions, in their order. */
  ghost predicate ListedIn(r: Request, j: Json, answers: seq<Fields>)
  {
    && |answers| == |r.questions|
    && ((j == Null && answers == []) ||
        (j.Arr? && |j.items| == |answers| && forall i | 0 <= i < |answers| :: ReadsAs(j.items[i], answers[i])))
  }

  /**
   * Answers found by name: under the caller's names, or, if the caller's dialect is the other one,
   * under the names of the positions; every member is an object, and there are as many as questions.
   */
  ghost predicate NamedIn(r: Request, j: Json, answers: seq<Fields>)
  {
    exists o :: ReadsAs(j, o) && NamedAmong(r, o, answers)
  }

  ghost predicate AllObjects(o: Fields)
  {
    forall k | k in o :: exists a :: ReadsAs(o[k], a)
  }

  ghost predicate NamedAmong(r: Request, o: Fields, answers: seq<Fields>)
  {
    && |o| == |answers| == |r.questions|
    && AllObjects(o)
    && forall i | 0 <= i < |answers| ::
         var name := if r.format == SystemOne then r.questions[i].name else Slot(i);
         name in o && ReadsAs(o[name], answers[i])
  }

  /** Which answers a response has. */
  lemma AnswersIff(r: Request, fields: Fields, wire: Dialect, answers: seq<Fields>)
    ensures Answers(r, fields, wire) == Some(answers) <==>
            ANSWERS in fields &&
            if wire == Plain then ListedIn(r, fields[ANSWERS], answers) else NamedIn(r, fields[ANSWERS], answers)
  {
    hide ListedIn, NamedIn, AllMembers, ByName;
    if ANSWERS in fields {
      var j := fields[ANSWERS];
      if wire == Plain {
        ListedIff(r, j, answers);
      } else {
        NamedIff(r, j, answers);
      }
    }
  }

  lemma ListedIff(r: Request, j: Json, answers: seq<Fields>)
    ensures ListedIn(r, j, answers) <==>
            Items(j).Some? && |Items(j).value| == |r.questions| && AllMembers(Items(j).value) == Some(answers)
  {
    if Items(j).Some? {
      var items := Items(j).value;
      forall i | 0 <= i < |items| {
        ReadsIff(items[i]);
      }
      if ListedIn(r, j, answers) {
        Collects(seq(|items|, i requires 0 <= i < |items| => Members(items[i])), answers);
      }
    }
  }

  lemma NamedIff(r: Request, j: Json, answers: seq<Fields>)
    ensures NamedIn(r, j, answers) <==> Members(j).Some? && ByName(Members(j).value, Names(r)) == Some(answers)
  {
    hide ByName, NamedAmong, ReadsAs;
    ReadsIff(j);
    if Members(j).Some? {
      NamedAmongIff(r, Members(j).value, answers);
    }
  }

  lemma MembersAreObjects(o: Fields)
    ensures AllObjects(o) <==> !exists k | k in o :: Members(o[k]).None?
  {
    forall k | k in o ensures (exists a :: ReadsAs(o[k], a)) <==> Members(o[k]).Some? {
      ReadsIff(o[k]);
      if Members(o[k]).Some? {
        assert ReadsAs(o[k], Members(o[k]).value);
      }
    }
  }

  lemma NamedAmongIff(r: Request, o: Fields, answers: seq<Fields>)
    ensures NamedAmong(r, o, answers) <==> ByName(o, Names(r)) == Some(answers)
  {
    var names := Names(r);
    MembersAreObjects(o);
    forall i | 0 <= i < |names| && names[i] in o {
      ReadsIff(o[names[i]]);
    }
    hide ReadsAs, Members, AllObjects;
    var looked := seq(|names|, i requires 0 <= i < |names| => if names[i] in o then Members(o[names[i]]) else None);
    if NamedAmong(r, o, answers) {
      Collects(looked, answers);
    }
    if ByName(o, names) == Some(answers) {
      forall i | 0 <= i < |answers|
        ensures var name := if r.format == SystemOne then r.questions[i].name else Slot(i);
                name in o && ReadsAs(o[name], answers[i])
      {
        assert looked[i] == Some(answers[i]) && names[i] == AnswerName(r, i);
      }
    }
  }

  // ---------- Accepting and translating them ----------

  predicate Acceptable(a: Fields, q: Question, wire: Dialect)
  {
    Type in a && Valid(a, q, wire)
  }

  /** What was sent to System One had only texts to choose from. */
  predicate Sent(r: Request, wire: Dialect)
  {
    r.format == Plain && wire == SystemOne ==> forall q | q in r.questions :: forall c | c in q.choices :: c.value.Str?
  }

  function Translated(a: Fields, q: Question, format: Dialect): Option<Fields>
    requires format == Plain ==> forall c | c in q.choices :: c.value.Str?
  {
    if format == Plain then ToPlainAnswer(a, q) else ToSystemOneAnswer(a, q)
  }

  /** Answers under the names of their questions; a later one replaces an earlier one. */
  function NamedAnswers(questions: seq<Question>, answers: seq<Fields>): Fields
    requires |answers| <= |questions|
  {
    if answers == [] then map[]
    else
      var k := |answers| - 1;
      NamedAnswers(questions, answers[..k])[questions[k].name := Obj(answers[k])]
  }

  function Listed(answers: seq<Fields>): (items: seq<Json>)
    ensures |items| == |answers| && forall i | 0 <= i < |items| :: items[i] == Obj(answers[i])
  {
    seq(|answers|, i requires 0 <= i < |answers| => Obj(answers[i]))
  }

  method ReadAnswers(r: Request, fields: Fields, wire: Dialect) returns (answers: Option<seq<Fields>>)
    ensures answers == Answers(r, fields, wire)
  {
    if ANSWERS !in fields {
      return None;
    }
    if wire == Plain {
      var items := Items(fields[ANSWERS]);
      if items.None? || |items.value| != |r.questions| {
        return None;
      }
      answers := AllMembers(items.value);
    } else {
      var o := Members(fields[ANSWERS]);
      if o.None? {
        return None;
      }
      answers := CollectAnswers(o.value, Names(r));
    }
  }

  predicate AllAcceptable(r: Request, answers: seq<Fields>, wire: Dialect)
    requires |answers| == |r.questions|
  {
    forall i | 0 <= i < |answers| :: Acceptable(answers[i], r.questions[i], wire)
  }

  /** Every answer translated, in order. */
  function AllTranslated(r: Request, answers: seq<Fields>): (translated: Option<seq<Fields>>)
    requires |answers| == |r.questions| && (r.format == Plain ==> Sent(r, SystemOne))
    ensures translated.Some? ==> |translated.value| == |answers|
  {
    Collect(seq(|answers|, i requires 0 <= i < |answers| =>
      assert r.questions[i] in r.questions; Translated(answers[i], r.questions[i], r.format)))
  }

  /** The response that carries these answers; all other fields stay. */
  function Carrying(r: Request, fields: Fields, answers: seq<Fields>): Fields
    requires |answers| == |r.questions|
  {
    fields[ANSWERS := if r.format == Plain then Arr(Listed(answers)) else Obj(NamedAnswers(r.questions, answers))]
  }

  function Response(r: Request, fields: Fields, wire: Dialect): Option<Fields>
    requires Sent(r, wire)
  {
    var answers := Answers(r, fields, wire);
    if answers.None? || !AllAcceptable(r, answers.value, wire) then None
    else if r.format == wire then Some(fields)
    else
      var translated := AllTranslated(r, answers.value);
      if translated.None? then None else Some(Carrying(r, fields, translated.value))
  }

  /** Reads, checks and translates the answers, one after the other. */
  method ResponseFromWire(r: Request, fields: Fields, wire: Dialect) returns (response: Option<Fields>)
    requires Sent(r, wire)
    ensures response == Response(r, fields, wire)
  {
    hide Acceptable, ToPlainAnswer, ToSystemOneAnswer, Answers;
    var answers := ReadAnswers(r, fields, wire);
    if answers.None? {
      return None;
    }
    for i := 0 to |answers.value|
      invariant forall k | 0 <= k < i :: Acceptable(answers.value[k], r.questions[k], wire)
    {
      if !Acceptable(answers.value[i], r.questions[i], wire) {
        return None;
      }
    }
    if r.format == wire {
      return Some(fields);
    }
    ghost var whole := seq(|answers.value|, i requires 0 <= i < |answers.value| =>
      assert r.questions[i] in r.questions; Translated(answers.value[i], r.questions[i], r.format));
    var converted: seq<Fields> := [];
    var named: Fields := map[];
    for i := 0 to |answers.value|
      invariant |converted| == i && named == NamedAnswers(r.questions, converted)
      invariant forall k | 0 <= k < i :: whole[k] == Some(converted[k])
    {
      assert r.questions[i] in r.questions;
      var a := Translated(answers.value[i], r.questions[i], r.format);
      assert whole[i] == a;
      if a.None? {
        return None;
      }
      assert (converted + [a.value])[..i] == converted;
      converted := converted + [a.value];
      named := named[r.questions[i].name := Obj(a.value)];
    }
    Collects(whole, converted);
    response := Some(fields[ANSWERS := if r.format == Plain then Arr(Listed(converted)) else Obj(named)]);
  }

  // ---------- What a response says ----------

  /** Names before a position. */
  ghost predicate NamedBefore(questions: seq<Question>, n: nat, k: Word)
    requires n <= |questions|
  {
    exists i | 0 <= i < n :: questions[i].name == k
  }

  lemma NamedNext(questions: seq<Question>, n: nat, k: Word)
    requires n < |questions|
    ensures NamedBefore(questions, n + 1, k) <==> NamedBefore(questions, n, k) || questions[n].name == k
  {
    if NamedBefore(questions, n, k) {
      var i :| 0 <= i < n && questions[i].name == k;
      assert 0 <= i < n + 1;
    }
  }

  lemma {:induction false} NamedKeys(questions: seq<Question>, answers: seq<Fields>, k: Word)
    requires |answers| <= |questions|
    ensures k in NamedAnswers(questions, answers) <==> NamedBefore(questions, |answers|, k)
  {
    if answers != [] {
      var n := |answers| - 1;
      NamedKeys(questions, answers[..n], k);
      NamedNext(questions, n, k);
    }
  }

  lemma {:induction false} NamedAt(questions: seq<Question>, answers: seq<Fields>, i: nat)
    requires |answers| <= |questions| && i < |answers|
    requires forall j | i < j < |answers| :: questions[j].name != questions[i].name
    ensures var o := NamedAnswers(questions, answers); questions[i].name in o && o[questions[i].name] == Obj(answers[i])
  {
    var n := |answers| - 1;
    if i < n {
      NamedAt(questions, answers[..n], i);
    }
  }

  predicate UniqueNames(questions: seq<Question>)
  {
    forall i, j | 0 <= i < j < |questions| :: questions[i].name != questions[j].name
  }

  /** Under the names of the questions, if these differ, there is each answer and nothing else. */
  lemma NamedAreAnswers(r: Request, answers: seq<Fields>)
    requires r.format == SystemOne && |answers| == |r.questions|
    ensures AreAnswers(r, Obj(NamedAnswers(r.questions, answers)), answers)
  {
    hide NamedAnswers, NamedBefore;
    var o := NamedAnswers(r.questions, answers);
    if UniqueNames(r.questions) {
      forall k ensures k in o <==> NamedBefore(r.questions, |answers|, k) {
        NamedKeys(r.questions, answers, k);
      }
      forall i | 0 <= i < |answers| ensures r.questions[i].name in o && o[r.questions[i].name] == Obj(answers[i]) {
        NamedAt(r.questions, answers, i);
      }
    }
  }

  lemma CarryingMeans(r: Request, fields: Fields, answers: seq<Fields>)
    requires |answers| == |r.questions|
    ensures var response := Carrying(r, fields, answers);
            && ANSWERS in response && AreAnswers(r, response[ANSWERS], answers)
            && forall k | k != ANSWERS :: Get(response, k) == Get(fields, k)
  {
    hide NamedAnswers, AreAnswers;
    if r.format == SystemOne {
      NamedAreAnswers(r, answers);
    } else {
      ListedAreAnswers(r, answers);
    }
  }

  lemma ListedAreAnswers(r: Request, answers: seq<Fields>)
    requires r.format == Plain && |answers| == |r.questions|
    ensures AreAnswers(r, Arr(Listed(answers)), answers)
  {
  }

  lemma TranslatedAll(r: Request, answers: seq<Fields>)
    requires |answers| == |r.questions| && (r.format == Plain ==> Sent(r, SystemOne))
    ensures AllTranslated(r, answers).Some? <==>
              forall i | 0 <= i < |answers| ::
                r.questions[i] in r.questions && Translated(answers[i], r.questions[i], r.format).Some?
    ensures AllTranslated(r, answers).Some? ==>
              forall i | 0 <= i < |answers| ::
                r.questions[i] in r.questions &&
                Translated(answers[i], r.questions[i], r.format) == Some(AllTranslated(r, answers).value[i])
  {
    hide Translated;
    var whole := seq(|answers|, i requires 0 <= i < |answers| =>
      assert r.questions[i] in r.questions; Translated(answers[i], r.questions[i], r.format));
    assert forall i | 0 <= i < |answers| ::
      r.questions[i] in r.questions && whole[i] == Translated(answers[i], r.questions[i], r.format);
    assert AllTranslated(r, answers) == Collect(whole);
  }

  /**
   * A response is accepted exactly if there is one answer for each question and every answer is valid
   * and, in another dialect, translatable. A native response is passed on as it is; of any other only
   * the answers change. A Decisions caller gets them as a list in the order of the questions, a
   * System One caller under the names of the questions and no others.
   */
  lemma ResponseMeans(r: Request, fields: Fields, wire: Dialect)
    requires Sent(r, wire)
    ensures var answers, response := Answers(r, fields, wire), Response(r, fields, wire);
            && (response.Some? <==>
                  answers.Some? && AllAcceptable(r, answers.value, wire) &&
                  (r.format != wire ==> forall i | 0 <= i < |r.questions| ::
                     r.questions[i] in r.questions && Translated(answers.value[i], r.questions[i], r.format).Some?))
            && (response.Some? ==> forall k | k != ANSWERS :: Get(response.value, k) == Get(fields, k))
            && (response.Some? && r.format == wire ==> response.value == fields)
            && (response.Some? && r.format != wire ==>
                  ANSWERS in response.value &&
                  AreAnswers(r, response.value[ANSWERS], AllTranslated(r, answers.value).value))
  {
    hide Acceptable, Translated, Answers, AllAcceptable, AllTranslated, Carrying, AreAnswers, Get;
    var answers := Answers(r, fields, wire);
    if answers.Some? && r.format != wire {
      TranslatedAll(r, answers.value);
      var translated := AllTranslated(r, answers.value);
      if translated.Some? {
        CarryingMeans(r, fields, translated.value);
      }
    }
  }

  /** How a caller of either dialect finds the answers. */
  ghost predicate AreAnswers(r: Request, j: Json, answers: seq<Fields>)
    requires |answers| == |r.questions|
  {
    if r.format == Plain then j == Arr(Listed(answers))
    else
      && j.Obj?
      && (UniqueNames(r.questions) ==>
            && (forall k :: k in j.fields <==> NamedBefore(r.questions, |answers|, k))
            && (forall i | 0 <= i < |answers| ::
                  r.questions[i].name in j.fields && j.fields[r.questions[i].name] == Obj(answers[i])))
  }

  // ---------- Which answers are accepted ----------

  /** A probability edge of a box. */
  ghost predicate Edge(box: Fields, side: Word, at: real)
  {
    side in box && box[side] == Num(at) && 0.0 <= at && at <= 1.0
  }

  /** The four edges of a box that is not inverted; its other members are numbers or null. */
  ghost predicate IsBox(box: Fields)
  {
    && (exists top, bottom | top <= bottom :: Edge(box, Top, top) && Edge(box, Bottom, bottom))
    && (exists left, right | left <= right :: Edge(box, Left, left) && Edge(box, Right, right))
    && forall side | side in box :: box[side].Num? || box[side] == Null
  }

  /**
   * What an answer must say to a question of each kind: a score lies between the first and the last
   * level, a probability between 0 and 1 under the dialect's name, a choice is a declared one, and a
   * box has its edges in order. A refusal answers any question.
   */
  ghost predicate Meets(a: Fields, q: Question, wire: Dialect)
  {
    && Type in a && a[Type].Str?
    && (|| a[Type] == Str(Refusal)
        || (q.kind == Score && a[Type] == Str(Score) && Score in a && a[Score].Num? &&
            0.0 <= a[Score].n && a[Score].n <= (|q.levels| - 1) as real)
        || (q.kind == Choice && a[Type] == Str(Choice) && Choice in a &&
            exists i | 0 <= i < |q.choices| :: q.choices[i].value == a[Choice])
        || (q.kind == Box && a[Type] == Str(Box) && Box in a && a[Box].Obj? && IsBox(a[Box].fields))
        || (q.kind == Predicate && wire == Plain && a[Type] == Str(Predicate) && Probability in a &&
            a[Probability].Num? && 0.0 <= a[Probability].n && a[Probability].n <= 1.0)
        || (q.kind == Predicate && wire == SystemOne && (a[Type] == Str(Noul) || a[Type] == Str(Predicate)) &&
            Noul in a && a[Noul].Num? && 0.0 <= a[Noul].n && a[Noul].n <= 1.0))
  }

  lemma BoxIff(a: Fields)
    ensures GoodBox(a) <==> Box in a && a[Box].Obj? && IsBox(a[Box].fields)
  {
    if GoodBox(a) {
      var box := a[Box].fields;
      assert Edge(box, Top, box[Top].n) && Edge(box, Bottom, box[Bottom].n);
      assert Edge(box, Left, box[Left].n) && Edge(box, Right, box[Right].n);
    }
  }

  /** An answer is accepted exactly if it meets the question. */
  lemma AcceptableIff(a: Fields, q: Question, wire: Dialect)
    requires KnownKind(q)
    ensures Acceptable(a, q, wire) <==> Meets(a, q, wire)
  {
    hide GoodBox, IsBox;
    BoxIff(a);
    if Choice in a {
      if c :| c in q.choices && c.value == a[Choice] {
        var i :| 0 <= i < |q.choices| && q.choices[i] == c;
      }
    }
  }

  /** A native response is accepted exactly if it has an answer for each question, and each meets its question. */
  lemma NativeResponseIff(r: Request, fields: Fields)
    requires forall q | q in r.questions :: KnownKind(q)
    ensures var answers := Answers(r, fields, r.format);
            Response(r, fields, r.format).Some? <==>
              answers.Some? && forall i | 0 <= i < |r.questions| :: Meets(answers.value[i], r.questions[i], r.format)
  {
    hide Acceptable, Meets, Answers, KnownKind;
    var answers := Answers(r, fields, r.format);
    if answers.Some? {
      forall i | 0 <= i < |r.questions|
        ensures Acceptable(answers.value[i], r.questions[i], r.format) <==>
                  Meets(answers.value[i], r.questions[i], r.format)
      {
        assert r.questions[i] in r.questions;
        AcceptableIff(answers.value[i], r.questions[i], r.format);
      }
    }
  }

  // ---------- The round trip ----------

  /** The questions as System One reads them: the same meaning, under the names of their positions. */
  ghost predicate Carries(questions: seq<Question>, carried: seq<Question>)
  {
    && |questions| == |carried|
    && forall i | 0 <= i < |questions| ::
         && KnownKind(questions[i])
         && SameMeaning(questions[i], carried[i]) && carried[i].name == Slot(i)
         && AllTexts(questions[i].choices) && AllTexts(carried[i].choices)
  }

  lemma SystemOneChoicesAreTexts(raw: Fields, order: Order)
    requires ParseQuestion(raw, SystemOne, order).Some?
    ensures AllTexts(ParseQuestion(raw, SystemOne, order).value.choices)
  {
    hide GoodChoices, ParseLevels, Criterion;
  }

  /** What a Decisions request becomes on the wire carries its questions. */
  lemma TranslatedRequestCarries(raws: seq<Fields>, questions: seq<Question>, named: Fields, carried: seq<Question>,
                                 order: Order)
    requires Lists(order) && |questions| == |raws| == |carried|
    requires forall i | 0 <= i < |raws| :: ParseQuestion(raws[i], Plain, order) == Some(questions[i])
    requires IsWire(questions, named)
    requires forall i | 0 <= i < |raws| ::
               Slot(i) in named && named[Slot(i)].Obj? &&
               ParseQuestion(Named(named[Slot(i)].fields, Slot(i)), SystemOne, order) == Some(carried[i])
    ensures Carries(questions, carried) && Sent(Request(Plain, questions), SystemOne)
  {
    hide ParseQuestion, ToSystemOne, SameMeaning, Lists, Named, AllTexts;
    RequestSurvives(raws, questions, named, order);
    forall i | 0 <= i < |raws|
      ensures AllTexts(questions[i].choices) && AllTexts(carried[i].choices) && SameMeaning(questions[i], carried[i])
      ensures KnownKind(questions[i])
    {
      SystemOneChoicesAreTexts(Named(named[Slot(i)].fields, Slot(i)), order);
      ParsedChoices(raws[i], Plain, order);
      SentChoicesAreTexts(questions[i]);
    }
    forall q | q in questions ensures forall c | c in q.choices :: c.value.Str? {
      var i :| 0 <= i < |questions| && questions[i] == q;
      ParsedChoices(raws[i], Plain, order);
      SentChoicesAreTexts(q);
    }
  }

  lemma SentChoicesAreTexts(q: Question)
    requires ToSystemOne(q).Some? && (q.kind != Choice ==> q.choices == [])
    ensures AllTexts(q.choices) && forall c | c in q.choices :: c.value.Str?
  {
    hide Translatable, Described;
    forall i | 0 <= i < |q.choices| ensures q.choices[i].value.Str? {
      assert q.choices[i] in q.choices;
    }
  }

  lemma SelectedAlike(a: Fields, q: Question, other: Question)
    requires Described(q.choices) == Described(other.choices) && AllTexts(q.choices) && AllTexts(other.choices)
    requires Selected(a, q)
    ensures Selected(a, other)
  {
    hide Described;
    var c :| c in q.choices && c.value == a[Choice];
    var i :| 0 <= i < |q.choices| && q.choices[i] == c;
    DescribedKeys(q.choices, c.value.w);
    DescribedKeys(other.choices, c.value.w);
    assert HasValue(q.choices, c.value.w);
    var j :| 0 <= j < |other.choices| && other.choices[j].value == Str(c.value.w);
    assert other.choices[j] in other.choices;
  }

  lemma {:induction false} FiledAlike(items: seq<Json>, q: Question, other: Question)
    requires q.kind == other.kind && q.levels == other.levels
    ensures Filed(items, q) == Filed(items, other)
  {
    if items != [] {
      FiledAlike(items[..|items| - 1], q, other);
    }
  }

  /** Answers do not depend on how the same question is read. */
  lemma ReadAlike(a: Fields, q: Question, other: Question)
    requires SameMeaning(q, other) && AllTexts(q.choices) && AllTexts(other.choices)
    ensures Valid(a, q, Plain) <==> Valid(a, other, Plain)
    ensures ToSystemOneAnswer(a, q) == ToSystemOneAnswer(a, other)
  {
    hide Described, GoodBox, Filed, LegendOf, Selected;
    if Selected(a, q) {
      SelectedAlike(a, q, other);
    }
    if Selected(a, other) {
      SelectedAlike(a, other, q);
    }
    var b := RenamedToSystemOne(a - {Name});
    if Probabilities in b && Items(b[Probabilities]).Some? {
      FiledAlike(Items(b[Probabilities]).value, q, other);
    }
  }

  lemma AnswerComesBack(a: Fields, q: Question, other: Question)
    requires SameMeaning(q, other) && AllTexts(q.choices) && AllTexts(other.choices)
    requires forall c | c in q.choices :: c.value.Str?
    requires Acceptable(a, q, SystemOne) && ToPlainAnswer(a, q).Some?
    ensures var b := ToPlainAnswer(a, q).value;
            && (Acceptable(b, other, Plain) <==> (TypeOf(a) == Some(Predicate) ==> NumberIn(a, Probability, 1.0)))
            && ToSystemOneAnswer(b, other).Some?
            && Returned(a, ToSystemOneAnswer(b, other).value, q)
  {
    hide ToPlainAnswer, ToSystemOneAnswer, Valid, SameMeaning, NumberIn;
    var b := ToPlainAnswer(a, q).value;
    PlainMembers(a, q);
    ReadAlike(b, q, other);
    PlainAnswerIsValidIff(a, q);
    AnswerReturns(a, q);
  }

  /** A list of answers is read as it was written. */
  lemma AnswersReadBack(r: Request, fields: Fields, answers: seq<Fields>)
    requires |answers| == |r.questions| && ANSWERS in fields && fields[ANSWERS] == Arr(Listed(answers))
    ensures Answers(r, fields, Plain) == Some(answers)
  {
    var items := Listed(answers);
    Collects(seq(|items|, i requires 0 <= i < |items| => Members(items[i])), answers);
  }

  /** The answers of a System One caller, found under the names of positions. */
  ghost predicate AreReturned(questions: seq<Question>, answers: seq<Fields>, j: Json)
    requires |answers| == |questions|
  {
    && j.Obj?
    && (forall k :: k in j.fields <==> k.Slot? && k.i < |answers|)
    && (forall i | 0 <= i < |answers| ::
          && Slot(i) in j.fields && j.fields[Slot(i)].Obj?
          && Returned(answers[i], j.fields[Slot(i)].fields, questions[i]))
  }

  /** An answer that uses the Decisions spelling of a predicate has to carry a probability too. */
  predicate SpeltSafely(a: Fields)
  {
    TypeOf(a) == Some(Predicate) ==> NumberIn(a, Probability, 1.0)
  }

  lemma AllAcceptableBack(r: Request, back: Request, answers: seq<Fields>, translated: seq<Fields>)
    requires r.format == Plain && Sent(r, SystemOne) && Carries(r.questions, back.questions)
    requires |answers| == |r.questions| && AllAcceptable(r, answers, SystemOne)
    requires AllTranslated(r, answers) == Some(translated)
    ensures AllAcceptable(back, translated, Plain) <==> forall i | 0 <= i < |answers| :: SpeltSafely(answers[i])
    ensures back.format == SystemOne ==>
              forall i | 0 <= i < |answers| ::
                && Translated(translated[i], back.questions[i], SystemOne).Some?
                && Returned(answers[i], Translated(translated[i], back.questions[i], SystemOne).value, r.questions[i])
  {
    hide Acceptable, Returned, NumberIn, TypeOf, SameMeaning, AllTexts, AllTranslated;
    TranslatedAll(r, answers);
    forall i | 0 <= i < |answers|
      ensures Acceptable(translated[i], back.questions[i], Plain) <==> SpeltSafely(answers[i])
      ensures Translated(translated[i], back.questions[i], SystemOne).Some?
      ensures Returned(answers[i], Translated(translated[i], back.questions[i], SystemOne).value, r.questions[i])
    {
      assert r.questions[i] in r.questions;
      AnswerComesBack(answers[i], r.questions[i], back.questions[i]);
    }
  }

  lemma SlotNames(questions: seq<Question>)
    requires forall i | 0 <= i < |questions| :: questions[i].name == Slot(i)
    ensures UniqueNames(questions)
    ensures forall k :: NamedBefore(questions, |questions|, k) <==> k.Slot? && k.i < |questions|
  {
    forall k: Word | k.Slot? && k.i < |questions| ensures NamedBefore(questions, |questions|, k) {
      assert questions[k.i].name == k;
    }
  }

  lemma AnswersAreReturned(r: Request, back: Request, answers: seq<Fields>, again: seq<Fields>, j: Json)
    requires |answers| == |again| == |r.questions| == |back.questions| && back.format == SystemOne
    requires forall i | 0 <= i < |back.questions| :: back.questions[i].name == Slot(i)
    requires AreAnswers(back, j, again)
    requires forall i | 0 <= i < |answers| :: Returned(answers[i], again[i], r.questions[i])
    ensures AreReturned(r.questions, answers, j)
  {
    hide Returned, TypeOf, NamedBefore;
    SlotNames(back.questions);
  }

  lemma AreListed(r: Request, j: Json, answers: seq<Fields>)
    requires r.format == Plain && |answers| == |r.questions| && AreAnswers(r, j, answers)
    ensures j == Arr(Listed(answers))
  {
  }

  /** The translated answers come back. */
  lemma TranslatedReturns(r: Request, back: Request, answers: seq<Fields>, translated: seq<Fields>)
    requires r.format == Plain && back.format == SystemOne && Sent(r, SystemOne) && Carries(r.questions, back.questions)
    requires |answers| == |r.questions| && AllAcceptable(r, answers, SystemOne)
    requires AllTranslated(r, answers) == Some(translated)
    ensures AllTranslated(back, translated).Some?
    ensures forall i | 0 <= i < |answers| ::
              Returned(answers[i], AllTranslated(back, translated).value[i], r.questions[i])
  {
    hide Returned, TypeOf, AllTranslated, Translated, AllAcceptable, SameMeaning, AllTexts;
    AllAcceptableBack(r, back, answers, translated);
    TranslatedAll(back, translated);
    assert forall i | 0 <= i < |back.questions| :: back.questions[i] in back.questions;
  }

  /**
   * A whole System One response that a Decisions caller accepts, translated back for the request
   * that was on the wire, is accepted exactly if every answer is spelt safely. Then the same
   * questions are answered, each answer returns, and the other fields are what they were.
   */
  lemma ResponseReturns(r: Request, back: Request, fields: Fields)
    requires r.format == Plain && back.format == SystemOne && Carries(r.questions, back.questions)
    requires Sent(r, SystemOne) && Response(r, fields, SystemOne).Some?
    ensures var answers := Answers(r, fields, SystemOne).value;
            var again := Response(back, Response(r, fields, SystemOne).value, Plain);
            && (again.Some? <==> forall i | 0 <= i < |answers| :: SpeltSafely(answers[i]))
            && (again.Some? ==>
                  && ANSWERS in again.value && AreReturned(r.questions, answers, again.value[ANSWERS])
                  && forall k | k != ANSWERS :: Get(again.value, k) == Get(fields, k))
  {
    hide Response, SpeltSafely, AllAcceptable, Translated, AllTranslated, Answers, Get, AreAnswers, AreReturned;
    ResponseMeans(r, fields, SystemOne);
    var answers, out := Answers(r, fields, SystemOne).value, Response(r, fields, SystemOne).value;
    TranslatedAll(r, answers);
    var translated := AllTranslated(r, answers).value;
    AreListed(r, out[ANSWERS], translated);
    AnswersReadBack(back, out, translated);
    AllAcceptableBack(r, back, answers, translated);
    TranslatedReturns(r, back, answers, translated);
    ResponseMeans(back, out, Plain);
    TranslatedAll(back, translated);
    if Response(back, out, Plain).Some? {
      AnswersAreReturned(r, back, answers, AllTranslated(back, translated).value,
                         Response(back, out, Plain).value[ANSWERS]);
    }
  }

  // ---------- The round trip of a Decisions response ----------

  lemma PlainAnswerComesBack(a: Fields, q: Question, other: Question)
    requires KnownKind(q) && SameMeaning(q, other) && AllTexts(q.choices) && AllTexts(other.choices)
    requires forall c | c in q.choices :: c.value.Str?
    requires Acceptable(a, other, Plain) && ToSystemOneAnswer(a, other).Some?
    ensures var b := ToSystemOneAnswer(a, other).value; var c := ToPlainAnswer(b, q);
            && Acceptable(b, q, SystemOne)
            && (c.Some? <==> Covers(a, q))
            && (c.Some? ==> PlainReturned(a, c.value, q))
  {
    ReadAlike(a, q, other);
    hide ToPlainAnswer, ToSystemOneAnswer, Valid, SameMeaning, Covers, PlainReturned;
    SystemOneAnswerIsValid(a, q);
    PlainAnswerReturns(a, q);
    ValidHasType(ToSystemOneAnswer(a, q).value, q, SystemOne);
  }

  lemma ValidHasType(a: Fields, q: Question, dialect: Dialect)
    ensures Valid(a, q, dialect) ==> Type in a
  {
  }

  /** Answers under the names of positions are read in the order of the positions. */
  lemma SlotsReadBack(o: Fields, answers: seq<Fields>, names: seq<Word>)
    requires |names| == |answers| && forall i | 0 <= i < |names| :: names[i] == Slot(i)
    requires forall k :: k in o <==> k.Slot? && k.i < |answers|
    requires forall i | 0 <= i < |answers| :: Slot(i) in o && o[Slot(i)] == Obj(answers[i])
    ensures ByName(o, names) == Some(answers)
  {
    forall k: Word ensures k in o <==> k in names {
      if k.Slot? && k.i < |names| {
        assert names[k.i] == k;
      }
    }
    DistinctSet(names);
    assert o.Keys == (set k | k in names);
    forall k | k in o ensures Members(o[k]).Some? {
      assert k == Slot(k.i);
    }
    Collects(seq(|names|, i requires 0 <= i < |names| => if names[i] in o then Members(o[names[i]]) else None),
             answers);
  }

  lemma NamedAnswersReadBack(r: Request, back: Request, out: Fields, translated: seq<Fields>)
    requires r.format == SystemOne && back.format == Plain && |translated| == |r.questions| == |back.questions|
    requires forall i | 0 <= i < |r.questions| :: r.questions[i].name == Slot(i)
    requires ANSWERS in out && AreAnswers(r, out[ANSWERS], translated)
    ensures Answers(back, out, SystemOne) == Some(translated)
  {
    hide ByName, NamedBefore;
    SlotNames(r.questions);
    SlotsReadBack(out[ANSWERS].fields, translated, Names(back));
  }

  /** The answers of a Decisions caller, in the order of the questions. */
  ghost predicate ArePlainReturned(questions: seq<Question>, answers: seq<Fields>, j: Json)
    requires |answers| == |questions|
  {
    && j.Arr? && |j.items| == |answers|
    && forall i | 0 <= i < |answers| :: j.items[i].Obj? && PlainReturned(answers[i], j.items[i].fields, questions[i])
  }

  lemma AllComeBack(r: Request, back: Request, answers: seq<Fields>, translated: seq<Fields>)
    requires r.format == SystemOne && back.format == Plain
    requires Sent(back, SystemOne) && Carries(back.questions, r.questions)
    requires |answers| == |r.questions| && AllAcceptable(r, answers, Plain)
    requires AllTranslated(r, answers) == Some(translated)
    ensures AllAcceptable(back, translated, SystemOne)
    ensures AllTranslated(back, translated).Some? <==>
              forall i | 0 <= i < |answers| :: Covers(answers[i], back.questions[i])
    ensures AllTranslated(back, translated).Some? ==>
              ArePlainReturned(back.questions, answers, Arr(Listed(AllTranslated(back, translated).value)))
  {
    hide Acceptable, PlainReturned, SameMeaning, AllTexts, AllTranslated, Covers, ToPlainAnswer, ToSystemOneAnswer;
    hide KnownKind;
    TranslatedAll(r, answers);
    TranslatedAll(back, translated);
    forall i | 0 <= i < |answers|
      ensures back.questions[i] in back.questions
      ensures Acceptable(translated[i], back.questions[i], SystemOne)
      ensures Translated(translated[i], back.questions[i], Plain).Some? <==> Covers(answers[i], back.questions[i])
      ensures Translated(translated[i], back.questions[i], Plain).Some? ==>
                PlainReturned(answers[i], Translated(translated[i], back.questions[i], Plain).value, back.questions[i])
    {
      assert back.questions[i] in back.questions && r.questions[i] in r.questions;
      PlainAnswerComesBack(answers[i], back.questions[i], r.questions[i]);
    }
  }

  /**
   * A whole Decisions response to the questions on the wire that a System One caller accepts,
   * translated back for the Decisions request behind it, is accepted exactly if every answer that has
   * a list of probabilities covers the declared names. Then every answer returns, in order, and the
   * other fields are what they were.
   */
  lemma PlainResponseReturns(r: Request, back: Request, fields: Fields)
    requires r.format == SystemOne && back.format == Plain && Carries(back.questions, r.questions)
    requires Sent(back, SystemOne) && Response(r, fields, Plain).Some?
    ensures var answers := Answers(r, fields, Plain).value;
            var again := Response(back, Response(r, fields, Plain).value, SystemOne);
            && (again.Some? <==> forall i | 0 <= i < |answers| :: Covers(answers[i], back.questions[i]))
            && (again.Some? ==>
                  && ANSWERS in again.value && ArePlainReturned(back.questions, answers, again.value[ANSWERS])
                  && forall k | k != ANSWERS :: Get(again.value, k) == Get(fields, k))
  {
    hide Response, AllAcceptable, Translated, AllTranslated, Answers, Get, AreAnswers, ArePlainReturned, Covers;
    ResponseMeans(r, fields, Plain);
    var answers, out := Answers(r, fields, Plain).value, Response(r, fields, Plain).value;
    TranslatedAll(r, answers);
    var translated := AllTranslated(r, answers).value;
    NamedAnswersReadBack(r, back, out, translated);
    AllComeBack(r, back, answers, translated);
    ResponseMeans(back, out, SystemOne);
    TranslatedAll(back, translated);
    if Response(back, out, SystemOne).Some? {
      AreListed(back, Response(back, out, SystemOne).value[ANSWERS], AllTranslated(back, translated).value);
    }
  }
}
