/**
 * The two dialects of decision requests, and the translation between them: `parseDecisionQuestion`
 * and `Wire` of `internal/model/decisions.go`, `ResponseFromWire` and `validateDecisionAnswer` of
 * `internal/model/decision_response.go`.
 */
module Decisions {
  import opened Deployments

  /**
   * Texts are only ever compared, so the words of the two dialects are constructors: `Slot(i)` is
   * the name q_i, `Index(j)` the decimal j, and `Free` holds every other text.
   */
  datatype Word =
    | Empty | Free(text: string) | Slot(i: nat) | Index(j: nat)
    | Type | Name | Instructions | Choices | Levels | Criteria | Value | Description | Label
    | Predicate | Noul | Choice | Score | Box | Refusal
    | Probability | Probabilities | Legend | Top | Bottom | Left | Right

  datatype Json =
    | Null | Bool(b: bool) | Num(n: real) | Str(w: Word) | Arr(items: seq<Json>) | Obj(fields: map<Word, Json>)

  type Fields = map<Word, Json>

  datatype Dialect = Plain | SystemOne

  datatype Alternative = Alternative(value: Json, description: Word)

  datatype Level = Level(title: Word, description: Word)

  datatype Question = Question(
    nativeOnly: bool, name: Word, kind: Word, instructions: Word,
    choices: seq<Alternative>, levels: seq<Level>, raw: Fields)

  /** How the keys of an object are listed; the source sorts them. */
  type Order = set<Word> -> seq<Word>

  ghost predicate Lists(order: Order)
  {
    forall keys: set<Word> :: ListsSet(order(keys), keys)
  }

  ghost predicate ListsSet(listed: seq<Word>, keys: set<Word>)
  {
    && (forall k :: k in listed <==> k in keys)
    && (forall i, j | 0 <= i < j < |listed| :: listed[i] != listed[j])
  }

  // ---------- Decoding ----------

  function Get(o: Fields, k: Word): Option<Json>
  {
    if k in o then Some(o[k]) else None
  }

  /** Decoding into a string: null leaves it empty. */
  function AsText(j: Json): Option<Word>
  {
    match j
    case Str(w) => Some(w)
    case Null => Some(Empty)
    case _ => None
  }

  /** Decoding a member of a structure, where it may be missing. */
  function MemberText(o: Fields, k: Word): Option<Word>
  {
    if k in o then AsText(o[k]) else Some(Empty)
  }

  function AsNumber(j: Json): Option<real>
  {
    match j
    case Num(n) => Some(n)
    case Null => Some(0.0)
    case _ => None
  }

  predicate Structured(j: Json)
  {
    j.Obj? || j.Arr?
  }

  function Collect<T>(xs: seq<Option<T>>): (r: Option<seq<T>>)
    ensures r.Some? <==> forall i | 0 <= i < |xs| :: xs[i].Some?
    ensures r.Some? ==> |r.value| == |xs| && forall i | 0 <= i < |xs| :: xs[i] == Some(r.value[i])
  {
    if forall i | 0 <= i < |xs| :: xs[i].Some?
    then Some(seq(|xs|, i requires 0 <= i < |xs| => xs[i].value))
    else None
  }

  lemma Collects<T>(xs: seq<Option<T>>, ys: seq<T>)
    requires |xs| == |ys| && forall i | 0 <= i < |xs| :: xs[i] == Some(ys[i])
    ensures Collect(xs) == Some(ys)
  {
    assert Collect(xs).value == ys;
  }

  function DecodeAlternative(j: Json): Option<Alternative>
  {
    match j
    case Null => Some(Alternative(Null, Empty))
    case Obj(o) =>
      var d := MemberText(o, Description);
      if d.None? then None else Some(Alternative(if Value in o then o[Value] else Null, d.value))
    case _ => None
  }

  function DecodeLevel(j: Json): Option<Level>
  {
    match j
    case Null => Some(Level(Empty, Empty))
    case Obj(o) =>
      var l, d := MemberText(o, Label), MemberText(o, Description);
      if l.None? || d.None? then None else Some(Level(l.value, d.value))
    case _ => None
  }

  function Items(j: Json): Option<seq<Json>>
  {
    match j
    case Arr(items) => Some(items)
    case Null => Some([])
    case _ => None
  }

  function Members(j: Json): Option<Fields>
  {
    match j
    case Obj(o) => Some(o)
    case Null => Some(map[])
    case _ => None
  }

  /** A criterion is a text, or structured content that only the native dialect can carry. */
  function Criterion(j: Json): Option<(Word, bool)>
  {
    var t := AsText(j);
    if t.Some? then Some((t.value, false)) else if Structured(j) then Some((Empty, true)) else None
  }

  /** The alternatives of a choice question, and whether some are native only. */
  function ParseChoices(raw: Fields, dialect: Dialect, order: Order): Option<(seq<Alternative>, bool)>
  {
    if dialect == Plain then
      if Choices !in raw then None
      else
        var items := Items(raw[Choices]);
        if items.None? then None
        else
          var cs := Collect(seq(|items.value|, i requires 0 <= i < |items.value| => DecodeAlternative(items.value[i])));
          if cs.None? then None else Some((cs.value, false))
    else if Criteria !in raw then None
    else
      var o := Members(raw[Criteria]);
      if o.None? then None
      else
        var keys := order(o.value.Keys);
        if !(forall k | k in keys :: k in o.value) then None
        else
          var cs := Collect(seq(|keys|, i requires 0 <= i < |keys| =>
            assert keys[i] in keys; Criterion(o.value[keys[i]])));
          if cs.None? then None
          else
            Some((seq(|keys|, i requires 0 <= i < |keys| => Alternative(Str(keys[i]), cs.value[i].0)),
                  exists c | c in cs.value :: c.1))
  }

  /** The loop over the alternatives of a choice question; it stops at the first that is malformed. */
  method ReadChoices(raw: Fields, dialect: Dialect, order: Order) returns (choices: Option<(seq<Alternative>, bool)>)
    ensures choices == ParseChoices(raw, dialect, order)
  {
    var found: seq<Alternative> := [];
    var native := false;
    if dialect == Plain {
      if Choices !in raw || Items(raw[Choices]).None? {
        return None;
      }
      var items := Items(raw[Choices]).value;
      ghost var decoded := seq(|items|, i requires 0 <= i < |items| => DecodeAlternative(items[i]));
      for i := 0 to |items|
        invariant |found| == i && forall k | 0 <= k < i :: decoded[k] == Some(found[k])
      {
        var c := DecodeAlternative(items[i]);
        assert decoded[i] == c;
        if c.None? {
          return None;
        }
        found := found + [c.value];
      }
      Collects(decoded, found);
    } else {
      if Criteria !in raw || Members(raw[Criteria]).None? {
        return None;
      }
      var o := Members(raw[Criteria]).value;
      var keys := order(o.Keys);
      if !(forall k | k in keys :: k in o) {
        return None;
      }
      ghost var criteria := seq(|keys|, i requires 0 <= i < |keys| => assert keys[i] in keys; Criterion(o[keys[i]]));
      ghost var read: seq<(Word, bool)> := [];
      for i := 0 to |keys|
        invariant |found| == |read| == i
        invariant forall k | 0 <= k < i ::
                    criteria[k] == Some(read[k]) && found[k] == Alternative(Str(keys[k]), read[k].0)
        invariant native <==> exists k | 0 <= k < i :: read[k].1
      {
        assert keys[i] in keys;
        var c := Criterion(o[keys[i]]);
        assert criteria[i] == c;
        if c.None? {
          return None;
        }
        native := native || c.value.1;
        read := read + [c.value];
        found := found + [Alternative(Str(keys[i]), c.value.0)];
      }
      Collects(criteria, read);
      assert native <==> exists c | c in read :: c.1;
      assert found == seq(|keys|, i requires 0 <= i < |keys| => Alternative(Str(keys[i]), read[i].0));
    }
    choices := Some((found, native));
  }

  predicate DistinctValues(cs: seq<Alternative>)
  {
    forall i, j | 0 <= i < j < |cs| :: cs[i].value != cs[j].value
  }

  predicate GoodChoices(cs: seq<Alternative>)
  {
    && 1 <= |cs| <= 255
    && (forall c | c in cs :: c.value.Str? || c.value.Bool?)
    && DistinctValues(cs)
  }

  function ParseLevels(raw: Fields, dialect: Dialect): Option<(seq<Level>, bool)>
  {
    var field := if dialect == Plain then Levels else Criteria;
    if field !in raw then None
    else
      var items := Items(raw[field]);
      if items.None? then None
      else if dialect == Plain then
        var ls := Collect(seq(|items.value|, i requires 0 <= i < |items.value| => DecodeLevel(items.value[i])));
        if ls.None? then None else Some((ls.value, false))
      else
        var cs := Collect(seq(|items.value|, i requires 0 <= i < |items.value| => Criterion(items.value[i])));
        if cs.None? then None
        else
          Some((seq(|cs.value|, i requires 0 <= i < |cs.value| => Level(cs.value[i].0, Empty)),
                exists c | c in cs.value :: c.1))
  }

  /** The loop over the levels of a score question. */
  method ReadLevels(raw: Fields, dialect: Dialect) returns (levels: Option<(seq<Level>, bool)>)
    ensures levels == ParseLevels(raw, dialect)
  {
    var field := if dialect == Plain then Levels else Criteria;
    if field !in raw || Items(raw[field]).None? {
      return None;
    }
    var items := Items(raw[field]).value;
    var found: seq<Level> := [];
    var native := false;
    if dialect == Plain {
      ghost var decoded := seq(|items|, i requires 0 <= i < |items| => DecodeLevel(items[i]));
      for i := 0 to |items|
        invariant |found| == i && forall k | 0 <= k < i :: decoded[k] == Some(found[k])
      {
        var l := DecodeLevel(items[i]);
        assert decoded[i] == l;
        if l.None? {
          return None;
        }
        found := found + [l.value];
      }
      Collects(decoded, found);
    } else {
      ghost var criteria := seq(|items|, i requires 0 <= i < |items| => Criterion(items[i]));
      ghost var read: seq<(Word, bool)> := [];
      for i := 0 to |items|
        invariant |found| == |read| == i
        invariant forall k | 0 <= k < i :: criteria[k] == Some(read[k]) && found[k] == Level(read[k].0, Empty)
        invariant native <==> exists k | 0 <= k < i :: read[k].1
      {
        var c := Criterion(items[i]);
        assert criteria[i] == c;
        if c.None? {
          return None;
        }
        native := native || c.value.1;
        read := read + [c.value];
        found := found + [Level(c.value.0, Empty)];
      }
      Collects(criteria, read);
      assert native <==> exists c | c in read :: c.1;
      assert found == seq(|read|, i requires 0 <= i < |read| => Level(read[i].0, Empty));
    }
    levels := Some((found, native));
  }

  function KindOf(raw: Fields, dialect: Dialect): Option<Word>
  {
    if Type !in raw then None
    else
      var t := AsText(raw[Type]);
      if t.None? then None
      else
        var kind := if dialect == SystemOne && t.value == Noul then Predicate else t.value;
        if kind == Predicate || kind == Choice || kind == Score || kind == Box then Some(kind) else None
  }

  /** The instructions, and whether they are native only. */
  function InstructionsOf(raw: Fields, dialect: Dialect): Option<(Word, bool)>
  {
    if Instructions !in raw then Some((Empty, false))
    else
      var t := AsText(raw[Instructions]);
      if t.Some? then Some((t.value, false))
      else if dialect == SystemOne && Structured(raw[Instructions]) then Some((Empty, true))
      else None
  }

  function ParseQuestion(raw: Fields, dialect: Dialect, order: Order): Option<Question>
  {
    var kind, name, text := KindOf(raw, dialect), MemberText(raw, Name), InstructionsOf(raw, dialect);
    if kind.None? || name.None? || text.None? then None
    else
      var (instructions, native) := text.value;
      var q := Question(native, name.value, kind.value, instructions, [], [], raw);
      match kind.value
      case Predicate =>
        if instructions == Empty && !native && (dialect == Plain || Criteria !in raw) then None else Some(q)
      case Choice =>
        var cs := ParseChoices(raw, dialect, order);
        if cs.None? || !GoodChoices(cs.value.0) then None
        else Some(q.(choices := cs.value.0, nativeOnly := native || cs.value.1))
      case Score =>
        var ls := ParseLevels(raw, dialect);
        if ls.None? || !(1 <= |ls.value.0| <= 10) then None
        else Some(q.(levels := ls.value.0, nativeOnly := native || ls.value.1))
      case _ => Some(q)
  }

  // ---------- Translating questions ----------

  /** No item of an array of objects has other members than these. */
  predicate ItemsKnown(raw: Fields, field: Word, known: set<Word>)
  {
    field in raw ==>
      match raw[field]
      case Null => true
      case Arr(items) => forall i | i in items :: i.Null? || (i.Obj? && i.fields.Keys <= known)
      case _ => false
  }

  predicate DistinctLabels(levels: seq<Level>)
  {
    forall i, j | 0 <= i < j < |levels| :: levels[i].title != levels[j].title
  }

  /** What both directions demand before they translate a question. */
  predicate Translatable(q: Question, from: Dialect)
  {
    && !q.nativeOnly
    && ItemsKnown(q.raw, Choices, {Value, Description}) && ItemsKnown(q.raw, Levels, {Label, Description})
    && DistinctLabels(q.levels)
    && q.raw.Keys <= (if from == SystemOne then {Name, Type, Instructions, Criteria}
                      else {Name, Type, Instructions, Choices, Levels})
    && !(q.kind == Predicate && Criteria in q.raw)
  }

  function WordOf(value: Json): Word
  {
    if value.Str? then value.w else Empty
  }

  /** The described alternatives, as an object. */
  function Described(cs: seq<Alternative>): Fields
  {
    if cs == [] then map[]
    else
      var last := cs[|cs| - 1];
      Described(cs[..|cs| - 1])[WordOf(last.value) := Str(last.description)]
  }

  /** The loop that describes alternatives to System One; a boolean one has no place there. */
  method DescribeChoices(cs: seq<Alternative>) returns (criteria: Option<Fields>)
    ensures criteria == if exists c | c in cs :: !c.value.Str? then None else Some(Described(cs))
  {
    var o: Fields := map[];
    for i := 0 to |cs|
      invariant forall k | 0 <= k < i :: cs[k].value.Str?
      invariant o == Described(cs[..i])
    {
      assert cs[..i + 1][..i] == cs[..i];
      if !cs[i].value.Str? {
        return None;
      }
      o := o[cs[i].value.w := Str(cs[i].description)];
    }
    assert cs[..|cs|] == cs;
    criteria := Some(o);
  }

  /** A question for the System One dialect, which has no names, booleans or level descriptions. */
  function ToSystemOne(q: Question): Option<Fields>
  {
    if !Translatable(q, Plain) then None
    else
      match q.kind
      case Predicate => Some(map[Type := Str(Noul), Instructions := Str(q.instructions)])
      case Choice =>
        if exists c | c in q.choices :: !c.value.Str? then None
        else Some(map[Type := Str(Choice), Instructions := Str(q.instructions), Criteria := Obj(Described(q.choices))])
      case Score =>
        if exists l | l in q.levels :: l.description != Empty then None
        else
          Some(map[Type := Str(Score), Instructions := Str(q.instructions),
                   Criteria := Arr(seq(|q.levels|, i requires 0 <= i < |q.levels| => Str(q.levels[i].title)))])
      case k => Some(map[Type := Str(k), Instructions := Str(q.instructions)])
  }

  /** An empty description is left out. */
  function EncodeAlternative(c: Alternative): Json
  {
    Obj(if c.description == Empty then map[Value := c.value]
        else map[Value := c.value, Description := Str(c.description)])
  }

  function EncodeLevel(l: Level): Json
  {
    Obj(if l.description == Empty then map[Label := Str(l.title)]
        else map[Label := Str(l.title), Description := Str(l.description)])
  }

  function ToPlain(q: Question): Option<Fields>
  {
    if !Translatable(q, SystemOne) then None
    else
      var m: Fields := map[Type := Str(q.kind), Instructions := Str(q.instructions), Name := Str(q.name)];
      match q.kind
      case Choice =>
        Some(m[Choices := Arr(seq(|q.choices|, i requires 0 <= i < |q.choices| => EncodeAlternative(q.choices[i])))])
      case Score =>
        Some(m[Levels := Arr(seq(|q.levels|, i requires 0 <= i < |q.levels| => EncodeLevel(q.levels[i])))])
      case _ => Some(m)
  }

  /** All questions for System One, under the names q_0, q_1 and so on. */
  method WireQuestions(questions: seq<Question>) returns (named: Option<Fields>)
    ensures named.None? <==> exists q | q in questions :: ToSystemOne(q).None?
    ensures named.Some? ==> IsWire(questions, named.value)
  {
    var m: Fields := map[];
    for i := 0 to |questions|
      invariant forall k | 0 <= k < i :: ToSystemOne(questions[k]).Some?
      invariant IsWire(questions[..i], m)
    {
      var w := ToSystemOne(questions[i]);
      if w.None? {
        return None;
      }
      m := m[Slot(i) := Obj(w.value)];
    }
    assert questions[..|questions|] == questions;
    named := Some(m);
  }

  /** The translated questions, each under the name of its position, and nothing else. */
  ghost predicate IsWire(questions: seq<Question>, named: Fields)
  {
    && (forall i | 0 <= i < |questions| ::
          ToSystemOne(questions[i]).Some? && Slot(i) in named && named[Slot(i)] == Obj(ToSystemOne(questions[i]).value))
    && (forall k | k in named :: k.Slot? && k.i < |questions|)
  }
}
