/**
 * The two translations of a decision answer, member by member: which answers they accept and what
 * becomes of every member.
 */
module AnswerForms {
  import opened Deployments
  import opened Decisions
  import opened DecisionAnswers

  // ---------- Values as they are decoded ----------

  /** A text, or null, which counts as the empty one. */
  predicate SpellsText(j: Json, w: Word)
  {
    j == Str(w) || (j == Null && w == Empty)
  }

  /** A number, or null, which counts as zero. */
  predicate SpellsNumber(j: Json, n: real)
  {
    j == Num(n) || (j == Null && n == 0.0)
  }

  /** A member that may be missing. */
  predicate HasText(o: Fields, k: Word, w: Word)
  {
    if k in o then SpellsText(o[k], w) else w == Empty
  }

  predicate HasNumber(o: Fields, k: Word, n: real)
  {
    if k in o then SpellsNumber(o[k], n) else n == 0.0
  }

  // ---------- Listed probabilities, read as System One will see them ----------

  /** Which name an entry is about: the index that its value and its label agree on, or its value. */
  predicate Names(o: Fields, q: Question, k: Word)
  {
    && Value in o
    && if q.kind == Score then
         k.Index? && k.j < |q.levels| && o[Value] == Num(k.j as real) && HasText(o, Label, q.levels[k.j].title)
       else SpellsText(o[Value], k)
  }

  /** An entry that gives a name a probability; none stated is zero. */
  ghost predicate Gives(e: Json, q: Question, k: Word, p: real)
  {
    && e.Obj? && Names(e.fields, q, k) && HasNumber(e.fields, Probability, p)
    && exists w :: HasText(e.fields, Label, w)
  }

  ghost predicate Fits(e: Json, q: Question)
  {
    exists k, p :: Gives(e, q, k, p)
  }

  lemma TextIs(o: Fields, k: Word)
    ensures MemberText(o, k).Some? <==> exists w :: HasText(o, k, w)
    ensures forall w :: HasText(o, k, w) <==> MemberText(o, k) == Some(w)
  {
    if MemberText(o, k).Some? {
      assert HasText(o, k, MemberText(o, k).value);
    }
  }

  lemma NumberIs(o: Fields)
    ensures EntryNumber(o).Some? <==> exists p :: HasNumber(o, Probability, p)
    ensures forall p :: HasNumber(o, Probability, p) <==> EntryNumber(o) == Some(p)
  {
    if EntryNumber(o).Some? {
      assert HasNumber(o, Probability, EntryNumber(o).value);
    }
  }

  lemma IndexIs(j: Json, i: int)
    ensures AsIndex(j) == Some(i) <==> j == Num(i as real)
  {
    if j == Num(i as real) {
      assert (i as real).Floor == i;
    }
  }

  lemma KeyIs(o: Fields, q: Question, k: Word)
    ensures EntryKey(o, q) == Some(k) <==> Names(o, q, k)
  {
    TextIs(o, Label);
    if Value in o {
      if AsIndex(o[Value]).Some? {
        IndexIs(o[Value], AsIndex(o[Value]).value);
      }
      if k.Index? {
        IndexIs(o[Value], k.j);
      }
    }
    hide AsIndex, MemberText, HasText;
  }

  /** What one entry adds to the probabilities filed by name. */
  ghost predicate Read(e: Json, q: Question, before: map<Word, real>, after: Option<map<Word, real>>)
  {
    && (after.Some? <==> Fits(e, q))
    && (forall k, p | Gives(e, q, k, p) :: after == Some(before[k := p]))
  }

  lemma EntryIsRead(e: Json, q: Question, before: map<Word, real>)
    ensures var o := Members(e);
            Read(e, q, before,
                 if o.None? || MemberText(o.value, Label).None? then None
                 else
                   var key, p := EntryKey(o.value, q), EntryNumber(o.value);
                   if key.None? || p.None? then None else Some(before[key.value := p.value]))
  {
    hide MemberText, EntryKey, EntryNumber, HasText, HasNumber, Names;
    var o := Members(e);
    if o.Some? {
      TextIs(o.value, Label);
      NumberIs(o.value);
      forall k ensures EntryKey(o.value, q) == Some(k) <==> Names(o.value, q, k) {
        KeyIs(o.value, q, k);
      }
      if e == Null {
        NothingNamed(q);
      } else if EntryKey(o.value, q).Some? && EntryNumber(o.value).Some? && MemberText(o.value, Label).Some? {
        assert HasText(o.value, Label, MemberText(o.value, Label).value);
        assert Gives(e, q, EntryKey(o.value, q).value, EntryNumber(o.value).value);
      }
    }
  }

  lemma NothingNamed(q: Question)
    ensures EntryKey(map[], q) == None
  {
  }

  /** All entries fit; each name has the probability of the last entry about it. */
  ghost predicate FiledAs(items: seq<Json>, q: Question, filed: Option<map<Word, real>>)
  {
    && (filed.Some? <==> forall i | 0 <= i < |items| :: Fits(items[i], q))
    && (filed.Some? ==>
          && (forall k :: k in filed.value <==> exists i | 0 <= i < |items| :: About(items[i], q, k))
          && (forall i, k, p | 0 <= i < |items| && Gives(items[i], q, k, p) && LastAbout(items, q, i, k) ::
                filed.value[k] == p))
  }

  ghost predicate About(e: Json, q: Question, k: Word)
  {
    exists p :: Gives(e, q, k, p)
  }

  ghost predicate LastAbout(items: seq<Json>, q: Question, i: nat, k: Word)
    requires i < |items|
  {
    About(items[i], q, k) && forall l | i < l < |items| :: !About(items[l], q, k)
  }

  lemma FiledAsSnoc(items: seq<Json>, e: Json, q: Question, before: map<Word, real>, after: Option<map<Word, real>>)
    requires FiledAs(items, q, Some(before)) && Read(e, q, before, after)
    ensures FiledAs(items + [e], q, after)
  {
    hide Gives;
    var all := items + [e];
    assert all[|items|] == e && forall i | 0 <= i < |items| :: all[i] == items[i];
    if after.Some? {
      var k0, p0 :| Gives(e, q, k0, p0);
      assert after == Some(before[k0 := p0]);
      assert About(e, q, k0);
      forall k ensures About(e, q, k) <==> k == k0 {
        if About(e, q, k) {
          var p :| Gives(e, q, k, p);
          OneName(e, q, k, p, k0, p0);
        }
      }
      forall k ensures k in after.value <==> exists i | 0 <= i < |all| :: About(all[i], q, k) {
        if k in before {
          var i :| 0 <= i < |items| && About(items[i], q, k);
          assert About(all[i], q, k);
        }
        if k == k0 {
          assert About(all[|items|], q, k);
        }
      }
      forall i, k, p | 0 <= i < |all| && Gives(all[i], q, k, p) && LastAbout(all, q, i, k)
        ensures k in after.value && after.value[k] == p
      {
        assert About(all[i], q, k);
        if i == |items| {
          OneName(e, q, k, p, k0, p0);
        } else {
          assert !About(all[|items|], q, k);
          assert LastAbout(items, q, i, k);
        }
      }
    }
  }

  lemma OneName(e: Json, q: Question, k: Word, p: real, l: Word, r: real)
    requires Gives(e, q, k, p) && Gives(e, q, l, r)
    ensures k == l && p == r
  {
    KeyIs(e.fields, q, k);
    KeyIs(e.fields, q, l);
  }

  lemma NothingFiled(q: Question)
    ensures FiledAs([], q, Some(map[]))
  {
  }

  lemma {:induction false} FiledIs(items: seq<Json>, q: Question)
    ensures FiledAs(items, q, Filed(items, q))
  {
    hide FiledAs, Read, MemberText, EntryKey, EntryNumber;
    if items == [] {
      NothingFiled(q);
    } else {
      var front, last := items[..|items| - 1], items[|items| - 1];
      assert items == front + [last];
      FiledIs(front, q);
      if Filed(front, q).Some? {
        EntryIsRead(last, q, Filed(front, q).value);
        FiledAsSnoc(front, last, q, Filed(front, q).value, Filed(items, q));
      } else {
        StaysUnfiled(front, last, q);
      }
    }
  }

  lemma StaysUnfiled(items: seq<Json>, e: Json, q: Question)
    requires FiledAs(items, q, None)
    ensures FiledAs(items + [e], q, None)
  {
    hide Fits;
    var i :| 0 <= i < |items| && !Fits(items[i], q);
    assert !Fits((items + [e])[i], q);
  }

  // ---------- Towards System One ----------

  /** The legend of a scored question: the title of every level under its index. */
  ghost predicate IsLegend(j: Json, ls: seq<Level>)
  {
    && j.Obj?
    && (forall k :: k in j.fields <==> k.Index? && k.j < |ls|)
    && (forall i | 0 <= i < |ls| :: Index(i) in j.fields && j.fields[Index(i)] == Str(ls[i].title))
  }

  lemma {:induction false} LegendIs(ls: seq<Level>)
    ensures IsLegend(Obj(LegendOf(ls)), ls)
  {
    if ls != [] {
      LegendIs(ls[..|ls| - 1]);
    }
  }

  /** The probabilities of an answer, by name. */
  ghost predicate AreFiled(j: Json, items: seq<Json>, q: Question)
  {
    && j.Obj?
    && exists filed: map<Word, real> ::
         FiledAs(items, q, Some(filed)) && j.fields == map k | k in filed :: Num(filed[k])
  }

  /** What becomes of the members that are neither probabilities nor about them. */
  ghost predicate Renamed(a: Fields, b: Fields, from: Word, to: Word, member: Word, newMember: Word, without: Word)
  {
    && (forall k | k !in {Type, member, newMember, Name, Probabilities, Legend} :: Get(b, k) == Get(a, k))
    && (if Type in a && a[Type] == Str(from) then
          && Get(b, Type) == Some(Str(to)) && member !in b
          && Get(b, newMember) == Some(if member in a then a[member] else Null)
        else Get(b, Type) == Get(a, Type) && Get(b, member) == Get(a, member) && Get(b, newMember) == Get(a, newMember))
    && (without == Name ==> Name !in b)
  }

  lemma TowardsSystemOneRenames(a: Fields)
    ensures var b := RenamedToSystemOne(a - {Name});
            && Renamed(a, b, Predicate, Noul, Probability, Noul, Name)
            && Get(b, Probabilities) == Get(a, Probabilities) && Get(b, Legend) == Get(a, Legend)
  {
  }

  /** Probabilities and legend do not matter for the other members. */
  lemma StaysRenamed(a: Fields, b: Fields, c: Fields, from: Word, to: Word, member: Word, newMember: Word,
                     without: Word)
    requires Renamed(a, b, from, to, member, newMember, without)
    requires {member, newMember} <= {Noul, Probability}
    requires forall k | k !in {Probabilities, Legend} :: Get(c, k) == Get(b, k)
    ensures Renamed(a, c, from, to, member, newMember, without)
  {
    assert Get(c, member) == Get(b, member) && Get(c, newMember) == Get(b, newMember);
    assert Get(c, Type) == Get(b, Type) && Get(c, Name) == Get(b, Name);
  }

  /**
   * A Decisions answer is translated exactly if it has no list of probabilities or one whose entries
   * all fit the question. The list becomes the probabilities by name, with the legend of a scored
   * question; predicates are renamed, the name goes, and every other member stays as it is.
   */
  lemma SystemOneAnswerSays(a: Fields, q: Question)
    ensures var items := if Probabilities !in a || a[Probabilities] == Null then Some([])
                         else if a[Probabilities].Arr? then Some(a[Probabilities].items) else None;
            var out := ToSystemOneAnswer(a, q);
            && (out.Some? <==> items.Some? && forall i | 0 <= i < |items.value| :: Fits(items.value[i], q))
            && (out.Some? ==>
                  var b := out.value;
                  && Renamed(a, b, Predicate, Noul, Probability, Noul, Name)
                  && (Probabilities !in a ==> Probabilities !in b && Get(b, Legend) == Get(a, Legend))
                  && (Probabilities in a ==>
                        && Probabilities in b && AreFiled(b[Probabilities], items.value, q)
                        && if q.kind == Score then Legend in b && IsLegend(b[Legend], q.levels)
                           else Get(b, Legend) == Get(a, Legend)))
  {
    hide Filed, Fits, FiledAs, LegendOf, IsLegend, RenamedToSystemOne, Renamed, Numbers;
    LegendIs(q.levels);
    FiledIs([], q);
    TowardsSystemOneRenames(a);
    var out := ToSystemOneAnswer(a, q);
    if Probabilities in a && Items(a[Probabilities]).Some? {
      var items := Items(a[Probabilities]).value;
      FiledIs(items, q);
      FiledFits(items, q);
      if Filed(items, q).Some? {
        NumbersAre(Filed(items, q).value);
      }
    }
    if out.Some? {
      StaysRenamed(a, RenamedToSystemOne(a - {Name}), out.value, Predicate, Noul, Probability, Noul, Name);
    }
  }

  lemma NumbersAre(m: map<Word, real>)
    ensures Numbers(m) == map k | k in m :: Num(m[k])
  {
  }

  lemma FiledFits(items: seq<Json>, q: Question)
    requires FiledAs(items, q, Filed(items, q))
    ensures Filed(items, q).Some? <==> forall i | 0 <= i < |items| :: Fits(items[i], q)
  {
  }

  // ---------- Towards Decisions ----------

  /** The number that an answer of System One gives to a name. */
  ghost predicate Numbered(probs: Json, k: Word, p: real)
  {
    probs.Obj? && k in probs.fields && SpellsNumber(probs.fields[k], p)
  }

  /** The list of probabilities: one entry for each choice or level, in order. */
  ghost predicate IsList(j: Json, probs: Json, q: Question)
  {
    && j.Arr?
    && (q.kind == Choice ==>
          && |j.items| == |q.choices|
          && forall i | 0 <= i < |q.choices| :: IsChoiceEntry(j.items[i], q.choices[i], probs))
    && (q.kind == Score ==>
          && |j.items| == |q.levels|
          && forall i | 0 <= i < |q.levels| :: IsLevelEntry(j.items[i], q.levels[i], i, probs))
    && (q.kind != Choice && q.kind != Score ==> j.items == [])
  }

  ghost predicate IsChoiceEntry(e: Json, c: Alternative, probs: Json)
  {
    exists p :: Numbered(probs, WordOf(c.value), p) && e == Obj(map[Value := c.value, Probability := Num(p)])
  }

  ghost predicate IsLevelEntry(e: Json, l: Level, i: nat, probs: Json)
  {
    exists p :: Numbered(probs, Index(i), p) &&
                e == Obj(map[Label := Str(l.title), Value := Num(i as real), Probability := Num(p)])
  }

  ghost predicate AllNumbers(probs: Json)
  {
    probs == Null || (probs.Obj? && forall k | k in probs.fields :: exists p :: SpellsNumber(probs.fields[k], p))
  }

  predicate Mentions(probs: Json, k: Word)
  {
    probs.Obj? && k in probs.fields
  }

  /** Probabilities that are all numbers and cover what the question declares. */
  ghost predicate Covering(probs: Json, q: Question)
  {
    && AllNumbers(probs)
    && (q.kind == Choice ==> forall i | 0 <= i < |q.choices| :: Mentions(probs, WordOf(q.choices[i].value)))
    && (q.kind == Score ==> forall i | 0 <= i < |q.levels| :: Mentions(probs, Index(i)))
  }

  lemma NamedAre(probs: Json)
    ensures var named := NamedProbabilities(probs);
            && (named.Some? <==> AllNumbers(probs))
            && (named.Some? ==> forall k :: k in named.value <==> Mentions(probs, k))
            && (named.Some? ==> forall k | k in named.value :: Numbered(probs, k, named.value[k]))
  {
    if probs.Obj? {
      forall k | k in probs.fields
        ensures AsNumber(probs.fields[k]).Some? <==> exists p :: SpellsNumber(probs.fields[k], p)
      {
        if AsNumber(probs.fields[k]).Some? {
          assert SpellsNumber(probs.fields[k], AsNumber(probs.fields[k]).value);
        }
      }
    }
  }

  lemma ListedIff(q: Question, named: map<Word, real>)
    ensures ListProbabilities(q, named).Some? <==>
            && (q.kind == Choice ==> forall i | 0 <= i < |q.choices| :: WordOf(q.choices[i].value) in named)
            && (q.kind == Score ==> forall i | 0 <= i < |q.levels| :: Index(i) in named)
  {
    hide Collect, WordOf, ChoiceEntry, LevelEntry;
    assert forall i | 0 <= i < |q.choices| ::
             ChoiceEntries(q.choices, named)[i].Some? <==> WordOf(q.choices[i].value) in named;
    assert forall i | 0 <= i < |q.levels| :: LevelEntries(q.levels, named)[i].Some? <==> Index(i) in named;
  }

  lemma CoveringIff(probs: Json, q: Question)
    ensures var named := NamedProbabilities(probs);
            Covering(probs, q) <==> named.Some? && ListProbabilities(q, named.value).Some?
  {
    hide NamedProbabilities, ListProbabilities, Numbered, WordOf, AllNumbers, Mentions;
    NamedAre(probs);
    var named := NamedProbabilities(probs);
    if named.Some? {
      ListedIff(q, named.value);
    }
  }

  lemma ListIs(probs: Json, q: Question)
    ensures var named := NamedProbabilities(probs);
            named.Some? && ListProbabilities(q, named.value).Some? ==>
              IsList(Arr(ListProbabilities(q, named.value).value), probs, q)
  {
    hide Collect, Numbered, NamedProbabilities;
    NamedAre(probs);
    var named := NamedProbabilities(probs);
    if named.Some? {
      var listed := ListProbabilities(q, named.value);
      if listed.Some? && q.kind == Choice {
        forall i | 0 <= i < |q.choices| ensures IsChoiceEntry(listed.value[i], q.choices[i], probs) {
          assert ChoiceEntries(q.choices, named.value)[i] == Some(listed.value[i]);
          assert Numbered(probs, WordOf(q.choices[i].value), named.value[WordOf(q.choices[i].value)]);
        }
      }
      if listed.Some? && q.kind == Score {
        forall i | 0 <= i < |q.levels| ensures IsLevelEntry(listed.value[i], q.levels[i], i, probs) {
          assert LevelEntries(q.levels, named.value)[i] == Some(listed.value[i]);
          assert Numbered(probs, Index(i), named.value[Index(i)]);
        }
      }
    }
  }

  function NamedToPlain(a: Fields, q: Question): Fields
  {
    RenamedToPlain(a)[Name := if Name in q.raw then q.raw[Name] else Null]
  }

  lemma TowardsPlainRenames(a: Fields, q: Question)
    ensures var b := NamedToPlain(a, q);
            && Renamed(a, b, Noul, Predicate, Noul, Probability, Type)
            && Get(b, Name) == Some(if Name in q.raw then q.raw[Name] else Null)
            && Get(b, Probabilities) == Get(a, Probabilities) && Get(b, Legend) == Get(a, Legend)
  {
  }

  /**
   * A System One answer is translated exactly if it has no probabilities or ones that are numbers and
   * cover the question's choices or levels. They become a list in the order of the question, and the
   * legend goes; the answer gets the question's name; every other member stays as it is.
   */
  lemma PlainAnswerSays(a: Fields, q: Question)
    requires forall c | c in q.choices :: c.value.Str?
    ensures var out := ToPlainAnswer(a, q);
            && (out.Some? <==> (Probabilities in a ==> Covering(a[Probabilities], q)))
            && (out.Some? ==>
                  var b := out.value;
                  && Renamed(a, b, Noul, Predicate, Noul, Probability, Type)
                  && Get(b, Name) == Some(if Name in q.raw then q.raw[Name] else Null)
                  && (Probabilities !in a ==> Probabilities !in b && Get(b, Legend) == Get(a, Legend))
                  && (Probabilities in a ==>
                        Legend !in b && Probabilities in b && IsList(b[Probabilities], a[Probabilities], q)))
  {
    hide IsList, Covering, NamedProbabilities, ListProbabilities, RenamedToPlain, Renamed;
    TowardsPlainRenames(a, q);
    var out := ToPlainAnswer(a, q);
    if Probabilities in a {
      CoveringIff(a[Probabilities], q);
      ListIs(a[Probabilities], q);
    }
    if out.Some? {
      StaysRenamed(a, NamedToPlain(a, q), out.value, Noul, Predicate, Noul, Probability, Type);
    }
  }
}
