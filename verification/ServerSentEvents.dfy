/**
 * Reading event records from a stream: `internal/provider/sse.go`, with the printing that
 * `StreamEncoder.event` of `internal/anthropic/stream.go` does.
 */
module ServerSentEvents {
  import opened Deployments

  datatype Record = Record(event: string, data: string)

  // ---------- Strings ----------

  /** The position of the first `c`, or the length if there is none. */
  function Find(s: string, c: char): (n: nat)
    ensures n <= |s| && c !in s[..n]
    ensures n < |s| ==> s[n] == c
  {
    if s == "" || s[0] == c then 0
    else
      var n := Find(s[1..], c);
      assert s[..n + 1] == [s[0]] + s[1..][..n];
      n + 1
  }

  /** Without one carriage return at the end. */
  function TrimReturn(s: string): string
  {
    if s != "" && s[|s| - 1] == '\r' then s[..|s| - 1] else s
  }

  /** Without one space in front. */
  function TrimSpace(s: string): string
  {
    if s != "" && s[0] == ' ' then s[1..] else s
  }

  function Join(lines: seq<string>): string
  {
    if lines == [] then ""
    else if |lines| == 1 then lines[0]
    else Join(lines[..|lines| - 1]) + "\n" + lines[|lines| - 1]
  }

  // ---------- Reading ----------

  /** The next line, what follows it, and whether the input ended without another line feed. */
  function CutLine(rest: string): (string, string, bool)
  {
    var n := Find(rest, '\n');
    if n < |rest| then (TrimReturn(rest[..n]), rest[n + 1..], false) else (TrimReturn(rest), "", true)
  }

  function Field(line: string): string
  {
    line[..Find(line, ':')]
  }

  function Value(line: string): string
  {
    var n := Find(line, ':');
    TrimSpace(if n < |line| then line[n + 1..] else "")
  }

  function EventAfter(event: string, line: string): string
  {
    if Field(line) == "event" then Value(line) else event
  }

  function DataAfter(data: seq<string>, line: string): seq<string>
  {
    if Field(line) == "data" then data + [Value(line)] else data
  }

  /** What reading one record gives, and where it leaves the input. */
  datatype Reading = Reading(record: Option<Record>, failed: bool, rest: string, eof: bool)

  /** The end of the input is either its end or, if the input is broken, an error that stays. */
  function Scan(rest: string, eof: bool, broken: bool, event: string, data: seq<string>): Reading
    decreases |rest|, if eof then 0 else 1
  {
    if eof then Reading(None, false, rest, eof)
    else
      var (line, rest1, ended) := CutLine(rest);
      if ended && broken then Reading(None, true, rest1, eof)
      else if line == "" then
        if data != [] then Reading(Some(Record(event, Join(data))), false, rest1, ended)
        else Scan(rest1, ended, broken, event, data)
      else
        var event1, data1 := EventAfter(event, line), DataAfter(data, line);
        if ended && data1 != [] then Reading(Some(Record(event1, Join(data1))), false, rest1, ended)
        else Scan(rest1, ended, broken, event1, data1)
  }

  lemma {:induction false} ScanAdvances(rest: string, eof: bool, broken: bool, event: string, data: seq<string>)
    ensures var r := Scan(rest, eof, broken, event, data);
            |r.rest| <= |rest| && (r.record.Some? ==> |r.rest| < |rest| || (!eof && r.eof))
    decreases |rest|, if eof then 0 else 1
  {
    hide Join, EventAfter, DataAfter, TrimReturn;
    if !eof {
      var (line, rest1, ended) := CutLine(rest);
      if ended && broken {
      } else if line == "" && data == [] {
        ScanAdvances(rest1, ended, broken, event, data);
      } else if line != "" && !(ended && DataAfter(data, line) != []) {
        ScanAdvances(rest1, ended, broken, EventAfter(event, line), DataAfter(data, line));
      }
    }
  }

  class SSEReader {
    var rest: string
    var eof: bool
    const broken: bool

    constructor (input: string, broken: bool)
      ensures rest == input && !eof && this.broken == broken
    {
      rest, eof, this.broken := input, false, broken;
    }

    /** Up to and including the next line feed. */
    method ReadString() returns (line: string, ended: bool)
      modifies this`rest
      ensures var n := Find(old(rest), '\n');
              if n < |old(rest)| then line == old(rest)[..n + 1] && rest == old(rest)[n + 1..] && !ended
              else line == old(rest) && rest == "" && ended
    {
      var n := Find(rest, '\n');
      if n < |rest| {
        line, rest, ended := rest[..n + 1], rest[n + 1..], false;
      } else {
        line, rest, ended := rest, "", true;
      }
    }

    method Next() returns (record: Option<Record>, failed: bool)
      modifies this
      ensures Reading(record, failed, rest, eof) == Scan(old(rest), old(eof), broken, "", [])
    {
      hide Join, Field, Value;
      var event, data := "", [];
      while true
        invariant Scan(old(rest), old(eof), broken, "", []) == Scan(rest, eof, broken, event, data)
        decreases |rest|, if eof then 0 else 1
      {
        if eof {
          return None, false;
        }
        ghost var before := rest;
        var line, ended := ReadString();
        if ended && broken {
          return None, true;
        }
        eof := ended;
        if line != "" && line[|line| - 1] == '\n' {
          line := line[..|line| - 1];
        }
        NoLineFeed(before);
        line := TrimReturn(line);
        assert (line, rest, eof) == CutLine(before);
        if line == "" {
          if data != [] {
            return Some(Record(event, Join(data))), false;
          }
          continue;
        }
        if Field(line) == "event" {
          event := Value(line);
        } else if Field(line) == "data" {
          data := data + [Value(line)];
        }
        if eof && data != [] {
          return Some(Record(event, Join(data))), false;
        }
      }
    }

    /** Every record until the end of the input or the error. */
    method ReadAll() returns (records: seq<Record>, failed: bool)
      modifies this
      ensures records == AllRecords(old(rest), old(eof), broken)
      ensures failed ==> broken
    {
      hide Scan, AllRecords;
      records, failed := [], false;
      var done := false;
      while !done
        invariant AllRecords(old(rest), old(eof), broken) ==
                  if done then records else records + AllRecords(rest, eof, broken)
        invariant failed ==> broken
        decreases !done, |rest|, if eof then 0 else 1
      {
        ScanAdvances(rest, eof, broken, "", []);
        OnlyBrokenFails(rest, eof, broken, "", []);
        RecordsFrom(records, rest, eof, broken);
        var record;
        record, failed := Next();
        if record.None? {
          done := true;
        } else {
          records := records + [record.value];
        }
      }
    }
  }

  lemma {:induction false} OnlyBrokenFails(rest: string, eof: bool, broken: bool, event: string, data: seq<string>)
    ensures Scan(rest, eof, broken, event, data).failed ==> broken
    decreases |rest|, if eof then 0 else 1
  {
    hide Join, EventAfter, DataAfter, TrimReturn;
    if !eof {
      var (line, rest1, ended) := CutLine(rest);
      if line == "" && data == [] {
        OnlyBrokenFails(rest1, ended, broken, event, data);
      } else if line != "" {
        OnlyBrokenFails(rest1, ended, broken, EventAfter(event, line), DataAfter(data, line));
      }
    }
  }

  lemma NoLineFeed(s: string)
    ensures Find(s, '\n') == |s| ==> '\n' !in s
    ensures Find(s, '\n') < |s| ==> s[..Find(s, '\n') + 1][..Find(s, '\n')] == s[..Find(s, '\n')]
  {
    assert s[..|s|] == s;
  }

  function AllRecords(rest: string, eof: bool, broken: bool): seq<Record>
    decreases |rest|, if eof then 0 else 1
  {
    ScanAdvances(rest, eof, broken, "", []);
    var r := Scan(rest, eof, broken, "", []);
    if r.record.None? then [] else [r.record.value] + AllRecords(r.rest, r.eof, broken)
  }

  /** Records read already, the next one, and what is then left to read. */
  lemma RecordsFrom(records: seq<Record>, rest: string, eof: bool, broken: bool)
    ensures var r := Scan(rest, eof, broken, "", []);
            records + AllRecords(rest, eof, broken) ==
            if r.record.None? then records else records + [r.record.value] + AllRecords(r.rest, r.eof, broken)
  {
    hide Scan;
  }

  // ---------- Printing ----------

  /** A record to print: its event and its data, line by line. */
  datatype Printed = Printed(event: string, lines: seq<string>)

  function PrintLines(lines: seq<string>): string
  {
    if lines == [] then "" else "data: " + lines[0] + "\n" + PrintLines(lines[1..])
  }

  function Print(p: Printed): string
  {
    "event: " + p.event + "\n" + PrintLines(p.lines) + "\n"
  }

  function PrintAll(ps: seq<Printed>): string
  {
    if ps == [] then "" else Print(ps[0]) + PrintAll(ps[1..])
  }

  /** One line that a line reader gives back unchanged. */
  predicate Plain(s: string)
  {
    '\n' !in s && (s != "" ==> s[|s| - 1] != '\r')
  }

  predicate Printable(p: Printed)
  {
    Plain(p.event) && p.lines != [] && forall l | l in p.lines :: Plain(l)
  }

  function Content(p: Printed): Record
  {
    Record(p.event, Join(p.lines))
  }

  function Contents(ps: seq<Printed>): (rs: seq<Record>)
  {
    if ps == [] then [] else [Content(ps[0])] + Contents(ps[1..])
  }

  // ---------- The round trip ----------

  lemma {:induction false} FindAfter(a: string, c: char, rest: string)
    requires c !in a
    ensures Find(a + [c] + rest, c) == |a|
  {
    if a == "" {
      assert a + [c] + rest == [c] + rest;
    } else {
      assert a[0] in a && forall d | d in a[1..] :: d in a;
      assert (a + [c] + rest)[1..] == a[1..] + [c] + rest;
      FindAfter(a[1..], c, rest);
    }
  }

  lemma CutsPlain(line: string, rest: string)
    requires Plain(line)
    ensures CutLine(line + "\n" + rest) == (line, rest, false)
  {
    FindAfter(line, '\n', rest);
    assert (line + "\n" + rest)[..|line|] == line;
  }

  /** A field and its value, as printed. */
  lemma FieldAndValue(field: string, value: string)
    requires ':' !in field
    ensures Field(field + ": " + value) == field && Value(field + ": " + value) == value
  {
    var line := field + ": " + value;
    assert line == field + [':'] + (" " + value);
    FindAfter(field, ':', " " + value);
    assert line[..|field|] == field && line[|field| + 1..] == " " + value;
    assert (" " + value)[1..] == value;
  }

  lemma PlainField(field: string, value: string)
    requires Plain(value) && '\n' !in field
    ensures Plain(field + ": " + value)
  {
  }

  lemma ScanEvent(value: string, rest: string, broken: bool, event: string, data: seq<string>)
    requires Plain(value)
    ensures Scan("event: " + value + "\n" + rest, false, broken, event, data) == Scan(rest, false, broken, value, data)
  {
    hide Field, Value, Join, Plain;
    var line := "event" + ": " + value;
    FieldAndValue("event", value);
    PlainField("event", value);
    CutsPlain(line, rest);
    assert "event: " + value + "\n" + rest == line + "\n" + rest;
  }

  lemma ScanData(value: string, rest: string, broken: bool, event: string, data: seq<string>)
    requires Plain(value)
    ensures Scan("data: " + value + "\n" + rest, false, broken, event, data) ==
            Scan(rest, false, broken, event, data + [value])
  {
    hide Field, Value, Join, Plain;
    var line := "data" + ": " + value;
    FieldAndValue("data", value);
    PlainField("data", value);
    CutsPlain(line, rest);
    assert "data: " + value + "\n" + rest == line + "\n" + rest;
  }

  lemma ScanBlank(rest: string, broken: bool, event: string, data: seq<string>)
    requires data != []
    ensures Scan("\n" + rest, false, broken, event, data) ==
            Reading(Some(Record(event, Join(data))), false, rest, false)
  {
    hide Join;
    CutsPlain("", rest);
    assert "" + "\n" + rest == "\n" + rest;
  }

  lemma PrintLinesThen(lines: seq<string>, rest: string)
    requires lines != []
    ensures PrintLines(lines) + rest == "data: " + lines[0] + "\n" + (PrintLines(lines[1..]) + rest)
  {
    Reassociate("data: " + lines[0] + "\n", PrintLines(lines[1..]), rest);
  }

  lemma Reassociate(a: string, b: string, c: string)
    ensures (a + b) + c == a + (b + c)
  {
  }

  lemma NoLines(rest: string, data: seq<string>)
    ensures PrintLines([]) + rest == rest && data + [] == data
  {
  }

  lemma {:induction false} ScanLines(lines: seq<string>, rest: string, broken: bool, event: string, data: seq<string>)
    requires forall l | l in lines :: Plain(l)
    ensures Scan(PrintLines(lines) + rest, false, broken, event, data) == Scan(rest, false, broken, event, data + lines)
  {
    hide Scan, Plain, PrintLines;
    if lines == [] {
      NoLines(rest, data);
    } else {
      var first, others := lines[0], lines[1..];
      assert first in lines && forall l | l in others :: l in lines;
      PrintLinesThen(lines, rest);
      ScanData(first, PrintLines(others) + rest, broken, event, data);
      ScanLines(others, rest, broken, event, data + [first]);
      assert data + [first] + others == data + lines;
    }
  }

  lemma ReadsOne(p: Printed, rest: string, broken: bool)
    requires Printable(p)
    ensures Scan(Print(p) + rest, false, broken, "", []) == Reading(Some(Content(p)), false, rest, false)
  {
    hide Scan, PrintLines, Plain, Join;
    assert Print(p) + rest == "event: " + p.event + "\n" + (PrintLines(p.lines) + ("\n" + rest));
    ScanEvent(p.event, PrintLines(p.lines) + ("\n" + rest), broken, "", []);
    ScanLines(p.lines, "\n" + rest, broken, p.event, []);
    assert [] + p.lines == p.lines;
    ScanBlank(rest, broken, p.event, p.lines);
  }

  lemma {:induction false} ReadsAll(ps: seq<Printed>, rest: string, broken: bool)
    requires forall p | p in ps :: Printable(p)
    requires Scan(rest, false, broken, "", []).record == None
    ensures AllRecords(PrintAll(ps) + rest, false, broken) == Contents(ps)
  {
    hide Scan, Print, Printable, Content;
    if ps == [] {
      assert PrintAll(ps) + rest == rest;
    } else {
      assert ps[0] in ps && forall p | p in ps[1..] :: p in ps;
      Reassociate(Print(ps[0]), PrintAll(ps[1..]), rest);
      ReadsOne(ps[0], PrintAll(ps[1..]) + rest, broken);
      ReadsAll(ps[1..], rest, broken);
    }
  }

  /**
   * Reading back any sequence of printed records gives exactly these records, as long as no printed
   * line contains a line feed or ends in a carriage return, and whether the input then ends or
   * breaks. Records with several data lines come back with the lines joined.
   */
  lemma PrintedRecordsReadBack(ps: seq<Printed>, broken: bool)
    requires forall p | p in ps :: Printable(p)
    ensures AllRecords(PrintAll(ps), false, broken) == Contents(ps)
  {
    hide Scan, Printable, Contents;
    NothingToRead(broken);
    ReadsAll(ps, "", broken);
    assert PrintAll(ps) + "" == PrintAll(ps);
  }

  lemma NothingToRead(broken: bool)
    ensures Scan("", false, broken, "", []).record == None
  {
    assert CutLine("") == ("", "", true);
    assert !broken ==> Scan("", false, broken, "", []) == Scan("", true, broken, "", []);
  }

  /** A text cut at its line feeds. */
  function Lines(s: string): (lines: seq<string>)
    ensures lines != []
  {
    var n := Find(s, '\n');
    if n < |s| then [s[..n]] + Lines(s[n + 1..]) else [s]
  }

  lemma JoinCons(line: string, lines: seq<string>)
    requires lines != []
    ensures Join([line] + lines) == line + "\n" + Join(lines)
  {
    var all := [line] + lines;
    if |lines| > 1 {
      JoinCons(line, lines[..|lines| - 1]);
      assert all[..|lines|] == [line] + lines[..|lines| - 1];
    } else {
      assert all[..1] == [line] && lines == [lines[0]];
    }
  }

  /** Joined lines come apart again: the data of a record determines its data lines. */
  lemma {:induction false} LinesOfJoin(lines: seq<string>)
    requires lines != [] && forall l | l in lines :: '\n' !in l
    ensures Lines(Join(lines)) == lines
  {
    var first := lines[0];
    assert first in lines && forall l | l in lines[1..] :: l in lines;
    if |lines| == 1 {
      NotFound(first, '\n');
    } else {
      assert lines == [first] + lines[1..];
      JoinCons(first, lines[1..]);
      FindAfter(first, '\n', Join(lines[1..]));
      assert Join(lines)[..|first|] == first && Join(lines)[|first| + 1..] == Join(lines[1..]);
      LinesOfJoin(lines[1..]);
    }
  }

  // ---------- Records that others print ----------

  /** A line of a record: a comment, a field with a value, or the bare name of a field. */
  datatype LineContent = Comment(text: string) | Valued(name: string, spaced: bool, value: string) | Bare(name: string)

  /** A line and whether a carriage return precedes its line feed. */
  datatype Line = Line(content: LineContent, cr: bool)

  function Spelled(c: LineContent): string
  {
    match c
    case Comment(text) => "" + ":" + text
    case Valued(name, spaced, value) => name + ":" + ((if spaced then " " else "") + value)
    case Bare(name) => name
  }

  function Ending(cr: bool): string
  {
    if cr then "\r\n" else "\n"
  }

  /** What a line can be: it spells neither a line feed nor nothing, and its value starts where it says. */
  predicate Spellable(l: Line)
  {
    && '\n' !in Spelled(l.content)
    && (!l.cr ==> Plain(Spelled(l.content)))
    && match l.content
       case Comment(_) => true
       case Valued(name, spaced, value) => ':' !in name && (!spaced && value != "" ==> value[0] != ' ')
       case Bare(name) => name != "" && ':' !in name
  }

  function NameOf(c: LineContent): string
  {
    if c.Comment? then "" else c.name
  }

  function ValueOf(c: LineContent): string
  {
    if c.Valued? then c.value else ""
  }

  function SpellLines(lines: seq<Line>): string
  {
    if lines == [] then "" else Spelled(lines[0].content) + Ending(lines[0].cr) + SpellLines(lines[1..])
  }

  /** The value of the last event line. */
  function EventOf(event: string, lines: seq<Line>): string
    decreases |lines|
  {
    if lines == [] then event
    else EventOf(if NameOf(lines[0].content) == "event" then ValueOf(lines[0].content) else event, lines[1..])
  }

  /** The values of the data lines, in order. */
  function DataOf(lines: seq<Line>): seq<string>
  {
    if lines == [] then []
    else (if NameOf(lines[0].content) == "data" then [ValueOf(lines[0].content)] else []) + DataOf(lines[1..])
  }

  lemma CutsLine(text: string, cr: bool, rest: string)
    requires '\n' !in text && (!cr ==> Plain(text))
    ensures CutLine(text + Ending(cr) + rest) == (text, rest, false)
  {
    if cr {
      assert text + Ending(cr) + rest == (text + "\r") + ['\n'] + rest;
      FindAfter(text + "\r", '\n', rest);
      assert (text + Ending(cr) + rest)[..|text| + 1] == text + "\r";
      assert (text + "\r")[..|text|] == text;
      assert (text + Ending(cr) + rest)[|text| + 2..] == rest;
    } else {
      CutsPlain(text, rest);
    }
  }

  lemma NameAndValue(l: Line)
    requires Spellable(l)
    ensures Spelled(l.content) != "" && Field(Spelled(l.content)) == NameOf(l.content)
    ensures NameOf(l.content) != "" ==> Value(Spelled(l.content)) == ValueOf(l.content)
  {
    hide Field, Value, TrimSpace, Plain;
    match l.content
    case Comment(text) =>
      SplitsAt("", text);
    case Valued(name, spaced, value) =>
      SplitsAt(name, (if spaced then " " else "") + value);
      SpaceIsTrimmed(spaced, value);
    case Bare(name) =>
      BareSplits(name);
  }

  lemma BareSplits(name: string)
    requires ':' !in name
    ensures Field(name) == name && Value(name) == ""
  {
    NotFound(name, ':');
  }

  lemma SplitsAt(name: string, text: string)
    requires ':' !in name
    ensures var s := name + ":" + text; s != "" && Field(s) == name && Value(s) == TrimSpace(text)
  {
    FindAfter(name, ':', text);
    assert name + ":" + text == name + [':'] + text;
    assert (name + ":" + text)[|name| + 1..] == text && (name + ":" + text)[..|name|] == name;
  }

  lemma SpaceIsTrimmed(spaced: bool, value: string)
    requires !spaced && value != "" ==> value[0] != ' '
    ensures TrimSpace((if spaced then " " else "") + value) == value
  {
    assert (" " + value)[1..] == value && "" + value == value;
  }

  lemma {:induction false} NotFound(s: string, c: char)
    requires c !in s
    ensures Find(s, c) == |s| && s[..|s|] == s
  {
    if s != "" {
      assert s[0] in s && forall d | d in s[1..] :: d in s;
      NotFound(s[1..], c);
    }
  }

  lemma ScanLine(l: Line, rest: string, broken: bool, event: string, data: seq<string>)
    requires Spellable(l)
    ensures Scan(Spelled(l.content) + Ending(l.cr) + rest, false, broken, event, data) ==
            Scan(rest, false, broken, EventOf(event, [l]), data + DataOf([l]))
  {
    hide Field, Value, Join, Plain, Spelled, NameOf, ValueOf;
    CutsLine(Spelled(l.content), l.cr, rest);
    NameAndValue(l);
    OneLine(event, l);
    assert data + [] == data;
  }

  lemma OneLine(event: string, l: Line)
    ensures EventOf(event, [l]) == if NameOf(l.content) == "event" then ValueOf(l.content) else event
    ensures DataOf([l]) == if NameOf(l.content) == "data" then [ValueOf(l.content)] else []
  {
    hide NameOf, ValueOf;
    assert [l][1..] == [];
  }

  lemma {:induction false} ScanSpelled(lines: seq<Line>, rest: string, broken: bool, event: string, data: seq<string>)
    requires forall l | l in lines :: Spellable(l)
    ensures Scan(SpellLines(lines) + rest, false, broken, event, data) ==
            Scan(rest, false, broken, EventOf(event, lines), data + DataOf(lines))
  {
    hide Scan, Spellable, Spelled, Ending, NameOf, ValueOf;
    if lines == [] {
      assert SpellLines(lines) + rest == rest && data + DataOf(lines) == data;
    } else {
      var first, others := lines[0], lines[1..];
      assert first in lines && forall l | l in others :: l in lines;
      Reassociate(Spelled(first.content) + Ending(first.cr), SpellLines(others), rest);
      ScanLine(first, SpellLines(others) + rest, broken, event, data);
      OneLine(event, first);
      ScanSpelled(others, rest, broken, EventOf(event, [first]), data + DataOf([first]));
      Reassociated(data, DataOf([first]), DataOf(others));
    }
  }

  lemma Reassociated(a: seq<string>, b: seq<string>, c: seq<string>)
    ensures a + b + c == a + (b + c)
  {
  }

  /**
   * A record of any such lines, closed by an empty line, is read as the value of its last event line
   * and the joined values of its data lines, if it has any. Lines may end with or without a carriage
   * return; comments and other fields are passed over; one space after the colon does not count.
   */
  lemma AnyRecordIsRead(lines: seq<Line>, cr: bool, rest: string, broken: bool)
    requires (forall l | l in lines :: Spellable(l)) && DataOf(lines) != []
    ensures Scan(SpellLines(lines) + (Ending(cr) + rest), false, broken, "", []) ==
            Reading(Some(Record(EventOf("", lines), Join(DataOf(lines)))), false, rest, false)
  {
    hide Scan, SpellLines, Plain, Join, EventOf, DataOf, Spellable;
    ScanSpelled(lines, Ending(cr) + rest, broken, "", []);
    assert [] + DataOf(lines) == DataOf(lines);
    ScanEmpty(cr, rest, broken, EventOf("", lines), DataOf(lines));
  }

  lemma ScanEmpty(cr: bool, rest: string, broken: bool, event: string, data: seq<string>)
    requires data != []
    ensures Scan(Ending(cr) + rest, false, broken, event, data) ==
            Reading(Some(Record(event, Join(data))), false, rest, false)
  {
    hide Join;
    CutsLine("", cr, rest);
    assert "" + Ending(cr) + rest == Ending(cr) + rest;
  }

  lemma SkipEmpty(cr: bool, rest: string, broken: bool, event: string)
    ensures Scan(Ending(cr) + rest, false, broken, event, []) == Scan(rest, false, broken, event, [])
  {
    CutsLine("", cr, rest);
    assert "" + Ending(cr) + rest == Ending(cr) + rest;
  }

  /** A record without data is passed over, but its event name stays for the next one. */
  lemma DatalessIsSkipped(lines: seq<Line>, cr: bool, rest: string, broken: bool, event: string)
    requires (forall l | l in lines :: Spellable(l)) && DataOf(lines) == []
    ensures Scan(SpellLines(lines) + (Ending(cr) + rest), false, broken, event, []) ==
            Scan(rest, false, broken, EventOf(event, lines), [])
  {
    hide Scan, SpellLines, EventOf, DataOf, Spellable;
    ScanSpelled(lines, Ending(cr) + rest, broken, event, []);
    assert [] + DataOf(lines) == [];
    SkipEmpty(cr, rest, broken, EventOf(event, lines));
  }

  lemma {:induction false} EventOfLast(event: string, lines: seq<Line>, l: Line)
    ensures EventOf(event, lines + [l]) == EventOf(EventOf(event, lines), [l])
    ensures DataOf(lines + [l]) == DataOf(lines) + DataOf([l])
    decreases |lines|
  {
    hide NameOf, ValueOf;
    if lines == [] {
      assert lines + [l] == [l];
    } else {
      assert (lines + [l])[1..] == lines[1..] + [l];
      OneLine(event, lines[0]);
      EventOfLast(EventOf(event, [lines[0]]), lines[1..], l);
    }
  }

  lemma CutsLast(text: string, cr: bool)
    requires '\n' !in text && (!cr ==> Plain(text))
    ensures CutLine(text + (if cr then "\r" else "")) == (text, "", true)
  {
    var s := text + (if cr then "\r" else "");
    NotFound(s, '\n');
    assert cr ==> s[..|text|] == text;
    assert !cr ==> s == text;
  }

  lemma ScanLast(l: Line, event: string, data: seq<string>)
    requires Spellable(l) && data + DataOf([l]) != []
    ensures Scan(Spelled(l.content) + (if l.cr then "\r" else ""), false, false, event, data) ==
            Reading(Some(Record(EventOf(event, [l]), Join(data + DataOf([l])))), false, "", true)
  {
    hide Field, Value, Join, Plain, Spelled, NameOf, ValueOf;
    CutsLast(Spelled(l.content), l.cr);
    NameAndValue(l);
    OneLine(event, l);
    assert data + [] == data;
  }

  /** When the input ends within its last line, that line counts, and no empty line is needed. */
  lemma UnclosedIsRead(lines: seq<Line>, l: Line)
    requires (forall k | k in lines + [l] :: Spellable(k)) && DataOf(lines + [l]) != []
    ensures Scan(SpellLines(lines) + (Spelled(l.content) + (if l.cr then "\r" else "")), false, false, "", []) ==
            Reading(Some(Record(EventOf("", lines + [l]), Join(DataOf(lines + [l])))), false, "", true)
  {
    hide Scan, SpellLines, Plain, Join, EventOf, DataOf, Spellable;
    assert l in lines + [l] && forall k | k in lines :: k in lines + [l];
    EventOfLast("", lines, l);
    ScanSpelled(lines, Spelled(l.content) + (if l.cr then "\r" else ""), false, "", []);
    assert [] + DataOf(lines) == DataOf(lines);
    ScanLast(l, EventOf("", lines), DataOf(lines));
  }

  // ---------- Broken input ----------

  /** No line is empty, and none ends in a carriage return. */
  predicate HasNoBlank(s: string)
  {
    forall i | 0 <= i < |s| && s[i] == '\n' :: i > 0 && s[i - 1] != '\n' && s[i - 1] != '\r'
  }

  lemma {:induction false} NothingClosed(rest: string, event: string, data: seq<string>)
    requires HasNoBlank(rest)
    ensures Scan(rest, false, true, event, data).record == None
    decreases |rest|
  {
    hide Join, EventAfter, DataAfter;
    var n := Find(rest, '\n');
    if n < |rest| {
      assert HasNoBlank(rest[n + 1..]);
      NothingClosed(rest[n + 1..], EventAfter(event, rest[..n]), DataAfter(data, rest[..n]));
    }
  }

  lemma LineHasNoBlank(field: string, value: string)
    requires Plain(value) && '\n' !in field
    ensures HasNoBlank(field + ": " + value + "\n")
  {
  }

  lemma {:induction false} LinesHaveNoBlank(lines: seq<string>)
    requires forall l | l in lines :: Plain(l)
    ensures HasNoBlank(PrintLines(lines))
  {
    hide Plain, HasNoBlank;
    if lines == [] {
      Blankless("", "");
    } else {
      assert lines[0] in lines && forall l | l in lines[1..] :: l in lines;
      LineHasNoBlank("data", lines[0]);
      assert "data" + ": " + lines[0] + "\n" == "data: " + lines[0] + "\n";
      LinesHaveNoBlank(lines[1..]);
      Blankless("data: " + lines[0] + "\n", PrintLines(lines[1..]));
    }
  }

  lemma Blankless(a: string, b: string)
    ensures HasNoBlank(a) && HasNoBlank(b) ==> HasNoBlank(a + b)
    ensures HasNoBlank("")
  {
  }

  /** Short of its last line feed, a printed record has no blank line. */
  lemma PrefixHasNoBlank(p: Printed, n: nat)
    requires Printable(p) && n < |Print(p)|
    ensures HasNoBlank(Print(p)[..n])
  {
    hide Plain, PrintLines;
    LineHasNoBlank("event", p.event);
    assert "event" + ": " + p.event + "\n" == "event: " + p.event + "\n";
    LinesHaveNoBlank(p.lines);
    var most := "event: " + p.event + "\n" + PrintLines(p.lines);
    Blankless("event: " + p.event + "\n", PrintLines(p.lines));
    assert Print(p)[..n] == most[..n];
  }

  /**
   * If the input breaks off within a record, that record is never given out in part: what is read is
   * exactly the records before it.
   */
  lemma BrokenRecordIsNotRead(ps: seq<Printed>, p: Printed, n: nat)
    requires (forall q | q in ps :: Printable(q)) && Printable(p) && n < |Print(p)|
    ensures AllRecords(PrintAll(ps) + Print(p)[..n], false, true) == Contents(ps)
  {
    hide Scan, Printable, Contents, Print, AllRecords, PrintAll;
    PrefixHasNoBlank(p, n);
    NothingClosed(Print(p)[..n], "", []);
    ReadsAll(ps, Print(p)[..n], true);
  }

  // ---------- What the encoder prints ----------

  /** What the encoder writes for an event: one data line of JSON. */
  function Encoded(name: string, json: string): Printed
  {
    Printed(name, [json])
  }

  /** JSON text as the encoder writes it escapes all control characters. */
  predicate Escaped(json: string)
  {
    forall c | c in json :: c >= ' '
  }

  lemma EscapedIsPlain(s: string)
    requires Escaped(s)
    ensures Plain(s)
  {
    if s != "" {
      assert s[|s| - 1] in s;
    }
  }

  lemma EncodedIsPrintable(name: string, json: string)
    requires Escaped(name) && Escaped(json)
    ensures Printable(Encoded(name, json)) && Content(Encoded(name, json)) == Record(name, json)
  {
    hide Plain, Escaped;
    EscapedIsPlain(name);
    EscapedIsPlain(json);
  }
}
