/**
 * The runner's event stream: `readSSE`, the grammar of section 9.2.5 of the WHATWG HTML Standard, and the Standard's
 * own interpretation of section 9.2.6. A character stands for a byte.
 */
module SseReader {
  import opened Basics

  datatype Event = Event(id: string, name: string, data: string)

  /** The scanner's buffer: 4 MiB without a line feed do not fit. */
  const LIMIT: nat := 4194304

  // ---------- lines ----------

  function IndexOf(s: string, c: char): (i: nat)
    ensures i <= |s| && (forall j :: 0 <= j < i ==> s[j] != c) && (i < |s| ==> s[i] == c)
  {
    if s == "" || s[0] == c then 0 else 1 + IndexOf(s[1..], c)
  }

  function DropCr(s: string): string {
    if s != "" && s[|s| - 1] == '\r' then s[..|s| - 1] else s
  }

  function Rest(s: string, i: nat): string
    requires i <= |s|
  {
    if i < |s| then s[i + 1..] else ""
  }

  /** The scanner's lines, up to one too long for its buffer. */
  function Lines(s: string): seq<string>
    decreases |s|
  {
    if s == "" then []
    else
      var i := IndexOf(s, '\n');
      if i >= LIMIT then [] else [DropCr(s[..i])] + Lines(Rest(s, i))
  }

  predicate Fits(s: string)
    decreases |s|
  {
    s == "" || (IndexOf(s, '\n') < LIMIT && Fits(Rest(s, IndexOf(s, '\n'))))
  }

  // ---------- fields ----------

  function Key(line: string): string {
    line[..IndexOf(line, ':')]
  }

  function TrimSpace(s: string): string {
    if s != "" && s[0] == ' ' then s[1..] else s
  }

  function Value(line: string): string {
    TrimSpace(Rest(line, IndexOf(line, ':')))
  }

  function Join(parts: seq<string>): string {
    if parts == [] then "" else if |parts| == 1 then parts[0] else parts[0] + "\n" + Join(parts[1..])
  }

  /** What has been read of the next event. */
  datatype Partial = Partial(id: string, name: string, data: seq<string>)

  const NOTHING := Partial("", "", [])

  function Complete(p: Partial): Event {
    Event(p.id, p.name, Join(p.data))
  }

  /** A line other than a blank one. */
  function Note(p: Partial, line: string): Partial {
    if line != "" && line[0] == ':' then p
    else if Key(line) == "event" then p.(name := Value(line))
    else if Key(line) == "id" then p.(id := Value(line))
    else if Key(line) == "data" then p.(data := p.data + [Value(line)])
    else p
  }

  /** Events dispatched by blank lines, and what remains after the last line. */
  function Dispatched(p: Partial, lines: seq<string>): seq<Event>
    decreases |lines|
  {
    if lines == [] then []
    else if lines[0] != "" then Dispatched(Note(p, lines[0]), lines[1..])
    else if p.data == [] then Dispatched(p, lines[1..])
    else [Complete(p)] + Dispatched(NOTHING, lines[1..])
  }

  function Remaining(p: Partial, lines: seq<string>): Partial
    decreases |lines|
  {
    if lines == [] then p
    else if lines[0] != "" then Remaining(Note(p, lines[0]), lines[1..])
    else if p.data == [] then Remaining(p, lines[1..])
    else Remaining(NOTHING, lines[1..])
  }

  function Final(p: Partial): seq<Event> {
    if p.data == [] then [] else [Complete(p)]
  }

  /** All events of a stream that ends cleanly: an event needs no blank line after it. */
  function Events(lines: seq<string>): seq<Event> {
    Dispatched(NOTHING, lines) + Final(Remaining(NOTHING, lines))
  }

  /** The events a reader hears: a read error, or a line too long, loses what no blank line had dispatched. */
  function Heard(input: string, broken: bool): seq<Event> {
    if Fits(input) && !broken then Events(Lines(input)) else Dispatched(NOTHING, Lines(input))
  }

  /** The callback accepted the first `k` events and no more. */
  ghost predicate AcceptedExactly(callback: (nat, Event) -> bool, events: seq<Event>, k: nat) {
    && k <= |events|
    && (forall i :: 0 <= i < k ==> callback(i, events[i]))
    && (k < |events| ==> !callback(k, events[k]))
  }

  /** The first line, and how reading goes on after it. */
  lemma LinesBegin(s: string)
    ensures var i := IndexOf(s, '\n');
            && Lines(s) == (if s == "" || i >= LIMIT then [] else [DropCr(s[..i])] + Lines(Rest(s, i)))
            && Fits(s) == (s == "" || (i < LIMIT && Fits(Rest(s, i))))
            && (s != "" ==> |Rest(s, i)| < |s|)
  {
    hide DropCr;
  }

  class Scanner {
    var rest: string
    var line: string
    var tooLong: bool

    constructor (input: string)
      ensures rest == input && !tooLong
    {
      rest := input;
      line := "";
      tooLong := false;
    }

    /** The next line, unless the input is used up or the line does not fit. */
    method Scan() returns (more: bool)
      requires !tooLong
      modifies this
      ensures more ==>
                !tooLong && |rest| < |old(rest)| && Lines(old(rest)) == [line] + Lines(rest)
                    && Fits(old(rest)) == Fits(rest)
      ensures !more ==> Lines(old(rest)) == [] && tooLong == !Fits(old(rest))
    {
      hide Lines, Fits, DropCr;
      LinesBegin(rest);
      if rest == "" {
        return false;
      }
      var i := 0;
      while i < |rest| && rest[i] != '\n'
        invariant 0 <= i <= IndexOf(rest, '\n')
      {
        i := i + 1;
      }
      assert i == IndexOf(rest, '\n');
      if i >= LIMIT {
        tooLong := true;
        return false;
      }
      line := DropCr(rest[..i]);
      rest := Rest(rest, i);
      return true;
    }
  }

  lemma FirstLine(p: Partial, line: string, lines: seq<string>)
    ensures var all := [line] + lines;
            && Dispatched(p, all) == (if line != "" then Dispatched(Note(p, line), lines)
                                      else if p.data == [] then Dispatched(p, lines)
                                      else [Complete(p)] + Dispatched(NOTHING, lines))
            && Remaining(p, all) == (if line != "" then Remaining(Note(p, line), lines)
                                     else if p.data == [] then Remaining(p, lines) else Remaining(NOTHING, lines))
  {
    assert ([line] + lines)[1..] == lines;
  }

  /** A field line, or a comment. */
  method ReadField(line: string, event: string, id: string,
                   data: seq<string>) returns (event': string, id': string, data': seq<string>)
    requires line != ""
    ensures Partial(id', event', data') == Note(Partial(id, event, data), line)
  {
    event', id', data' := event, id, data;
    if line[0] == ':' {
      return;
    }
    var colon := IndexOf(line, ':');
    var key, value := line[..colon], TrimSpace(Rest(line, colon));
    if key == "event" {
      event' := value;
    } else if key == "id" {
      id' := value;
    } else if key == "data" {
      data' := data + [value];
    }
  }

  /** The lines the loop has yet to handle. */
  ghost function Ahead(scanner: Scanner, more: bool): seq<string>
    reads scanner
  {
    if more then [scanner.line] + Lines(scanner.rest) else []
  }

  /** So far `heard` was dispatched, `p` is being read, and `lines` are left of all the stream's lines. */
  ghost predicate Position(all: seq<string>, heard: seq<Event>, p: Partial, lines: seq<string>) {
    Dispatched(NOTHING, all) == heard + Dispatched(p, lines) && Remaining(NOTHING, all) == Remaining(p, lines)
  }

  lemma AtStart(all: seq<string>)
    ensures Position(all, [], NOTHING, all)
  {
  }

  lemma AfterLine(all: seq<string>, heard: seq<Event>, p: Partial, line: string, lines: seq<string>)
    requires Position(all, heard, p, [line] + lines)
    ensures line != "" ==> Position(all, heard, Note(p, line), lines)
    ensures line == "" && p.data == [] ==> Position(all, heard, p, lines)
    ensures line == "" && p.data != [] ==>
              Position(all, heard + [Complete(p)], NOTHING, lines) && heard + [Complete(p)] <= Dispatched(NOTHING, all)
  {
    FirstLine(p, line, lines);
    hide Note, Complete, Dispatched, Remaining;
    if line == "" && p.data != [] {
      assert heard + ([Complete(p)] + Dispatched(NOTHING, lines)) ==
             (heard + [Complete(p)]) + Dispatched(NOTHING, lines);
    }
  }

  lemma AtEnd(all: seq<string>, heard: seq<Event>, p: Partial)
    requires Position(all, heard, p, [])
    ensures Dispatched(NOTHING, all) == heard && Remaining(NOTHING, all) == p
  {
    NoneAhead(p);
  }

  /** Every event so far was accepted. */
  ghost predicate AllAccepted(callback: (nat, Event) -> bool, accepted: seq<Event>) {
    forall i :: 0 <= i < |accepted| ==> callback(i, accepted[i])
  }

  lemma RefusedNext(callback: (nat, Event) -> bool, accepted: seq<Event>, event: Event, events: seq<Event>)
    requires AllAccepted(callback, accepted) && accepted + [event] <= events && !callback(|accepted|, event)
    ensures AcceptedExactly(callback, events, |accepted|) && accepted == events[..|accepted|] && |accepted| < |events|
  {
    assert events[|accepted|] == (accepted + [event])[|accepted|];
  }

  /** A stream reads on past what blank lines dispatched. */
  lemma DispatchedAreHeard(input: string, broken: bool)
    ensures Dispatched(NOTHING, Lines(input)) <= Heard(input, broken)
    ensures !Fits(input) || broken ==> Heard(input, broken) == Dispatched(NOTHING, Lines(input))
    ensures Fits(input) && !broken ==>
              Heard(input, broken) == Dispatched(NOTHING, Lines(input)) + Final(Remaining(NOTHING, Lines(input)))
  {
    hide Dispatched, Remaining, Lines, Final;
  }

  /** Reads a stream, calling back once for each event, and stops at the first refusal. */
  method ReadSse(input: string, broken: bool, callback: (nat, Event) -> bool) returns (ok: bool, accepted: seq<Event>)
    ensures AcceptedExactly(callback, Heard(input, broken), |accepted|)
    ensures accepted == Heard(input, broken)[..|accepted|]
    ensures ok <==> |accepted| == |Heard(input, broken)| && Fits(input) && !broken
  {
    hide Lines, Fits, Note, Complete, Dispatched, Remaining, Join, Position, Heard, AcceptedExactly, Final, AllAccepted;
    DispatchedAreHeard(input, broken);
    var scanner := new Scanner(input);
    var id, name := "", "";
    var data: seq<string> := [];
    accepted := [];
    AtStart(Lines(input));
    NoneYet(callback);
    var more := scanner.Scan();
    while more
      invariant fresh(scanner) && (more ==> !scanner.tooLong)
      invariant Fits(input) == if more then Fits(scanner.rest) else !scanner.tooLong
      invariant Position(Lines(input), accepted, Partial(id, name, data), Ahead(scanner, more))
      invariant AllAccepted(callback, accepted)
      decreases more, |scanner.rest|
    {
      AfterLine(Lines(input), accepted, Partial(id, name, data), scanner.line, Lines(scanner.rest));
      if scanner.line == "" {
        if data != [] {
          var event := Event(id, name, Join(data));
          CompleteIs(id, name, data);
          if !callback(|accepted|, event) {
            RefusedNext(callback, accepted, event, Heard(input, broken));
            return false, accepted;
          }
          AcceptedOne(callback, accepted, event);
          accepted := accepted + [event];
          id, name, data := "", "", [];
        }
      } else {
        name, id, data := ReadField(scanner.line, name, id, data);
      }
      more := scanner.Scan();
    }
    AtEnd(Lines(input), accepted, Partial(id, name, data));
    FinalIs(id, name, data);
    AllHeard(callback, accepted);
    if scanner.tooLong || broken {
      return false, accepted;
    }
    if data != [] {
      var event := Event(id, name, Join(data));
      if !callback(|accepted|, event) {
        RefusedNext(callback, accepted, event, Heard(input, broken));
        return false, accepted;
      }
      AcceptedOne(callback, accepted, event);
      accepted := accepted + [event];
      AllHeard(callback, accepted);
    } else {
      assert accepted + [] == accepted;
    }
    return true, accepted;
  }

  lemma NoneYet(callback: (nat, Event) -> bool)
    ensures AllAccepted(callback, [])
  {
  }

  lemma AcceptedOne(callback: (nat, Event) -> bool, accepted: seq<Event>, event: Event)
    requires AllAccepted(callback, accepted) && callback(|accepted|, event)
    ensures AllAccepted(callback, accepted + [event])
  {
  }

  lemma AllHeard(callback: (nat, Event) -> bool, accepted: seq<Event>)
    requires AllAccepted(callback, accepted)
    ensures AcceptedExactly(callback, accepted, |accepted|) && accepted == accepted[..|accepted|]
  {
  }

  lemma NoneAhead(p: Partial)
    ensures Dispatched(p, []) == [] && Remaining(p, []) == p
  {
  }

  lemma CompleteIs(id: string, name: string, data: seq<string>)
    ensures Complete(Partial(id, name, data)) == Event(id, name, Join(data))
  {
  }

  lemma FinalIs(id: string, name: string, data: seq<string>)
    ensures Final(Partial(id, name, data)) == if data == [] then [] else [Event(id, name, Join(data))]
  {
  }

  // ---------- the grammar ----------

  /** A line of an event block: a comment, a field with or without the optional space, or a field name alone. */
  datatype Item = Comment(text: string) | Field(key: string, space: bool, value: string) | Bare(key: string)

  function Show(item: Item): string {
    match item
    case Comment(text) => ":" + text
    case Field(key, space, value) => key + (if space then ": " else ":") + value
    case Bare(key) => key
  }

  /** A field name has no colon, and a value written without the optional space does not begin with one. */
  predicate WellFormed(item: Item) {
    match item
    case Comment(_) => true
    case Field(key, space, value) => key != "" && ':' !in key && (!space && value != "" ==> value[0] != ' ')
    case Bare(key) => key != "" && ':' !in key
  }

  function FieldValue(item: Item): string {
    if item.Field? then item.value else ""
  }

  predicate Sets(item: Item, key: string) {
    !item.Comment? && item.key == key
  }

  function Last(items: seq<Item>, key: string, before: string): string {
    if items == [] then before
    else Last(items[1..], key, if Sets(items[0], key) then FieldValue(items[0]) else before)
  }

  function DataOf(items: seq<Item>): seq<string> {
    if items == [] then []
    else (if Sets(items[0], "data") then [FieldValue(items[0])] else []) + DataOf(items[1..])
  }

  /** The event a block stands for. */
  function Meaning(items: seq<Item>): Event {
    Event(Last(items, "id", ""), Last(items, "event", ""), Join(DataOf(items)))
  }

  lemma {:induction false} FirstAt(s: string, c: char, tail: string)
    requires c !in s
    ensures IndexOf(s + [c] + tail, c) == |s|
    decreases |s|
  {
    if s != "" {
      FirstAt(s[1..], c, tail);
      assert (s + [c] + tail)[1..] == s[1..] + [c] + tail;
    }
  }

  /** What an item of the grammar says. */
  function Said(p: Partial, item: Item): Partial {
    if Sets(item, "event") then p.(name := FieldValue(item))
    else if Sets(item, "id") then p.(id := FieldValue(item))
    else if Sets(item, "data") then p.(data := p.data + [FieldValue(item)])
    else p
  }

  /** A written field has the key and the value it was written with. */
  lemma ReadsBack(item: Item)
    requires WellFormed(item) && !item.Comment?
    ensures Show(item) != "" && Show(item)[0] != ':'
    ensures Key(Show(item)) == item.key && Value(Show(item)) == FieldValue(item)
  {
    var key := item.key;
    assert key[0] in key;
    if item.Bare? {
      assert IndexOf(key, ':') == |key| && key[..|key|] == key;
    } else {
      var tail := if item.space then " " + item.value else item.value;
      var line := key + ":" + tail;
      assert Show(item) == line;
      FirstAt(key, ':', tail);
      assert line[..|key|] == key && line[|key| + 1..] == tail && line[0] == key[0];
      assert item.space ==> tail[1..] == item.value;
    }
  }

  /** A line written by the grammar is noted as what it says. */
  lemma NoteItem(p: Partial, item: Item)
    requires WellFormed(item)
    ensures Show(item) != "" && Note(p, Show(item)) == Said(p, item)
  {
    if !item.Comment? {
      ReadsBack(item);
      hide Key, Value, Show, FieldValue, WellFormed;
      assert |"id"| == 2 && |"event"| == 5 && |"data"| == 4;
    }
  }

  lemma NoteFirst(p: Partial, item: Item, lines: seq<string>)
    requires WellFormed(item)
    ensures Dispatched(p, [Show(item)] + lines) == Dispatched(Said(p, item), lines)
    ensures Remaining(p, [Show(item)] + lines) == Remaining(Said(p, item), lines)
  {
    hide *;
    NoteItem(p, item);
    FirstLine(p, Show(item), lines);
  }

  function ShowAll(items: seq<Item>): seq<string> {
    if items == [] then [] else [Show(items[0])] + ShowAll(items[1..])
  }

  function AllSaid(p: Partial, items: seq<Item>): Partial {
    Partial(Last(items, "id", p.id), Last(items, "event", p.name), p.data + DataOf(items))
  }

  lemma SaidFirst(p: Partial, items: seq<Item>)
    requires items != []
    ensures AllSaid(p, items) == AllSaid(Said(p, items[0]), items[1..])
  {
    var item, rest := items[0], items[1..];
    var value := FieldValue(item);
    assert Last(items, "id", p.id) == Last(rest, "id", if Sets(item, "id") then value else p.id);
    assert Last(items, "event", p.name) == Last(rest, "event", if Sets(item, "event") then value else p.name);
    assert DataOf(items) == (if Sets(item, "data") then [value] else []) + DataOf(rest);
    hide Last, DataOf, FieldValue;
    assert |"id"| == 2 && |"event"| == 5 && |"data"| == 4;
    assert (p.data + [value]) + DataOf(rest) == p.data + ([value] + DataOf(rest));
  }

  lemma {:induction false} NoteItems(p: Partial, items: seq<Item>, more: seq<string>)
    requires forall i :: 0 <= i < |items| ==> WellFormed(items[i])
    ensures Dispatched(p, ShowAll(items) + more) == Dispatched(AllSaid(p, items), more)
    ensures Remaining(p, ShowAll(items) + more) == Remaining(AllSaid(p, items), more)
    decreases |items|
  {
    if items == [] {
      assert ShowAll(items) + more == more;
      assert p.data + DataOf(items) == p.data;
    } else {
      var lines := ShowAll(items[1..]) + more;
      assert ShowAll(items) + more == [Show(items[0])] + lines;
      SaidFirst(p, items);
      hide *;
      NoteFirst(p, items[0], lines);
      NoteItems(Said(p, items[0]), items[1..], more);
    }
  }

  /** Blocks, each closed by a blank line except perhaps the last. */
  function Stream(blocks: seq<seq<Item>>, closed: bool): seq<string> {
    if blocks == [] then []
    else if |blocks| == 1 && !closed then ShowAll(blocks[0])
    else ShowAll(blocks[0]) + [""] + Stream(blocks[1..], closed)
  }

  /** A block stands for an event if it has data; one without data may only hold comments and unknown fields. */
  predicate Block(items: seq<Item>) {
    && (forall i :: 0 <= i < |items| ==> WellFormed(items[i]))
    && (DataOf(items) == [] ==> forall i :: 0 <= i < |items| ==> !Sets(items[i], "event") && !Sets(items[i], "id"))
  }

  function Meanings(blocks: seq<seq<Item>>): seq<Event> {
    if blocks == [] then []
    else EventOf(blocks[0]) + Meanings(blocks[1..])
  }

  lemma {:induction false} Inert(items: seq<Item>, key: string, before: string)
    requires forall i :: 0 <= i < |items| ==> !Sets(items[i], key)
    ensures Last(items, key, before) == before
    decreases |items|
  {
    if items != [] {
      Inert(items[1..], key, before);
    }
  }

  lemma BlockSays(items: seq<Item>)
    requires Block(items)
    ensures forall i :: 0 <= i < |items| ==> WellFormed(items[i])
    ensures var p := AllSaid(NOTHING, items);
            p.data == DataOf(items) && Complete(p) == Meaning(items) && (DataOf(items) == [] ==> p == NOTHING)
  {
    assert NOTHING.data + DataOf(items) == DataOf(items);
    if DataOf(items) == [] {
      Inert(items, "id", "");
      Inert(items, "event", "");
    }
  }

  function EventOf(items: seq<Item>): seq<Event> {
    if DataOf(items) == [] then [] else [Meaning(items)]
  }

  /** A block and its blank line: its event, then whatever follows. */
  lemma {:induction false} ReadsClosedBlock(items: seq<Item>, more: seq<string>)
    requires Block(items)
    ensures Events(ShowAll(items) + ([""] + more)) == EventOf(items) + Events(more)
  {
    BlockSays(items);
    var p := AllSaid(NOTHING, items);
    NoteItems(NOTHING, items, [""] + more);
    hide Block, WellFormed, AllSaid, Complete, Meaning, Dispatched, Remaining, ShowAll, DataOf, Final;
    FirstLine(p, "", more);
    var d, r := Dispatched(NOTHING, more), Final(Remaining(NOTHING, more));
    assert (EventOf(items) + d) + r == EventOf(items) + (d + r);
    assert p.data == [] ==> [] + d == d;
  }

  lemma {:induction false} ReadsOpenBlock(items: seq<Item>)
    requires Block(items)
    ensures Events(ShowAll(items)) == EventOf(items)
  {
    BlockSays(items);
    var p := AllSaid(NOTHING, items);
    NoteItems(NOTHING, items, []);
    hide Block, WellFormed, AllSaid, Complete, Meaning, Dispatched, Remaining, ShowAll, DataOf;
    NoneAhead(p);
    assert ShowAll(items) + [] == ShowAll(items);
  }

  /**
   * However its events are written, a stream is read as the events its blocks stand for, with or without the last blank
   * line.
   */
  lemma {:induction false} ReadsBlocks(blocks: seq<seq<Item>>, closed: bool)
    requires forall i :: 0 <= i < |blocks| ==> Block(blocks[i])
    ensures Events(Stream(blocks, closed)) == Meanings(blocks)
    decreases |blocks|
  {
    if blocks == [] {
      NoneAhead(NOTHING);
    } else {
      hide Block, Events, EventOf, ShowAll;
      if |blocks| == 1 && !closed {
        ReadsOpenBlock(blocks[0]);
        assert Meanings(blocks[1..]) == [];
      } else {
        var more := Stream(blocks[1..], closed);
        assert Stream(blocks, closed) == ShowAll(blocks[0]) + ([""] + more);
        ReadsClosedBlock(blocks[0], more);
        ReadsBlocks(blocks[1..], closed);
      }
    }
  }

  // ---------- printing ----------

  function Split(s: string): seq<string>
    decreases |s|
  {
    var i := IndexOf(s, '\n');
    if i == |s| then [s] else [s[..i]] + Split(s[i + 1..])
  }

  lemma {:induction false} JoinSplit(s: string)
    ensures Join(Split(s)) == s
    decreases |s|
  {
    hide Join, Split, IndexOf;
    SplitIs(s);
    var i := IndexOf(s, '\n');
    if i < |s| {
      JoinSplit(s[i + 1..]);
      SplitIs(s[i + 1..]);
      JoinIs(s[..i], Split(s[i + 1..]));
      Rejoined(s, i);
    } else {
      JoinsOne(s);
    }
  }

  lemma SplitIs(s: string)
    ensures var i := IndexOf(s, '\n');
              Split(s) != [] && Split(s) == if i == |s| then [s] else [s[..i]] + Split(s[i + 1..])
  {
    hide IndexOf;
  }

  lemma Rejoined(s: string, i: nat)
    requires i < |s| && s[i] == '\n'
    ensures s[..i] + "\n" + s[i + 1..] == s
  {
  }

  /** No part holds a line feed. */
  lemma {:induction false} SplitParts(s: string)
    ensures forall i :: 0 <= i < |Split(s)| ==> '\n' !in Split(s)[i]
    decreases |s|
  {
    hide Split, IndexOf;
    SplitIs(s);
    var i := IndexOf(s, '\n');
    if i < |s| {
      SplitParts(s[i + 1..]);
    }
  }

  lemma JoinIs(part: string, tail: seq<string>)
    requires tail != []
    ensures Join([part] + tail) == part + "\n" + Join(tail)
  {
    assert ([part] + tail)[1..] == tail;
  }

  lemma JoinsOne(part: string)
    ensures Join([part]) == part
  {
  }

  function DataItems(parts: seq<string>): seq<Item> {
    if parts == [] then [] else [Field("data", true, parts[0])] + DataItems(parts[1..])
  }

  /** One event as a block, its data split at line feeds. */
  function Print(e: Event): seq<Item> {
    [Field("id", true, e.id), Field("event", true, e.name)] + DataItems(Split(e.data))
  }

  lemma {:induction false} DataItemsMean(parts: seq<string>, key: string, before: string)
    requires key != "data"
    ensures DataOf(DataItems(parts)) == parts && Last(DataItems(parts), key, before) == before
    ensures forall i :: 0 <= i < |DataItems(parts)| ==> WellFormed(DataItems(parts)[i]) && DataItems(parts)[i].Field?
    decreases |parts|
  {
    if parts != [] {
      DataItemsMean(parts[1..], key, before);
      assert DataItems(parts)[1..] == DataItems(parts[1..]);
    }
  }

  lemma ItemMeans(item: Item, items: seq<Item>, key: string, before: string)
    ensures Last([item] + items, key, before) == Last(items, key, if Sets(item, key) then FieldValue(item) else before)
    ensures DataOf([item] + items) == (if Sets(item, "data") then [FieldValue(item)] else []) + DataOf(items)
  {
    assert ([item] + items)[1..] == items;
  }

  lemma PrintMeans(e: Event)
    ensures Meaning(Print(e)) == e && DataOf(Print(e)) == Split(e.data) && Block(Print(e))
    ensures forall i :: 0 <= i < |DataOf(Print(e))| ==> '\n' !in DataOf(Print(e))[i]
  {
    hide Split, Join, Last, DataOf, DataItems;
    var parts := Split(e.data);
    var id, name, items := Field("id", true, e.id), Field("event", true, e.name), DataItems(parts);
    SplitIs(e.data);
    JoinSplit(e.data);
    SplitParts(e.data);
    DataItemsMean(parts, "id", e.id);
    DataItemsMean(parts, "event", e.name);
    assert Print(e) == [id] + ([name] + items);
    ItemMeans(id, [name] + items, "id", "");
    ItemMeans(id, [name] + items, "event", "");
    ItemMeans(name, items, "id", e.id);
    ItemMeans(name, items, "event", "");
    assert DataOf(Print(e)) == [] + ([] + parts) == parts;
    forall i | 0 <= i < |Print(e)| ensures WellFormed(Print(e)[i]) {
      assert i >= 2 ==> Print(e)[i] == items[i - 2];
    }
  }

  /** A block without its comments. */
  function Uncommented(items: seq<Item>): seq<Item> {
    if items == [] then []
    else (if items[0].Comment? then [] else [items[0]]) + Uncommented(items[1..])
  }

  lemma {:induction false} CommentsMeanNothing(items: seq<Item>, key: string, before: string)
    ensures Last(items, key, before) == Last(Uncommented(items), key, before)
    ensures DataOf(items) == DataOf(Uncommented(items))
    decreases |items|
  {
    if items != [] {
      var rest := Uncommented(items[1..]);
      CommentsMeanNothing(items[1..], key, if Sets(items[0], key) then FieldValue(items[0]) else before);
      if !items[0].Comment? {
        assert Uncommented(items)[0] == items[0] && Uncommented(items)[1..] == rest;
      } else {
        assert Uncommented(items) == rest;
      }
    }
  }

  lemma {:induction false} CommentsKeepForm(items: seq<Item>)
    requires forall i :: 0 <= i < |Uncommented(items)| ==> WellFormed(Uncommented(items)[i])
    ensures forall i :: 0 <= i < |items| ==> WellFormed(items[i])
    decreases |items|
  {
    if items != [] {
      var rest := Uncommented(items[1..]);
      assert Uncommented(items) == (if items[0].Comment? then [] else [items[0]]) + rest;
      forall i | 0 <= i < |rest| ensures WellFormed(rest[i]) {
        assert rest[i] == Uncommented(items)[if items[0].Comment? then i else i + 1];
      }
      assert !items[0].Comment? ==> Uncommented(items)[0] == items[0];
      CommentsKeepForm(items[1..]);
    }
  }

  /** Each block prints its event, with comments anywhere. */
  ghost predicate Prints(blocks: seq<seq<Item>>, events: seq<Event>) {
    |blocks| == |events| && forall i :: 0 <= i < |blocks| ==> Uncommented(blocks[i]) == Print(events[i])
  }

  lemma PrintedBlock(items: seq<Item>, e: Event)
    requires Uncommented(items) == Print(e)
    ensures Block(items) && Meaning(items) == e && DataOf(items) != []
  {
    PrintMeans(e);
    CommentsMeanNothing(items, "id", "");
    CommentsMeanNothing(items, "event", "");
    CommentsKeepForm(items);
  }

  lemma {:induction false} PrintedMeanings(blocks: seq<seq<Item>>, events: seq<Event>)
    requires Prints(blocks, events)
    ensures Meanings(blocks) == events && forall i :: 0 <= i < |blocks| ==> Block(blocks[i])
    decreases |blocks|
  {
    forall i | 0 <= i < |blocks| ensures Block(blocks[i]) {
      PrintedBlock(blocks[i], events[i]);
    }
    if blocks != [] {
      PrintedBlock(blocks[0], events[0]);
      PrintedMeanings(blocks[1..], events[1..]);
    }
  }

  // ---------- text ----------

  datatype LineEnd = Lf | CrLf

  function Terminator(e: LineEnd): string {
    if e.Lf? then "\n" else "\r\n"
  }

  /** The text of lines, each with its own terminator; the last may have none. */
  function Text(lines: seq<string>, ends: seq<LineEnd>): string
    requires |ends| <= |lines|
  {
    if lines == [] then ""
    else if ends == [] then lines[0]
    else lines[0] + Terminator(ends[0]) + Text(lines[1..], ends[1..])
  }

  /**
   * A line the scanner returns as it was written: no line feed, short enough, and no carriage return for it to drop.
   */
  predicate Scannable(line: string) {
    '\n' !in line && (line != "" ==> line[|line| - 1] != '\r') && |line| + 1 < LIMIT
  }

  lemma {:induction false} OneLine(raw: string, tail: string)
    requires '\n' !in raw && |raw| < LIMIT
    ensures Lines(raw + "\n" + tail) == [DropCr(raw)] + Lines(tail) && Fits(raw + "\n" + tail) == Fits(tail)
  {
    var text := raw + "\n" + tail;
    FirstAt(raw, '\n', tail);
    assert text[..|raw|] == raw && text[|raw| + 1..] == tail;
  }

  lemma {:induction false} LastLine(raw: string)
    requires '\n' !in raw && 0 < |raw| < LIMIT
    ensures Lines(raw) == [DropCr(raw)] && Fits(raw)
  {
    assert IndexOf(raw, '\n') == |raw| && raw[..|raw|] == raw;
  }

  /** A line of 4194304 characters or more ends the stream, with nothing after it heard. */
  lemma TooLong(s: string)
    requires s != "" && (forall i :: 0 <= i < 4194304 && i < |s| ==> s[i] != '\n') && |s| >= 4194304
    ensures Lines(s) == [] && !Fits(s)
  {
    assert IndexOf(s, '\n') >= LIMIT;
  }

  /** Scanning text gives back its lines. */
  lemma {:induction false} LinesOfText(lines: seq<string>, ends: seq<LineEnd>)
    requires forall i :: 0 <= i < |lines| ==> Scannable(lines[i])
    requires |ends| == |lines| || (|ends| + 1 == |lines| && lines[|lines| - 1] != "")
    ensures Lines(Text(lines, ends)) == lines && Fits(Text(lines, ends))
    decreases |lines|
  {
    hide Lines, Fits, IndexOf;
    if lines == [] {
      NoText();
    } else if ends == [] {
      LastLine(lines[0]);
    } else {
      var raw := if ends[0].Lf? then lines[0] else lines[0] + "\r";
      var tail := Text(lines[1..], ends[1..]);
      assert Text(lines, ends) == raw + "\n" + tail;
      OneLine(raw, tail);
      LinesOfText(lines[1..], ends[1..]);
    }
  }

  lemma NoText()
    ensures Lines("") == [] && Fits("")
  {
  }

  /**
   * Round trip: events printed by the grammar, with comments anywhere, any mix of LF and CRLF line ends, and with or
   * without the last blank line and the last terminator, are heard exactly and in order.
   */
  lemma {:induction false} RoundTrip(events: seq<Event>, blocks: seq<seq<Item>>, closed: bool, ends: seq<LineEnd>)
    requires Prints(blocks, events)
    requires var lines := Stream(blocks, closed);
             && (forall i :: 0 <= i < |lines| ==>
                   '\n' !in lines[i] && (lines[i] != "" ==> lines[i][|lines[i]| - 1] != '\r')
                       && |lines[i]| + 1 < 4194304)
             && (|ends| == |lines| || (|ends| + 1 == |lines| && lines[|lines| - 1] != ""))
    ensures Heard(Text(Stream(blocks, closed), ends), false) == events
  {
    PrintedMeanings(blocks, events);
    ReadsBlocks(blocks, closed);
    LinesOfText(Stream(blocks, closed), ends);
  }

  /**
   * A blank line after a block without data is as if it were not there: its event name and id carry over to the next.
   */
  lemma {:induction false} DatalessBlockMerges(stray: seq<Item>, lines: seq<string>)
    requires forall i :: 0 <= i < |stray| ==> WellFormed(stray[i])
    requires DataOf(stray) == []
    ensures Events(ShowAll(stray) + ([""] + lines)) == Events(ShowAll(stray) + lines)
  {
    var p := AllSaid(NOTHING, stray);
    assert p.data == [];
    NoteItems(NOTHING, stray, [""] + lines);
    NoteItems(NOTHING, stray, lines);
    hide *;
    FirstLine(p, "", lines);
    EventsAre(ShowAll(stray) + ([""] + lines), p, [""] + lines);
    EventsAre(ShowAll(stray) + lines, p, lines);
  }

  lemma EventsAre(lines: seq<string>, p: Partial, rest: seq<string>)
    requires Dispatched(NOTHING, lines) == Dispatched(p, rest) && Remaining(NOTHING, lines) == Remaining(p, rest)
    ensures Events(lines) == Dispatched(p, rest) + Final(Remaining(p, rest))
  {
    hide Dispatched, Remaining, Final;
  }

  // ---------- the Standard's interpretation ----------

  /** What section 9.2.6 keeps while it reads, and the events it has dispatched; an empty name is its default type. */
  datatype Source = Source(events: seq<Event>, id: string, name: string, data: seq<string>)

  function Dispatch(q: Source): Source {
    if q.data == [] then q.(name := "") else Source(q.events + [Event(q.id, q.name, Join(q.data))], q.id, "", [])
  }

  /** A field of a line, unless it is blank or a comment. */
  function FieldOf(line: string): Option<string> {
    if line == "" || line[0] == ':' then None else Some(Key(line))
  }

  function Process(q: Source, line: string): Source {
    if line == "" then Dispatch(q)
    else if FieldOf(line) == Some("event") then q.(name := Value(line))
    else if FieldOf(line) == Some("data") then q.(data := q.data + [Value(line)])
    else if FieldOf(line) == Some("id") && '\0' !in Value(line) then q.(id := Value(line))
    else q
  }

  function Interpret(lines: seq<string>): Source {
    if lines == [] then Source([], "", "", []) else Process(Interpret(lines[..|lines| - 1]), lines[|lines| - 1])
  }

  /** The Standard's events: what no blank line dispatched is discarded. */
  function Standard(lines: seq<string>): seq<Event> {
    Interpret(lines).events
  }

  // ---------- when reader and Standard agree ----------

  /** The last value of a field since the last blank line. */
  function Own(lines: seq<string>, key: string): Option<string> {
    if lines == [] || lines[|lines| - 1] == "" then None
    else if FieldOf(lines[|lines| - 1]) == Some(key) then Some(Value(lines[|lines| - 1]))
    else Own(lines[..|lines| - 1], key)
  }

  /** The blank line after these dispatches an event. */
  predicate HasData(lines: seq<string>) {
    Own(lines, "data").Some?
  }

  /** The last value of a field since the last blank line that dispatched an event. */
  function SinceEvent(lines: seq<string>, key: string): Option<string> {
    if lines == [] then None
    else
      var before, line := lines[..|lines| - 1], lines[|lines| - 1];
      if line == "" && HasData(before) then None
      else if FieldOf(line) == Some(key) then Some(Value(line))
      else SinceEvent(before, key)
  }

  /** The last id without a NUL, since the beginning. */
  function Kept(lines: seq<string>): string {
    if lines == [] then ""
    else
      var line := lines[|lines| - 1];
      if FieldOf(line) == Some("id") && '\0' !in Value(line) then Value(line) else Kept(lines[..|lines| - 1])
  }

  /** The event has its own name, or no block without data left it one. */
  predicate OwnName(lines: seq<string>) {
    Own(lines, "event").Some? || SinceEvent(lines, "event").None? || SinceEvent(lines, "event").value == ""
  }

  /** The event has its own id, without a NUL, or no earlier event had one. */
  predicate OwnId(lines: seq<string>) {
    match SinceEvent(lines, "id")
    case Some(id) => '\0' !in id
    case None => Kept(lines) == ""
  }

  predicate Dispatches(lines: seq<string>, k: nat) {
    k < |lines| && lines[k] == "" && HasData(lines[..k])
  }

  /** Every event has its own name and id, in that sense, and is ended by a blank line. */
  predicate Portable(lines: seq<string>) {
    !HasData(lines) && OwnFields(lines)
  }

  predicate OwnFields(lines: seq<string>) {
    forall k :: 0 <= k < |lines| && Dispatches(lines, k) ==> OwnName(lines[..k]) && OwnId(lines[..k])
  }

  function Or(value: Option<string>): string {
    if value.Some? then value.value else ""
  }

  lemma {:induction false} LastLineStep(p: Partial, lines: seq<string>, line: string)
    ensures var q := Remaining(p, lines);
            && Remaining(p, lines + [line]) ==
               (if line != "" then Note(q, line) else if q.data == [] then q else NOTHING)
            && Dispatched(p, lines + [line]) ==
               Dispatched(p, lines) + (if line == "" && q.data != [] then [Complete(q)] else [])
    decreases |lines|
  {
    hide Note, Complete;
    if lines == [] {
      FirstLine(p, line, []);
      assert [] + [line] == [line] + [];
    } else {
      var more := lines[1..] + [line];
      assert lines + [line] == [lines[0]] + more && lines == [lines[0]] + lines[1..];
      FirstLine(p, lines[0], more);
      FirstLine(p, lines[0], lines[1..]);
      var next := if lines[0] != "" then Note(p, lines[0]) else if p.data == [] then p else NOTHING;
      LastLineStep(next, lines[1..], line);
    }
  }

  /** What reader and Standard hold after these lines. */
  ghost predicate Holds(lines: seq<string>) {
    var p, q := Remaining(NOTHING, lines), Interpret(lines);
    && p.data == q.data && (p.data != [] <==> HasData(lines))
    && p.name == Or(SinceEvent(lines, "event")) && p.id == Or(SinceEvent(lines, "id"))
    && q.name == Or(Own(lines, "event")) && q.id == Kept(lines)
  }

  /** One more line. */
  lemma OwnStep(lines: seq<string>, line: string, key: string)
    ensures Own(lines + [line], key) ==
              if line == "" then None else if FieldOf(line) == Some(key) then Some(Value(line)) else Own(lines, key)
    ensures SinceEvent(lines + [line], key) ==
              if line == "" && HasData(lines) then None else if FieldOf(line) == Some(key) then Some(Value(line))
                  else SinceEvent(lines, key)
  {
    assert (lines + [line])[..|lines|] == lines;
    hide Value, FieldOf, HasData;
  }

  lemma InterpretStep(lines: seq<string>, line: string)
    ensures Interpret(lines + [line]) == Process(Interpret(lines), line)
    ensures Kept(lines + [line]) ==
              if FieldOf(line) == Some("id") && '\0' !in Value(line) then Value(line) else Kept(lines)
  {
    assert (lines + [line])[..|lines|] == lines;
    hide Value, FieldOf, Process;
  }

  lemma HoldsStep(lines: seq<string>, line: string)
    requires Holds(lines)
    ensures Holds(lines + [line])
  {
    LastLineStep(NOTHING, lines, line);
    OwnStep(lines, line, "event");
    OwnStep(lines, line, "id");
    OwnStep(lines, line, "data");
    InterpretStep(lines, line);
    hide Value, Key, Dispatched, Remaining, Interpret, Own, SinceEvent, Kept, Join;
  }

  lemma {:induction false} HoldsAlways(lines: seq<string>)
    ensures Holds(lines)
    decreases |lines|
  {
    if lines != [] {
      HoldsAlways(lines[..|lines| - 1]);
      HoldsStep(lines[..|lines| - 1], lines[|lines| - 1]);
      assert lines[..|lines| - 1] + [lines[|lines| - 1]] == lines;
    }
  }

  /** An own field is also the last one since the last event. */
  lemma {:induction false} OwnIsSince(lines: seq<string>, key: string)
    ensures Own(lines, key).Some? ==> SinceEvent(lines, key) == Own(lines, key)
    decreases |lines|
  {
    hide Value, FieldOf;
    if lines != [] {
      OwnIsSince(lines[..|lines| - 1], key);
    }
  }

  lemma {:induction false} KeptHasNoNul(lines: seq<string>)
    ensures '\0' !in Kept(lines)
    decreases |lines|
  {
    hide Value, FieldOf;
    if lines != [] {
      KeptHasNoNul(lines[..|lines| - 1]);
    }
  }

  /** An id since the last event that has no NUL is the kept one. */
  lemma {:induction false} SinceIsKept(lines: seq<string>)
    ensures SinceEvent(lines, "id").Some? && '\0' !in SinceEvent(lines, "id").value ==>
              SinceEvent(lines, "id").value == Kept(lines)
    decreases |lines|
  {
    hide Value, HasData;
    if lines != [] {
      SinceIsKept(lines[..|lines| - 1]);
    }
  }

  /** Reader and Standard dispatch the same event exactly when it has its own name and id. */
  lemma SameEvent(lines: seq<string>)
    requires HasData(lines)
    ensures var p, q := Remaining(NOTHING, lines), Interpret(lines);
            p.data != [] && q.data != []
                && (Complete(p) == Event(q.id, q.name, Join(q.data)) <==> OwnName(lines) && OwnId(lines))
  {
    HoldsAlways(lines);
    OwnIsSince(lines, "event");
    KeptHasNoNul(lines);
    SinceIsKept(lines);
    hide Remaining, Interpret, Own, SinceEvent, Kept, HasData;
  }

  lemma OwnFieldsStep(lines: seq<string>, line: string)
    ensures OwnFields(lines + [line]) <==>
              OwnFields(lines) && (line == "" && HasData(lines) ==> OwnName(lines) && OwnId(lines))
  {
    var all := lines + [line];
    hide OwnName, OwnId, HasData;
    assert all[..|lines|] == lines;
    forall k: nat | k < |lines| ensures all[..k] == lines[..k] {
    }
    if OwnFields(all) {
      forall k | 0 <= k < |lines| && Dispatches(lines, k) ensures OwnName(lines[..k]) && OwnId(lines[..k]) {
        assert all[..k] == lines[..k];
        assert Dispatches(all, k);
      }
      if line == "" && HasData(lines) {
        assert Dispatches(all, |lines|);
      }
    }
    if OwnFields(lines) && (line == "" && HasData(lines) ==> OwnName(lines) && OwnId(lines)) {
      forall k | 0 <= k < |all| && Dispatches(all, k) ensures OwnName(all[..k]) && OwnId(all[..k]) {
        if k < |lines| {
          assert all[..k] == lines[..k];
          assert Dispatches(lines, k);
        }
      }
    }
  }

  /** They dispatch at the same lines, and the same events as long as each has its own name and id. */
  lemma {:induction false} SameSoFar(lines: seq<string>)
    ensures |Dispatched(NOTHING, lines)| == |Standard(lines)|
    ensures Dispatched(NOTHING, lines) == Standard(lines) <==> OwnFields(lines)
    decreases |lines|
  {
    if lines != [] {
      var before, line := lines[..|lines| - 1], lines[|lines| - 1];
      assert before + [line] == lines;
      SameSoFar(before);
      SameStep(before, line);
    }
  }

  lemma SameStep(lines: seq<string>, line: string)
    requires |Dispatched(NOTHING, lines)| == |Standard(lines)|
    requires Dispatched(NOTHING, lines) == Standard(lines) <==> OwnFields(lines)
    ensures var all := lines + [line];
            && |Dispatched(NOTHING, all)| == |Standard(all)|
            && (Dispatched(NOTHING, all) == Standard(all) <==> OwnFields(all))
  {
    LastLineStep(NOTHING, lines, line);
    InterpretStep(lines, line);
    OwnFieldsStep(lines, line);
    HoldsAlways(lines);
    hide Value, Key, Join, OwnName, OwnId, HasData, Remaining, Dispatched, Interpret, OwnFields, Complete, Note;
    if line == "" && HasData(lines) {
      SameEvent(lines);
      var p, q := Remaining(NOTHING, lines), Interpret(lines);
      OneMore(Dispatched(NOTHING, lines), q.events, Complete(p), Event(q.id, q.name, Join(q.data)));
    }
  }

  lemma OneMore(s: seq<Event>, t: seq<Event>, e: Event, f: Event)
    requires |s| == |t|
    ensures s + [e] == t + [f] <==> s == t && e == f
  {
    if s + [e] == t + [f] {
      assert (s + [e])[..|s|] == s && (t + [f])[..|t|] == t;
      assert (s + [e])[|s|] == (t + [f])[|t|];
    }
  }

  /**
   * Exactly when `readSSE` reads lines as the Standard does: every event is ended by a blank line, has its own id or
   * follows none, and its name is not one that a block without data left behind.
   */
  lemma {:induction false} ReadsAsStandardExactly(lines: seq<string>)
    ensures Events(lines) == Standard(lines) <==> Portable(lines)
  {
    SameSoFar(lines);
    HoldsAlways(lines);
    hide Dispatched, Remaining, Interpret, HasData, OwnName, OwnId, Complete;
    if HasData(lines) {
      assert |Events(lines)| == |Standard(lines)| + 1;
    } else {
      assert Events(lines) == Dispatched(NOTHING, lines);
    }
  }

  // ---------- inputs on which they differ ----------

  /** What both hold after these lines. */
  ghost predicate After(lines: seq<string>, heard: seq<Event>, p: Partial, q: Source) {
    Dispatched(NOTHING, lines) == heard && Remaining(NOTHING, lines) == p && Interpret(lines) == q
  }

  lemma AtFirst()
    ensures After([], [], NOTHING, Source([], "", "", []))
  {
  }

  lemma FieldRead(p: Partial, q: Source, key: string, text: string)
    requires key != "" && ':' !in key && (text != "" ==> text[0] != ' ')
    ensures var line := key + ":" + text;
            && line != ""
            && Note(p, line) == (if key == "event" then p.(name := text) else if key == "id" then p.(id := text)
                                 else if key == "data" then p.(data := p.data + [text]) else p)
            && Process(q, line) == (if key == "event" then q.(name := text)
                                    else if key == "id" && '\0' !in text then q.(id := text)
                                    else if key == "data" then q.(data := q.data + [text]) else q)
  {
    hide Key, Value;
    ReadsBack(Field(key, false, text));
    assert Show(Field(key, false, text)) == key + ":" + text;
  }

  lemma ThenField(lines: seq<string>, heard: seq<Event>, p: Partial, q: Source, key: string, text: string)
    requires After(lines, heard, p, q) && key != "" && ':' !in key && (text != "" ==> text[0] != ' ')
    ensures After(lines + [key + ":" + text], heard,
                  if key == "event" then p.(name := text) else if key == "id" then p.(id := text)
                  else if key == "data" then p.(data := p.data + [text]) else p,
                  if key == "event" then q.(name := text) else if key == "id" && '\0' !in text then q.(id := text)
                  else if key == "data" then q.(data := q.data + [text]) else q)
  {
    hide Note, Process, Complete, Dispatched, Remaining, Interpret, Kept, FieldOf, Value;
    FieldRead(p, q, key, text);
    LastLineStep(NOTHING, lines, key + ":" + text);
    InterpretStep(lines, key + ":" + text);
  }

  lemma ThenBlank(lines: seq<string>, heard: seq<Event>, p: Partial, q: Source)
    requires After(lines, heard, p, q)
    ensures After(lines + [""], if p.data == [] then heard else heard + [Complete(p)],
                  if p.data == [] then p else NOTHING, Dispatch(q))
  {
    LastLineStep(NOTHING, lines, "");
    InterpretStep(lines, "");
    hide Dispatched, Remaining, Interpret, Dispatch, Complete;
  }

  lemma AtLast(lines: seq<string>, heard: seq<Event>, p: Partial, q: Source)
    requires After(lines, heard, p, q)
    ensures Events(lines) == heard + Final(p) && Standard(lines) == q.events
  {
  }

  /** A name in a block without data goes to the next event; the Standard drops it. */
  lemma StrayNameKept()
    ensures var lines := ["event" + ":" + "x", "", "data" + ":" + "a", ""];
            Events(lines) == [Event("", "x", "a")] && Standard(lines) == [Event("", "", "a")]
  {
    hide After;
    var first, third := "event" + ":" + "x", "data" + ":" + "a";
    AtFirst();
    assert [] + ["a"] == ["a"] && Join(["a"]) == "a";
    ThenField([], [], NOTHING, Source([], "", "", []), "event", "x");
    var p, q := Partial("", "x", []), Source([], "", "x", []);
    assert [] + [first] == [first];
    ThenBlank([first], [], p, q);
    assert [first] + [""] == [first, ""];
    ThenField([first, ""], [], p, q.(name := ""), "data", "a");
    assert [first, ""] + [third] == [first, "", third];
    ThenBlank([first, "", third], [], p.(data := ["a"]), Source([], "", "", ["a"]));
    assert [first, "", third] + [""] == [first, "", third, ""];
    assert [] + [Event("", "x", "a")] == [Event("", "x", "a")] && [] + [Event("", "", "a")] == [Event("", "", "a")];
    AtLast([first, "", third, ""], [Event("", "x", "a")], NOTHING, Source([Event("", "", "a")], "", "", []));
  }

  /** An id is forgotten with its event; the Standard keeps it for the next. */
  lemma IdForgotten()
    ensures var lines := ["id" + ":" + "1", "data" + ":" + "a", "", "data" + ":" + "a", ""];
            && Events(lines) == [Event("1", "", "a"), Event("", "", "a")]
            && Standard(lines) == [Event("1", "", "a"), Event("1", "", "a")]
  {
    hide After;
    var first, data := "id" + ":" + "1", "data" + ":" + "a";
    var one := Event("1", "", "a");
    FirstEvent(first, data, one);
    assert [] + ["a"] == ["a"] && Join(["a"]) == "a";
    ThenField([first, data, ""], [one], NOTHING, Source([one], "1", "", []), "data", "a");
    assert [first, data, ""] + [data] == [first, data, "", data];
    ThenBlank([first, data, "", data], [one], Partial("", "", ["a"]), Source([one], "1", "", ["a"]));
    assert [first, data, "", data] + [""] == [first, data, "", data, ""];
    assert [one] + [Event("", "", "a")] == [one, Event("", "", "a")] && [one] + [one] == [one, one];
    AtLast([first, data, "", data, ""], [one, Event("", "", "a")], NOTHING, Source([one, one], "1", "", []));
  }

  lemma FirstEvent(first: string, data: string, one: Event)
    requires first == "id" + ":" + "1" && data == "data" + ":" + "a" && one == Event("1", "", "a")
    ensures After([first, data, ""], [one], NOTHING, Source([one], "1", "", []))
  {
    hide After;
    AtFirst();
    assert [] + ["a"] == ["a"] && Join(["a"]) == "a";
    ThenField([], [], NOTHING, Source([], "", "", []), "id", "1");
    assert [] + [first] == [first];
    ThenField([first], [], Partial("1", "", []), Source([], "1", "", []), "data", "a");
    assert [first] + [data] == [first, data];
    ThenBlank([first, data], [], Partial("1", "", ["a"]), Source([], "1", "", ["a"]));
    assert [first, data] + [""] == [first, data, ""] && [] + [one] == [one];
  }

  /** An id with a NUL is taken; the Standard ignores it. */
  lemma NulIdTaken()
    ensures var lines := ["id" + ":" + "\0", "data" + ":" + "a", ""];
            Events(lines) == [Event("\0", "", "a")] && Standard(lines) == [Event("", "", "a")]
  {
    hide After;
    var first, data := "id" + ":" + "\0", "data" + ":" + "a";
    AtFirst();
    assert [] + ["a"] == ["a"] && Join(["a"]) == "a";
    ThenField([], [], NOTHING, Source([], "", "", []), "id", "\0");
    assert [] + [first] == [first];
    ThenField([first], [], Partial("\0", "", []), Source([], "", "", []), "data", "a");
    assert [first] + [data] == [first, data];
    ThenBlank([first, data], [], Partial("\0", "", ["a"]), Source([], "", "", ["a"]));
    assert [first, data] + [""] == [first, data, ""];
    assert [] + [Event("\0", "", "a")] == [Event("\0", "", "a")] && [] + [Event("", "", "a")] == [Event("", "", "a")];
    AtLast([first, data, ""], [Event("\0", "", "a")], NOTHING, Source([Event("", "", "a")], "", "", []));
  }

  /** An event no blank line ends is heard; the Standard discards it. */
  lemma UnendedHeard()
    ensures var lines := ["data" + ":" + "a"]; Events(lines) == [Event("", "", "a")] && Standard(lines) == []
  {
    hide After;
    AtFirst();
    assert [] + ["a"] == ["a"] && Join(["a"]) == "a";
    ThenField([], [], NOTHING, Source([], "", "", []), "data", "a");
    assert [] + ["data" + ":" + "a"] == ["data" + ":" + "a"];
    AtLast(["data" + ":" + "a"], [], Partial("", "", ["a"]), Source([], "", "", ["a"]));
  }

  // ---------- the Standard's lines ----------

  const BOM: string := "\U{EF}\U{BB}\U{BF}"

  function Decoded(s: string): string {
    if BOM <= s then s[|BOM|..] else s
  }

  /** The first line end, or the end of the text. */
  function LineLength(s: string): (i: nat)
    ensures i <= |s| && (forall j :: 0 <= j < i ==> s[j] != '\n' && s[j] != '\r')
    ensures (i < |s| ==> s[i] == '\n' || s[i] == '\r')
  {
    if s == "" || s[0] == '\n' || s[0] == '\r' then 0 else 1 + LineLength(s[1..])
  }

  function AfterEnd(s: string, i: nat): string
    requires i <= |s|
  {
    if i == |s| then "" else if s[i] == '\r' && i + 1 < |s| && s[i + 1] == '\n' then s[i + 2..] else s[i + 1..]
  }

  /** A line feed, a carriage return, or the pair of them ends a line. */
  function StandardLines(s: string): seq<string>
    decreases |s|
  {
    if s == "" then [] else [s[..LineLength(s)]] + StandardLines(AfterEnd(s, LineLength(s)))
  }

  /** A carriage return that neither a line feed nor the end of the text follows. */
  predicate BareCr(s: string) {
    exists i :: 0 <= i < |s| - 1 && s[i] == '\r' && s[i + 1] != '\n'
  }

  /** Past a first line without a carriage return, but for one at its end. */
  lemma BareLater(s: string, i: nat)
    requires i <= |s| && (i < |s| ==> s[i] == '\n') && forall k :: 0 <= k < i - 1 ==> s[k] != '\r'
    ensures BareCr(s) <==> BareCr(Rest(s, i))
  {
    var t := Rest(s, i);
    if k :| 0 <= k < |s| - 1 && s[k] == '\r' && s[k + 1] != '\n' {
      assert k > i;
      assert t[k - i - 1] == '\r' && t[k - i] != '\n';
    }
    if k :| 0 <= k < |t| - 1 && t[k] == '\r' && t[k + 1] != '\n' {
      assert s[k + i + 1] == '\r' && s[k + i + 2] != '\n';
    }
  }

  /** Where the scanner's first line ends as the Standard's does, and where it goes on past it. */
  lemma FirstLines(s: string)
    requires s != ""
    ensures var i, j := IndexOf(s, '\n'), LineLength(s);
            if j + 1 < i then BareCr(s) && |DropCr(s[..i])| > j
            else DropCr(s[..i]) == s[..j] && AfterEnd(s, j) == Rest(s, i) && (BareCr(s) <==> BareCr(Rest(s, i)))
  {
    var i, j := IndexOf(s, '\n'), LineLength(s);
    assert j <= i;
    if j + 1 < i {
      assert s[j] == '\r' && s[j + 1] != '\n';
    } else {
      BareLater(s, i);
      hide BareCr;
      assert if j == i then s[..i] == s[..j] else s[..i][..j] == s[..j];
    }
  }

  lemma FirstOf(a: seq<string>, b: seq<string>, s: string, t: string)
    ensures [s] + a == [t] + b <==> s == t && a == b
  {
    assert ([s] + a)[0] == s && ([s] + a)[1..] == a && ([t] + b)[0] == t && ([t] + b)[1..] == b;
  }

  /** The scanner's lines are the Standard's exactly when no carriage return stands alone. */
  lemma {:induction false} LinesExactly(s: string)
    requires Fits(s)
    ensures Lines(s) == StandardLines(s) <==> !BareCr(s)
    decreases |s|
  {
    if s != "" {
      var i, j := IndexOf(s, '\n'), LineLength(s);
      FirstLines(s);
      FirstOf(Lines(Rest(s, i)), StandardLines(AfterEnd(s, j)), DropCr(s[..i]), s[..j]);
      if j + 1 >= i {
        LinesExactly(Rest(s, i));
      }
      hide BareCr, Lines, StandardLines, IndexOf, LineLength, AfterEnd, DropCr;
      LinesAre(s);
    }
  }

  lemma LinesAre(s: string)
    requires s != "" && Fits(s)
    ensures Lines(s) == [DropCr(s[..IndexOf(s, '\n')])] + Lines(Rest(s, IndexOf(s, '\n')))
    ensures Fits(Rest(s, IndexOf(s, '\n')))
    ensures StandardLines(s) == [s[..LineLength(s)]] + StandardLines(AfterEnd(s, LineLength(s)))
  {
  }

  /** A byte order mark, too, sets them apart: the scanner keeps it in its first line. */
  lemma {:induction false} TextExactly(s: string)
    requires Fits(s)
    ensures Lines(s) == StandardLines(Decoded(s)) <==> !(BOM <= s) && !BareCr(s)
  {
    LinesExactly(s);
    if BOM <= s {
      var t := s[|BOM|..];
      var i := IndexOf(s, '\n');
      assert s[0] == BOM[0] && s[1] == BOM[1] && s[2] == BOM[2];
      assert i >= 3;
      LinesAre(s);
      if t != "" {
        assert i < |s| ==> t[i - 3] == '\n';
        assert LineLength(t) <= i - 3;
        assert StandardLines(t)[0] == t[..LineLength(t)];
        assert Lines(s)[0] == DropCr(s[..i]);
      }
    }
  }

  lemma {:induction false} StandardLine(raw: string, end: char, tail: string)
    requires '\n' !in raw && '\r' !in raw && (end == '\n' || (end == '\r' && (tail == "" || tail[0] != '\n')))
    ensures StandardLines(raw + [end] + tail) == [raw] + StandardLines(tail)
  {
    var text := raw + [end] + tail;
    assert text[|raw|] == end && text[..|raw|] == raw && text[|raw| + 1..] == tail;
    assert forall i :: 0 <= i < |raw| ==> text[i] == raw[i] && text[i] in raw;
    assert LineLength(text) == |raw|;
  }

  /** A carriage return alone ends no line: the second field becomes part of the first one's value. */
  lemma {:induction false} BareCrJoins()
    ensures var text := "data:a\rid:1\n\n";
            Lines(text) == ["data:a\rid:1", ""] && StandardLines(text) == ["data:a", "id:1", ""]
  {
    hide Lines, StandardLines, Fits;
    OneLine("data:a\rid:1", "\n");
    OneLine("", "");
    assert "data:a\rid:1" + "\n" + "\n" == "data:a\rid:1\n\n" && "" + "\n" + "" == "\n";
    StandardLine("data:a", '\r', "id:1\n\n");
    StandardLine("id:1", '\n', "\n");
    StandardLine("", '\n', "");
    assert "data:a" + ['\r'] + "id:1\n\n" == "data:a\rid:1\n\n" && "id:1" + ['\n'] + "\n" == "id:1\n\n"
           && "" + ['\n'] + "" == "\n";
    NoText();
    NoStandardText();
  }

  lemma NoStandardText()
    ensures StandardLines("") == []
  {
  }

  /**
   * A clean stream in lines of the scanner's length, ended as it knows them, and portable, is heard as the Standard
   * says.
   */
  lemma {:induction false} HeardAsStandard(input: string)
    requires Fits(input) && !(BOM <= input) && !BareCr(input)
    ensures Heard(input, false) == Standard(StandardLines(Decoded(input))) <==> Portable(Lines(input))
  {
    TextExactly(input);
    ReadsAsStandardExactly(Lines(input));
  }
}
