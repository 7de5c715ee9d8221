/** The text of the event stream, and the client's reading of it by sections 9.2.5 and 9.2.6 of the WHATWG
    HTML Standard. */
module EventWire {

  // ---------------------------------------------------------------- numbers

  const DIGITS := "0123456789"

  function Digits(n: nat): string {
    if n < 10 then [DIGITS[n]] else Digits(n / 10) + [DIGITS[n % 10]]
  }

  function Decimal(n: int): string {
    if n < 0 then "-" + Digits(-n) else Digits(n)
  }

  function DigitValue(c: char): nat {
    if '0' <= c <= '9' then (c as int) - ('0' as int) else 0
  }

  function ReadDigits(text: string): nat {
    if text == "" then 0 else ReadDigits(text[..|text| - 1]) * 10 + DigitValue(text[|text| - 1])
  }

  function ReadDecimal(text: string): int {
    if text != "" && text[0] == '-' then 0 - ReadDigits(text[1..]) else ReadDigits(text)
  }

  lemma {:induction false} DigitsAreDigits(n: nat)
    ensures Digits(n) != ""
    ensures forall c | c in Digits(n) :: '0' <= c <= '9'
    ensures ReadDigits(Digits(n)) == n
  {
    assert forall d | 0 <= d < 10 :: '0' <= DIGITS[d] <= '9' && DigitValue(DIGITS[d]) == d;
    if n >= 10 {
      DigitsAreDigits(n / 10);
      var front, last := Digits(n / 10), DIGITS[n % 10];
      assert (front + [last])[..|front|] == front;
    } else {
      assert Digits(n)[..0] == "";
    }
  }

  /** The id a client sends back names the number it was given. */
  lemma DecimalReadsBack(n: int)
    ensures ReadDecimal(Decimal(n)) == n
    ensures forall c | c in Decimal(n) :: c == '-' || '0' <= c <= '9'
  {
    DigitsAreDigits(if n < 0 then -n else n);
    if n < 0 {
      assert Decimal(n)[1..] == Digits(-n);
    } else {
      assert Digits(n)[0] in Digits(n);
    }
  }

  // ---------------------------------------------------------------- writing

  datatype Outgoing = Outgoing(sequence: int, kind: string, json: string)

  function FormatEvent(event: Outgoing): string {
    "id: " + Decimal(event.sequence) + "\nevent: " + event.kind + "\ndata: " + event.json + "\n\n"
  }

  function FormatAll(events: seq<Outgoing>): string {
    if events == [] then "" else FormatEvent(events[0]) + FormatAll(events[1..])
  }

  // ---------------------------------------------------------------- reading

  datatype Message = Message(id: string, kind: string, data: string)

  /** The three buffers of the interpretation. */
  datatype Buffers = Buffers(data: string, kind: string, lastId: string)

  const NO_BUFFERS := Buffers("", "", "")

  predicate IsLineEnd(c: char) {
    c == '\n' || c == '\r'
  }

  /** The position of the first character of `text` with the property, or its length. */
  function LineLength(text: string): (n: nat)
    ensures n <= |text|
  {
    if text == "" || IsLineEnd(text[0]) then 0 else 1 + LineLength(text[1..])
  }

  /** The complete lines of a text, which end in CR LF, LF or CR; an unfinished last line is discarded. */
  function Lines(text: string): seq<string>
    decreases |text|
  {
    var n := LineLength(text);
    if n == |text| then []
    else
      var skip := if text[n] == '\r' && n + 1 < |text| && text[n + 1] == '\n' then 2 else 1;
      [text[..n]] + Lines(text[n + skip..])
  }

  function ColonAt(line: string): (n: nat)
    ensures n <= |line|
  {
    if line == "" || line[0] == ':' then 0 else 1 + ColonAt(line[1..])
  }

  function DropSpace(value: string): string {
    if value != "" && value[0] == ' ' then value[1..] else value
  }

  function ProcessField(buffers: Buffers, field: string, value: string): Buffers {
    if field == "event" then buffers.(kind := value)
    else if field == "data" then buffers.(data := buffers.data + value + "\n")
    else if field == "id" && '\0' !in value then buffers.(lastId := value)
    else buffers
  }

  function ProcessLine(buffers: Buffers, line: string): Buffers {
    var n := ColonAt(line);
    if n == |line| then ProcessField(buffers, line, "")
    else if n == 0 then buffers
    else ProcessField(buffers, line[..n], DropSpace(line[n + 1..]))
  }

  /** What a blank line dispatches: nothing without data, else one message. */
  function Dispatch(buffers: Buffers): seq<Message> {
    if buffers.data == "" then []
    else
      var data := if buffers.data[|buffers.data| - 1] == '\n' then buffers.data[..|buffers.data| - 1] else buffers.data;
      [Message(buffers.lastId, if buffers.kind == "" then "message" else buffers.kind, data)]
  }

  function Interpret(buffers: Buffers, lines: seq<string>): seq<Message>
    decreases |lines|
  {
    if lines == [] then []
    else if lines[0] == "" then Dispatch(buffers) + Interpret(Buffers("", "", buffers.lastId), lines[1..])
    else Interpret(ProcessLine(buffers, lines[0]), lines[1..])
  }

  function ReadStream(text: string): seq<Message> {
    Interpret(NO_BUFFERS, Lines(text))
  }

  // ---------------------------------------------------------------- the round trip

  predicate OneLine(text: string) {
    forall c | c in text :: !IsLineEnd(c)
  }

  /** What the server writes: a named event type and JSON text, each on one line. */
  predicate Writable(event: Outgoing) {
    event.kind != "" && OneLine(event.kind) && event.json != "" && OneLine(event.json)
  }

  function Reading(event: Outgoing): Message {
    Message(Decimal(event.sequence), event.kind, event.json)
  }

  lemma {:induction false} LineLengthOf(line: string, rest: string)
    requires OneLine(line)
    ensures LineLength(line + "\n" + rest) == |line|
  {
    if line != "" {
      LineLengthOf(line[1..], rest);
      assert line[0] in line;
      assert (line + "\n" + rest)[1..] == line[1..] + "\n" + rest;
    } else {
      assert (line + "\n" + rest)[0] == '\n';
    }
  }

  lemma LinesSplit(line: string, rest: string)
    requires OneLine(line)
    ensures Lines(line + "\n" + rest) == [line] + Lines(rest)
  {
    var text := line + "\n" + rest;
    LineLengthOf(line, rest);
    assert text[..|line|] == line && text[|line|] == '\n' && text[|line| + 1..] == rest;
  }

  lemma {:induction false} ColonAtOf(field: string, rest: string)
    requires ':' !in field
    ensures ColonAt(field + ":" + rest) == |field|
  {
    if field != "" {
      ColonAtOf(field[1..], rest);
      assert (field + ":" + rest)[1..] == field[1..] + ":" + rest;
    }
  }

  lemma ProcessLineOf(buffers: Buffers, field: string, value: string)
    requires ':' !in field && field != ""
    ensures ProcessLine(buffers, field + ": " + value) == ProcessField(buffers, field, value)
    ensures OneLine(field) && OneLine(value) ==> OneLine(field + ": " + value)
  {
    var line := field + ": " + value;
    assert line == field + ":" + (" " + value);
    ColonAtOf(field, " " + value);
    assert line[..|field|] == field && line[|field| + 1..] == " " + value && (" " + value)[1..] == value;
  }

  /** Three lines change the buffers one after the other, and a blank line dispatches what they left. */
  lemma InterpretFour(b0: Buffers, b1: Buffers, b2: Buffers, b3: Buffers, l1: string, l2: string, l3: string,
                      rest: seq<string>)
    requires l1 != "" && l2 != "" && l3 != ""
    requires ProcessLine(b0, l1) == b1 && ProcessLine(b1, l2) == b2 && ProcessLine(b2, l3) == b3
    ensures Interpret(b0, [l1] + ([l2] + ([l3] + ([""] + rest)))) == Dispatch(b3) + Interpret(Buffers("", "",
                                                                                                      b3.lastId), rest)
  {
    InterpretOne(b0, b1, l1, [l2] + ([l3] + ([""] + rest)));
    InterpretOne(b1, b2, l2, [l3] + ([""] + rest));
    InterpretOne(b2, b3, l3, [""] + rest);
    assert ([""] + rest)[1..] == rest;
  }

  lemma InterpretOne(b0: Buffers, b1: Buffers, line: string, rest: seq<string>)
    requires line != "" && ProcessLine(b0, line) == b1
    ensures Interpret(b0, [line] + rest) == Interpret(b1, rest)
  {
  }

  lemma RegroupLines(a: string, b: string, c: string, rest: string)
    ensures (a + "\n" + b + "\n" + c + "\n\n") + rest == a + "\n" + (b + "\n" + (c + "\n" + ("" + "\n" + rest)))
  {
  }

  lemma FormatIsLines(event: Outgoing)
    ensures FormatEvent(event) ==
            ("id: " + Decimal(event.sequence)) + "\n" + ("event: " + event.kind) + "\n"
            + ("data: " + event.json) + "\n\n"
  {
  }

  lemma FourLines(a: string, b: string, c: string, rest: string)
    requires OneLine(a) && OneLine(b) && OneLine(c)
    ensures Lines((a + "\n" + b + "\n" + c + "\n\n") + rest) == [a] + ([b] + ([c] + ([""] + Lines(rest))))
  {
    RegroupLines(a, b, c, rest);
    LinesSplit("", rest);
    LinesSplit(c, "" + "\n" + rest);
    LinesSplit(b, c + "\n" + ("" + "\n" + rest));
    LinesSplit(a, b + "\n" + (c + "\n" + ("" + "\n" + rest)));
  }

  /** One written event is read as four lines. */
  lemma EventLines(event: Outgoing, rest: string)
    requires Writable(event)
    ensures Lines(FormatEvent(event) + rest) ==
            ["id: " + Decimal(event.sequence)]
            + (["event: " + event.kind] + (["data: " + event.json] + ([""] + Lines(rest))))
  {
    DecimalReadsBack(event.sequence);
    FormatIsLines(event);
    FourLines("id: " + Decimal(event.sequence), "event: " + event.kind, "data: " + event.json, rest);
  }

  lemma FieldLines(b0: Buffers, b1: Buffers, b2: Buffers, id: string, kind: string, json: string)
    ensures ProcessLine(b0, "id: " + id) == ProcessField(b0, "id", id)
    ensures ProcessLine(b1, "event: " + kind) == ProcessField(b1, "event", kind)
    ensures ProcessLine(b2, "data: " + json) == ProcessField(b2, "data", json)
  {
    ProcessLineOf(b0, "id", id);
    ProcessLineOf(b1, "event", kind);
    ProcessLineOf(b2, "data", json);
    assert "id" + ": " == "id: " && "event" + ": " == "event: " && "data" + ": " == "data: ";
  }

  /** The four lines of one event dispatch one message and leave only the id behind. */
  lemma EventDispatches(id: string, kind: string, json: string, lastId: string, rest: seq<string>)
    requires '\0' !in id && kind != "" && json != ""
    ensures Interpret(Buffers("", "", lastId),
                      ["id: " + id] + (["event: " + kind] + (["data: " + json] + ([""] + rest))))
            == [Message(id, kind, json)] + Interpret(Buffers("", "", id), rest)
  {
    var b0, b1, b2, b3 := Buffers("", "", lastId), Buffers("", "", id), Buffers("", kind, id), Buffers(json + "\n",
                                                                                                       kind, id);
    FieldLines(b0, b1, b2, id, kind, json);
    assert "" + json + "\n" == json + "\n";
    DispatchOf(id, kind, json);
    InterpretFour(b0, b1, b2, b3, "id: " + id, "event: " + kind, "data: " + json, rest);
  }

  lemma DispatchOf(id: string, kind: string, json: string)
    requires kind != "" && json != ""
    ensures Dispatch(Buffers(json + "\n", kind, id)) == [Message(id, kind, json)]
  {
  }

  lemma {:induction false} ReadFrom(events: seq<Outgoing>, lastId: string)
    requires forall event | event in events :: Writable(event)
    ensures Interpret(Buffers("", "", lastId), Lines(FormatAll(events)))
            == seq(|events|, i requires 0 <= i < |events| => Reading(events[i]))
  {
    if events != [] {
      var first, rest := events[0], events[1..];
      EventLines(first, FormatAll(rest));
      DecimalReadsBack(first.sequence);
      EventDispatches(Decimal(first.sequence), first.kind, first.json, lastId, Lines(FormatAll(rest)));
      ReadFrom(rest, Decimal(first.sequence));
    }
  }

  /** A client reads exactly the events that were written, in order: id, type and data. */
  lemma StreamRoundTrip(events: seq<Outgoing>)
    requires forall event | event in events :: Writable(event)
    ensures ReadStream(FormatAll(events)) == seq(|events|, i requires 0 <= i < |events| => Reading(events[i]))
    ensures forall i | 0 <= i < |events| :: ReadDecimal(ReadStream(FormatAll(events))[i].id) == events[i].sequence
  {
    ReadFrom(events, "");
    forall i | 0 <= i < |events|
      ensures ReadDecimal(Reading(events[i]).id) == events[i].sequence
    {
      DecimalReadsBack(events[i].sequence);
    }
  }
}
