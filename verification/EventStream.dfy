/**
 * Session events over server-sent events (section 9.2 of the WHATWG HTML Standard): the server's
 * replay and live phases, the client's frame splitting, and what a client that reconnects with
 * `Last-Event-ID` is delivered over any number of broken connections.
 *
 * A log entry is the JSON text of one event; its position is its sequence number.
 */
module EventStream {
  import opened Options

  datatype Frame = Frame(id: int, event: string, data: string)

  const SESSION_EVENT := "session.event"
  const SNAPSHOT := "session.snapshot"

  /** The line terminators of section 12.3 of ECMA-262, which end a line for a multi-line pattern. */
  predicate Terminator(c: char) {
    c == '\n' || c == '\r' || c == '\U{2028}' || c == '\U{2029}'
  }

  predicate Plain(text: string) {
    forall c | c in text :: !Terminator(c)
  }

  /** Text that can stand on one `data:` line: non-empty, and free of line terminators. */
  predicate OneLine(text: string) {
    text != [] && Plain(text)
  }

  /**
   * The text of a JSON object as `JSON.stringify` writes it, for a reader `parses`: it parses, but no
   * proper prefix of it does, and it escapes the control characters. It may hold the terminators
   * U+2028 and U+2029, which JSON text need not escape.
   */
  predicate ObjectText(text: string, parses: string -> bool) {
    && text != [] && !Terminator(text[0]) && '\n' !in text && '\r' !in text
    && parses(text) && forall k | 0 <= k < |text| :: !parses(text[..k])
  }

  predicate ObjectTexts(log: seq<string>, parses: string -> bool) {
    forall i | 0 <= i < |log| :: ObjectText(log[i], parses)
  }

  /** The frames of the events `from..to`. */
  function EventFrames(log: seq<string>, from: nat, to: nat): (fs: seq<Frame>)
    requires from <= to <= |log|
    ensures |fs| == to - from
    ensures forall i | 0 <= i < |fs| :: fs[i] == Frame(from + i, SESSION_EVENT, log[from + i])
  {
    seq(to - from, i requires 0 <= i < to - from => Frame(from + i, SESSION_EVENT, log[from + i]))
  }

  // ----- the server -----

  /** The client's last seen sequence number from its header; an absent or unreadable header asks for everything. */
  function AfterSeq(header: Option<string>): int {
    ParseInt(header.GetOr("")).GetOr(-1)
  }

  /** Where a connection's deliveries start: past the client's last event, unless the client is ahead of the log. */
  function Start(afterSeq: int, length: nat): nat {
    if afterSeq < 0 then 0 else if afterSeq < length then afterSeq + 1 else length
  }

  /** What is written of the log: what was loaded, and what has arrived since the subscription and was not loaded. */
  function Covered(log: seq<string>, start: nat, loaded: nat, subscribedAt: nat): seq<Frame>
    requires start <= |log| && loaded <= |log| && subscribedAt <= |log|
  {
    EventFrames(log, Min(start, loaded), loaded) + EventFrames(log, Max(start, Max(loaded, subscribedAt)), |log|)
  }

  /** One subscriber's connection, beside the session log it follows. */
  class Connection {
    const afterSeq: int
    var log: seq<string>
    var buffered: seq<nat>
    var replayDone: bool
    var written: seq<Frame>
    const subscribedAt: nat
    ghost var start: nat
    ghost var loadedAt: nat
    ghost var flushedAt: nat

    ghost predicate Valid()
      reads this
    {
      && subscribedAt <= |log|
      && (!replayDone ==>
            && written == [] && |buffered| == |log| - subscribedAt
            && forall i | 0 <= i < |buffered| :: buffered[i] == subscribedAt + i)
      && (replayDone ==>
            && start == Start(afterSeq, flushedAt) && loadedAt <= flushedAt && subscribedAt <= flushedAt <= |log|
            && written != [] && written[0].event == SNAPSHOT && written[0].id == -1
            && written[1..] == Covered(log, start, loadedAt, subscribedAt))
    }

    /** Subscribe before anything is replayed. */
    constructor (log: seq<string>, header: Option<string>)
      ensures Valid() && !replayDone && this.log == log && afterSeq == AfterSeq(header) && subscribedAt == |log|
    {
      this.log := log;
      afterSeq := AfterSeq(header);
      buffered, replayDone, written := [], false, [];
      subscribedAt, start, loadedAt, flushedAt := |log|, 0, 0, 0;
    }

    /** The session appends an event: buffered until the replay is done, written at once after that. */
    method OnEvent(json: string)
      requires Valid()
      modifies this
      ensures Valid() && log == old(log) + [json] && replayDone == old(replayDone)
      ensures loadedAt == old(loadedAt) && flushedAt == old(flushedAt)
      ensures replayDone ==> written == old(written) + [Frame(|old(log)|, SESSION_EVENT, json)]
    {
      var seqNo := |log|;
      log := log + [json];
      if !replayDone {
        buffered := buffered + [seqNo];
        return;
      }
      CoveredNext(old(log), start, loadedAt, subscribedAt, json);
      written := written + [Frame(seqNo, SESSION_EVENT, json)];
    }

    /**
     * Write the replay, then what arrived meanwhile, and go live. `loaded` is how much of the log
     * the replay has read.
     */
    method Replay(loaded: nat, snapshot: string)
      requires Valid() && !replayDone && loaded <= |log|
      modifies this
      ensures Valid() && replayDone && log == old(log)
      ensures flushedAt == |log| && loadedAt == loaded && start == Start(afterSeq, |log|)
      ensures written == [Frame(-1, SNAPSHOT, snapshot)] + Covered(log, start, loaded, subscribedAt)
    {
      start, loadedAt, flushedAt := Start(afterSeq, |log|), loaded, |log|;
      var replayed, delivered := ReplayFrames(log, afterSeq, loaded);
      var flushed := FlushFrames(log, afterSeq, loaded, subscribedAt, buffered, delivered);
      written := [Frame(-1, SNAPSHOT, snapshot)] + replayed + flushed;
      replayDone := true;
      assert written == [Frame(-1, SNAPSHOT, snapshot)] + Covered(log, start, loaded, subscribedAt);
    }
  }

  /** The replayed frames: the loaded events past the client's last one, and their sequence numbers. */
  method ReplayFrames(log: seq<string>, afterSeq: int, loaded: nat) returns (out: seq<Frame>, delivered: set<int>)
    requires loaded <= |log|
    ensures var start := Start(afterSeq, |log|);
            && out == EventFrames(log, Min(start, loaded), loaded)
            && forall s :: s in delivered <==> start <= s < loaded
  {
    out, delivered := [], {};
    var start := Start(afterSeq, |log|);
    for i := 0 to loaded
      invariant out == EventFrames(log, Min(start, i), i)
      invariant forall s :: s in delivered <==> start <= s < i
    {
      if i > afterSeq {
        out := out + [Frame(i, SESSION_EVENT, log[i])];
        delivered := delivered + {i};
      }
    }
  }

  /** The buffered frames that the replay did not already deliver. */
  method FlushFrames(log: seq<string>, afterSeq: int, loaded: nat, subscribedAt: nat, buffered: seq<nat>,
      delivered: set<int>) returns (out: seq<Frame>)
    requires subscribedAt <= |log| && loaded <= |log| && |buffered| == |log| - subscribedAt
    requires forall i | 0 <= i < |buffered| :: buffered[i] == subscribedAt + i
    requires forall s :: s in delivered <==> Start(afterSeq, |log|) <= s < loaded
    ensures out == EventFrames(log, Max(Start(afterSeq, |log|), Max(loaded, subscribedAt)), |log|)
  {
    out := [];
    var from := Max(Start(afterSeq, |log|), Max(loaded, subscribedAt));
    for j := 0 to |buffered|
      invariant out == EventFrames(log, Min(from, subscribedAt + j), subscribedAt + j)
    {
      var seqNo := buffered[j];
      if seqNo > afterSeq && seqNo !in delivered {
        out := out + [Frame(seqNo, SESSION_EVENT, log[seqNo])];
      }
    }
  }

  /**
   * Replay and buffer leave no gap if and only if the replay has read everything from before the
   * subscription that the client has not seen.
   */
  lemma SeamlessIff(log: seq<string>, start: nat, loaded: nat, subscribedAt: nat)
    requires start <= |log| && loaded <= |log| && subscribedAt <= |log|
    ensures Covered(log, start, loaded, subscribedAt) == EventFrames(log, start, |log|)
          <==> subscribedAt <= Max(start, loaded)
  {
    var covered := Covered(log, start, loaded, subscribedAt);
    assert |covered| == loaded - Min(start, loaded) + |log| - Max(start, Max(loaded, subscribedAt));
  }

  lemma CoveredNext(log: seq<string>, start: nat, loaded: nat, subscribedAt: nat, json: string)
    requires start <= |log| && loaded <= |log| && subscribedAt <= |log|
    ensures Covered(log + [json], start, loaded, subscribedAt)
         == Covered(log, start, loaded, subscribedAt) + [Frame(|log|, SESSION_EVENT, json)]
  {
  }

  function Min(a: nat, b: nat): nat { if a <= b then a else b }

  function Max(a: nat, b: nat): nat { if a >= b then a else b }

  /**
   * A connection delivers exactly the events past the client's last one if and only if the client
   * is not ahead of the log.
   */
  lemma StartsPastClient(afterSeq: int, length: nat)
    ensures Start(afterSeq, length) == afterSeq + 1 <==> -1 <= afterSeq < length
  {
  }

  // ----- numbers as text -----

  function Digit(d: nat): char
    requires d < 10
  {
    "0123456789"[d]
  }

  predicate IsDigit(c: char) {
    '0' <= c <= '9'
  }

  function Digits(n: nat): (s: string)
    ensures s != [] && forall c | c in s :: IsDigit(c)
  {
    if n < 10 then [Digit(n)] else Digits(n / 10) + [Digit(n % 10)]
  }

  /** `String(n)`. */
  function Decimal(n: int): (s: string)
    ensures OneLine(s)
  {
    if n < 0 then "-" + Digits(-n) else Digits(n)
  }

  function DigitValue(c: char): (d: nat)
    requires IsDigit(c)
    ensures d < 10 && Digit(d) == c
  {
    if c == '0' then 0 else if c == '1' then 1 else if c == '2' then 2 else if c == '3' then 3 else if c == '4' then 4
    else if c == '5' then 5 else if c == '6' then 6 else if c == '7' then 7 else if c == '8' then 8 else 9
  }

  function Value(s: string): nat
    requires forall c | c in s :: IsDigit(c)
  {
    if s == [] then 0
    else
      assert s[|s| - 1] in s;
      assert forall c | c in s[..|s| - 1] :: c in s;
      Value(s[..|s| - 1]) * 10 + DigitValue(s[|s| - 1])
  }

  function LeadingDigits(s: string): (d: string)
    ensures forall c | c in d :: IsDigit(c)
    ensures d <= s
  {
    if s == [] || !IsDigit(s[0]) then [] else [s[0]] + LeadingDigits(s[1..])
  }

  /** White space and line terminators (sections 12.2 and 12.3 of ECMA-262). */
  predicate IsBlank(c: char) {
    || '\t' <= c <= '\r' || c == ' ' || c == '\U{A0}' || c == '\U{1680}' || '\U{2000}' <= c <= '\U{200A}'
    || c == '\U{2028}' || c == '\U{2029}' || c == '\U{202F}' || c == '\U{205F}' || c == '\U{3000}' || c == '\U{FEFF}'
  }

  function Trimmed(s: string): string {
    if s != [] && IsBlank(s[0]) then Trimmed(s[1..]) else s
  }

  /** `Number.parseInt(s, 10)`: leading white space is skipped, then an optional sign and the leading digits. */
  function ParseInt(s: string): Option<int> {
    var trimmed := Trimmed(s);
    var negative := trimmed != [] && trimmed[0] == '-';
    var signed := negative || (trimmed != [] && trimmed[0] == '+');
    var digits := LeadingDigits(if signed then trimmed[1..] else trimmed);
    if digits == [] then None
    else
      var value: int := Value(digits);
      Some(if negative then -value else value)
  }

  lemma {:induction false} AllLeading(s: string)
    requires forall c | c in s :: IsDigit(c)
    ensures LeadingDigits(s) == s
  {
    if s != [] {
      assert s[0] in s;
      assert forall c | c in s[1..] :: c in s;
      AllLeading(s[1..]);
    }
  }

  lemma {:induction false} ValueOfDigits(n: nat)
    ensures Value(Digits(n)) == n
  {
    if n >= 10 {
      ValueOfDigits(n / 10);
      assert DigitValue(Digit(n % 10)) == n % 10;
      assert Digits(n)[..|Digits(n)| - 1] == Digits(n / 10);
    } else {
      assert DigitValue(Digit(n)) == n;
      assert Digits(n)[..0] == [];
    }
  }

  lemma ParseDigits(s: string)
    requires s != [] && forall c | c in s :: IsDigit(c)
    ensures var value: int := Value(s); ParseInt(s) == Some(value) && ParseInt("-" + s) == Some(-value)
  {
    hide Value, LeadingDigits;
    AllLeading(s);
    assert s[0] in s;
    assert ("-" + s)[1..] == s;
  }

  lemma ParseDecimal(n: int)
    ensures ParseInt(Decimal(n)) == Some(n)
  {
    hide Value, Digits, ParseInt;
    var m: nat := if n < 0 then -n else n;
    ValueOfDigits(m);
    ParseDigits(Digits(m));
  }

  lemma {:induction false} TrimmedBlanks(blanks: string, rest: string)
    requires (forall c | c in blanks :: IsBlank(c)) && rest != [] && !IsBlank(rest[0])
    ensures Trimmed(blanks + rest) == rest
  {
    if blanks == [] {
      assert blanks + rest == rest;
    } else {
      assert blanks[0] in blanks;
      assert forall c | c in blanks[1..] :: c in blanks;
      assert (blanks + rest)[1..] == blanks[1..] + rest;
      TrimmedBlanks(blanks[1..], rest);
    }
  }

  lemma {:induction false} LeadingStops(digits: string, rest: string)
    requires (forall c | c in digits :: IsDigit(c)) && (rest == [] || !IsDigit(rest[0]))
    ensures LeadingDigits(digits + rest) == digits
  {
    if digits == [] {
      assert digits + rest == rest;
    } else {
      assert digits[0] in digits;
      assert forall c | c in digits[1..] :: c in digits;
      assert (digits + rest)[1..] == digits[1..] + rest;
      LeadingStops(digits[1..], rest);
    }
  }

  /** A number is read behind white space and a sign, up to the first character that is no digit. */
  lemma ParseTolerates(blanks: string, n: nat, rest: string)
    requires (forall c | c in blanks :: IsBlank(c)) && (rest == [] || !IsDigit(rest[0]))
    ensures ParseInt(blanks + (Digits(n) + rest)) == Some(n)
    ensures ParseInt(blanks + ("+" + (Digits(n) + rest))) == Some(n)
    ensures var value: int := n; ParseInt(blanks + ("-" + (Digits(n) + rest))) == Some(-value)
  {
    hide Value, Digits, LeadingDigits, Trimmed;
    var text := Digits(n) + rest;
    assert Digits(n)[0] in Digits(n) && text[0] == Digits(n)[0];
    TrimmedBlanks(blanks, text);
    TrimmedBlanks(blanks, "+" + text);
    TrimmedBlanks(blanks, "-" + text);
    assert ("+" + text)[1..] == text && ("-" + text)[1..] == text;
    LeadingStops(Digits(n), rest);
    ValueOfDigits(n);
  }

  // ----- frames as text -----

  /** The text of a frame before its blank line. */
  function Raw(f: Frame): string {
    "id: " + Decimal(f.id) + "\n" + "event: " + f.event + "\n" + "data: " + f.data
  }

  /** What the server writes for a frame. */
  function Text(f: Frame): string {
    Raw(f) + "\n\n"
  }

  function AllText(fs: seq<Frame>): string {
    if fs == [] then "" else AllText(fs[..|fs| - 1]) + Text(fs[|fs| - 1])
  }

  predicate Writable(f: Frame) {
    OneLine(f.event) && FirstLine(f.data) != [] && '\n' !in f.data
  }

  /** A frame with its data cut at the first line terminator. */
  function Cut(f: Frame): Frame {
    f.(data := FirstLine(f.data))
  }

  function Cuts(fs: seq<Frame>): (cs: seq<Frame>)
    ensures |cs| == |fs| && forall i | 0 <= i < |fs| :: cs[i] == Cut(fs[i])
  {
    seq(|fs|, i requires 0 <= i < |fs| => Cut(fs[i]))
  }

  /** The position of the first blank line, or the length when there is none. */
  function Boundary(s: string): (b: nat)
    ensures b <= |s|
    ensures b < |s| ==> b + 1 < |s| && s[b] == '\n' && s[b + 1] == '\n'
    ensures forall i | 0 <= i < b && i + 1 < |s| :: !(s[i] == '\n' && s[i + 1] == '\n')
  {
    if |s| < 2 then |s|
    else if s[0] == '\n' && s[1] == '\n' then 0
    else 1 + Boundary(s[1..])
  }

  /** The text up to the first line terminator. */
  function FirstLine(s: string): (line: string)
    ensures line <= s && Plain(line)
    ensures |line| < |s| ==> Terminator(s[|line|])
  {
    if s == [] || Terminator(s[0]) then [] else [s[0]] + FirstLine(s[1..])
  }

  /** A multi-line match of a field name at the start of a line, with a non-empty value. */
  function MatchField(s: string, name: string): (value: Option<string>)
    ensures value.Some? ==> OneLine(value.value)
    decreases |s|
  {
    var line := FirstLine(s);
    if name <= line && |name| < |line| then
      assert forall c | c in line[|name|..] :: c in line;
      Some(line[|name|..])
    else if |line| < |s| then MatchField(s[|line| + 1..], name)
    else None
  }

  lemma {:induction false} LineIs(line: string, rest: string)
    requires Plain(line)
    ensures FirstLine(line + "\n" + rest) == line && FirstLine(line) == line
    ensures (line + "\n" + rest)[|line| + 1..] == rest
  {
    if line != [] {
      assert line[0] in line;
      assert forall c | c in line[1..] :: c in line;
      LineIs(line[1..], rest);
      assert (line + "\n" + rest)[1..] == line[1..] + "\n" + rest;
    }
  }

  /** What the client makes of one raw frame: nothing when it has no event name or no data. */
  function ParseFrame(raw: string): Option<Frame> {
    var id := MatchField(raw, "id: ");
    var event := MatchField(raw, "event: ");
    var data := MatchField(raw, "data: ");
    if event.None? || data.None? then None
    else Some(Frame(ParseInt(id.GetOr("-1")).GetOr(-1), event.value, data.value))
  }

  lemma FieldHere(name: string, value: string, rest: string)
    requires Plain(name) && OneLine(value)
    ensures MatchField(name + value + "\n" + rest, name) == Some(value)
    ensures MatchField(name + value, name) == Some(value)
  {
    var line := name + value;
    LineIs(line, rest);
    assert name <= line && line[|name|..] == value;
  }

  lemma FieldSkips(line: string, rest: string, name: string)
    requires Plain(line) && !(name <= line)
    ensures MatchField(line + "\n" + rest, name) == MatchField(rest, name)
  {
    LineIs(line, rest);
  }

  lemma DifferentFields(id: string, event: string)
    ensures !("event: " <= "id: " + id) && !("data: " <= "id: " + id) && !("data: " <= "event: " + event)
  {
    assert ("id: " + id)[0] == 'i' && ("event: " + event)[0] == 'e';
    assert "event: "[0] == 'e' && "data: "[0] == 'd';
  }

  /** Each field of a raw frame is found on its own line. */
  lemma FieldsOf(id: string, event: string, data: string)
    requires OneLine(id) && OneLine(event) && OneLine(data)
    ensures var raw := "id: " + id + "\n" + ("event: " + event + "\n" + ("data: " + data));
            MatchField(raw, "id: ") == Some(id) && MatchField(raw, "event: ") == Some(event)
            && MatchField(raw, "data: ") == Some(data)
  {
    hide MatchField;
    var third := "data: " + data;
    var second := "event: " + event + "\n" + third;
    DifferentFields(id, event);
    FieldHere("id: ", id, second);
    FieldSkips("id: " + id, second, "event: ");
    FieldSkips("id: " + id, second, "data: ");
    FieldHere("event: ", event, third);
    FieldSkips("event: " + event, third, "data: ");
    FieldHere("data: ", data, "");
  }

  /**
   * A frame with a well-formed event name comes back as it was written exactly when its data has no
   * line terminator.
   */
  lemma FrameRoundTrip(f: Frame)
    requires OneLine(f.event)
    ensures ParseFrame(Raw(f)) == Some(f) <==> OneLine(f.data)
  {
    if OneLine(f.data) { FrameComesBack(f); }
  }

  lemma FrameComesBack(f: Frame)
    requires OneLine(f.event) && OneLine(f.data)
    ensures ParseFrame(Raw(f)) == Some(f)
  {
    hide MatchField, Decimal, ParseInt, OneLine;
    FieldsOf(Decimal(f.id), f.event, f.data);
    assert Raw(f) == "id: " + Decimal(f.id) + "\n" + ("event: " + f.event + "\n" + ("data: " + f.data));
    ParseDecimal(f.id);
  }

  lemma {:induction false} FirstLineJoins(name: string, data: string)
    requires Plain(name)
    ensures FirstLine(name + data) == name + FirstLine(data)
    decreases |name|
  {
    if name == [] {
      assert name + data == data;
    } else {
      assert name[0] in name;
      assert forall c | c in name[1..] :: c in name;
      FirstLineJoins(name[1..], data);
      assert (name + data)[1..] == name[1..] + data;
    }
  }

  /** A frame whose data does not begin with a line terminator comes back with its data cut at the first one. */
  lemma FrameComesBackCut(f: Frame)
    requires Writable(f)
    ensures ParseFrame(Raw(f)) == Some(Cut(f))
  {
    hide Decimal, ParseInt, OneLine, Plain;
    var id := Decimal(f.id);
    ParseDecimal(f.id);
    var third := "data: " + f.data;
    var second := "event: " + f.event + "\n" + third;
    assert Raw(f) == "id: " + id + "\n" + second;
    PlainNames();
    FirstLineJoins("data: ", f.data);
    var line := FirstLine(third);
    assert line[|"data: "|..] == FirstLine(f.data);
    assert MatchField(third, "data: ") == Some(FirstLine(f.data));
    hide MatchField, FirstLine;
    DifferentFields(id, f.event);
    FieldHere("id: ", id, second);
    FieldHere("event: ", f.event, third);
    FieldLines(id, f.event);
    FieldSkips("id: " + id, second, "event: ");
    FieldSkips("id: " + id, second, "data: ");
    FieldSkips("event: " + f.event, third, "data: ");
  }

  lemma PlainNames()
    ensures Plain("id: ") && Plain("event: ") && Plain("data: ")
  {
  }

  lemma FieldLines(id: string, event: string)
    requires OneLine(id) && OneLine(event)
    ensures Plain("id: " + id) && Plain("event: " + event)
  {
  }

  // ----- splitting a stream -----

  /** The complete raw frames of a text, and what is left over. */
  function Split(text: string): (seq<string>, string)
    decreases |text|
  {
    var b := Boundary(text);
    if b == |text| then ([], text)
    else
      var (raws, rest) := Split(text[b + 2..]);
      ([text[..b]] + raws, rest)
  }

  lemma SplitAt(text: string, b: nat)
    requires b + 1 < |text| && text[b] == '\n' && text[b + 1] == '\n'
    requires forall i | 0 <= i < b :: !(text[i] == '\n' && text[i + 1] == '\n')
    ensures Split(text).0 == [text[..b]] + Split(text[b + 2..]).0 && Split(text).1 == Split(text[b + 2..]).1
  {
  }

  lemma SplitUnfolds(text: string)
    ensures var b := Boundary(text);
            if b < |text| then
              && b + 1 < |text| && text[b] == '\n' && text[b + 1] == '\n'
              && (forall i | 0 <= i < b :: !(text[i] == '\n' && text[i + 1] == '\n'))
              && Split(text).0 == [text[..b]] + Split(text[b + 2..]).0 && Split(text).1 == Split(text[b + 2..]).1
            else Split(text) == ([], text)
  {
  }

  /** Splitting as the text arrives is splitting the whole text. */
  lemma {:induction false} SplitArrives(a: string, b: string)
    ensures Split(a + b).0 == Split(a).0 + Split(Split(a).1 + b).0
    ensures Split(a + b).1 == Split(Split(a).1 + b).1
    decreases |a|
  {
    hide Boundary, Split;
    SplitUnfolds(a);
    var at := Boundary(a);
    if at < |a| {
      var text := a + b;
      SplitAt(text, at);
      assert text[..at] == a[..at] && text[at + 2..] == a[at + 2..] + b;
      SplitArrives(a[at + 2..], b);
    }
  }

  /** A written frame holds no blank line but its own. */
  lemma RawHasNoBlank(f: Frame)
    requires Writable(f)
    ensures forall i | 0 <= i < |Raw(f)| - 1 :: !(Raw(f)[i] == '\n' && Raw(f)[i + 1] == '\n')
    ensures Raw(f) != [] && Raw(f)[|Raw(f)| - 1] != '\n'
  {
    var a, b, c := "id: " + Decimal(f.id), "event: " + f.event, "data: " + f.data;
    var raw := Raw(f);
    assert raw == a + "\n" + b + "\n" + c;
    assert '\n' !in a && '\n' !in b && '\n' !in c;
    forall i | 0 <= i < |raw| ensures raw[i] == '\n' ==> i == |a| || i == |a| + 1 + |b| {
      if i < |a| {
        assert raw[i] == a[i] && a[i] in a;
      } else if |a| < i < |a| + 1 + |b| {
        assert raw[i] == b[i - |a| - 1] && b[i - |a| - 1] in b;
      } else if |a| + 1 + |b| < i {
        assert raw[i] == c[i - |a| - |b| - 2] && c[i - |a| - |b| - 2] in c;
      }
    }
  }

  lemma SplitFrame(f: Frame, rest: string)
    requires Writable(f)
    ensures Split(Text(f) + rest).0 == [Raw(f)] + Split(rest).0
  {
    RawHasNoBlank(f);
    hide Raw, Writable, Split;
    var raw, text := Raw(f), Text(f) + rest;
    assert text == raw + "\n\n" + rest;
    FirstBlank(raw, rest);
    SplitAt(text, |raw|);
  }

  /** A blank line after text that has none, and does not end in a line break, is the first. */
  lemma FirstBlank(raw: string, rest: string)
    requires forall i | 0 <= i < |raw| - 1 :: !(raw[i] == '\n' && raw[i + 1] == '\n')
    requires raw != [] && raw[|raw| - 1] != '\n'
    ensures var text := raw + "\n\n" + rest;
            && |raw| + 1 < |text| && text[|raw|] == '\n' && text[|raw| + 1] == '\n'
            && (forall i | 0 <= i < |raw| :: !(text[i] == '\n' && text[i + 1] == '\n'))
            && text[..|raw|] == raw && text[|raw| + 2..] == rest
  {
    var text := raw + "\n\n" + rest;
    forall i | 0 <= i < |raw| ensures !(text[i] == '\n' && text[i + 1] == '\n') {
      assert text[i] == raw[i] && (i + 1 < |raw| ==> text[i + 1] == raw[i + 1]);
    }
  }

  /** A frame that is cut off anywhere completes nothing. */
  lemma SplitCut(f: Frame, n: nat)
    requires Writable(f) && n < |Text(f)|
    ensures Split(Text(f)[..n]) == ([], Text(f)[..n])
  {
    RawHasNoBlank(f);
    hide Raw, OneLine;
    var raw, cut := Raw(f), Text(f)[..n];
    forall i | 0 <= i < n - 1 ensures !(cut[i] == '\n' && cut[i + 1] == '\n') {
      if i + 1 < |raw| {
        assert cut[i] == raw[i] && cut[i + 1] == raw[i + 1];
      } else {
        assert i == |raw| - 1 && cut[i] == raw[i];
      }
    }
  }

  /** How many of the frames' texts fit whole into the first `n` characters. */
  function Whole(fs: seq<Frame>, n: nat): (k: nat)
    ensures k <= |fs|
  {
    if fs == [] || n < |Text(fs[0])| then 0 else 1 + Whole(fs[1..], n - |Text(fs[0])|)
  }

  function Parsed(raws: seq<string>): seq<Frame> {
    if raws == [] then []
    else
      var f := ParseFrame(raws[|raws| - 1]);
      Parsed(raws[..|raws| - 1]) + (if f.Some? then [f.value] else [])
  }

  lemma {:induction false} ParsedSplit(a: seq<string>, b: seq<string>)
    ensures Parsed(a + b) == Parsed(a) + Parsed(b)
  {
    if b == [] {
      assert a + b == a;
    } else {
      assert (a + b)[..|a + b| - 1] == a + b[..|b| - 1];
      ParsedSplit(a, b[..|b| - 1]);
    }
  }

  function TextOf(fs: seq<Frame>): string {
    if fs == [] then "" else Text(fs[0]) + TextOf(fs[1..])
  }

  /**
   * Of a stream cut off after `n` characters the client parses exactly the frames that arrived
   * whole, each cut at its first line terminator.
   */
  lemma {:induction false} CutStream(fs: seq<Frame>, n: nat)
    requires forall i | 0 <= i < |fs| :: Writable(fs[i])
    requires n <= |TextOf(fs)|
    ensures Parsed(Split(TextOf(fs)[..n]).0) == Cuts(fs[..Whole(fs, n)])
  {
    hide Text, Raw, Split, ParseFrame, Cut, Writable, FirstLine;
    if fs == [] {
      assert TextOf(fs)[..n] == "";
      SplitNothing();
    } else {
      var f, rest := fs[0], fs[1..];
      var length := |Text(f)|;
      if n < length {
        assert TextOf(fs)[..n] == Text(f)[..n];
        SplitCut(f, n);
        assert fs[..0] == [] && Parsed([]) == [];
      } else {
        CutStream(rest, n - length);
        var tail := TextOf(rest)[..n - length];
        assert TextOf(fs)[..n] == Text(f) + tail;
        SplitFrame(f, tail);
        FrameComesBackCut(f);
        ParsedSplit([Raw(f)], Split(tail).0);
        ParsedOne(Raw(f));
        assert fs[..Whole(fs, n)] == [f] + rest[..Whole(rest, n - length)];
        assert Cuts(fs[..Whole(fs, n)]) == [Cut(f)] + Cuts(rest[..Whole(rest, n - length)]);
      }
    }
  }

  lemma SplitNothing()
    ensures Split("") == ([], "")
  {
  }

  lemma ParsedOne(raw: string)
    ensures Parsed([raw]) == if ParseFrame(raw).Some? then [ParseFrame(raw).value] else []
  {
  }

  // ----- the client -----

  /** The text one connection carries if it is never cut: the snapshot, then every event past the client's last. */
  function Served(log: seq<string>, snapshot: string, lastEventId: Option<int>): seq<Frame> {
    var after := AfterSeq(if lastEventId.None? then None else Some(Decimal(lastEventId.value)));
    [Frame(-1, SNAPSHOT, snapshot)] + EventFrames(log, Start(after, |log|), |log|)
  }

  /**
   * What a connection has written to a client that was not ahead of the log is what it is served
   * exactly if its replay did not lag.
   */
  lemma WrittenIsServed(c: Connection, n: nat)
    requires c.Valid() && c.replayDone && n <= c.flushedAt
    requires c.afterSeq == AfterSeq(if Reached(n).None? then None else Some(Decimal(Reached(n).value)))
    ensures c.written == Served(c.log, c.written[0].data, Reached(n)) <==> c.subscribedAt <= Max(n, c.loadedAt)
  {
    hide Covered, Decimal, ParseInt;
    StartsAtReached(n, c.flushedAt);
    StartsAtReached(n, |c.log|);
    SeamlessIff(c.log, n, c.loadedAt, c.subscribedAt);
    assert c.written == [c.written[0]] + c.written[1..];
    assert Served(c.log, c.written[0].data, Reached(n))[1..] == EventFrames(c.log, n, |c.log|);
  }

  /** The session events among delivered frames. */
  function Events(fs: seq<Frame>): seq<Frame> {
    if fs == [] then []
    else Events(fs[..|fs| - 1]) + (if fs[|fs| - 1].event == SESSION_EVENT then [fs[|fs| - 1]] else [])
  }

  function LastId(before: Option<int>, fs: seq<Frame>): Option<int> {
    if fs == [] then before
    else if fs[|fs| - 1].id >= 0 then Some(fs[|fs| - 1].id)
    else LastId(before, fs[..|fs| - 1])
  }

  /** The frames whose data parses. */
  predicate AllParse(fs: seq<Frame>, parses: string -> bool) {
    fs == [] || (parses(fs[0].data) && AllParse(fs[1..], parses))
  }

  /** What the client delivers of parsed frames: those before the first whose data throws. */
  function Accepted(fs: seq<Frame>, parses: string -> bool): seq<Frame> {
    if fs != [] && parses(fs[0].data) then [fs[0]] + Accepted(fs[1..], parses) else []
  }

  lemma AcceptedFirst(fs: seq<Frame>, parses: string -> bool)
    requires fs != []
    ensures AllParse(fs, parses) <==> parses(fs[0].data) && AllParse(fs[1..], parses)
    ensures Accepted(fs, parses) == if parses(fs[0].data) then [fs[0]] + Accepted(fs[1..], parses) else []
  {
  }

  lemma {:induction false} AcceptedJoins(a: seq<Frame>, b: seq<Frame>, parses: string -> bool)
    ensures AllParse(a, parses) ==> Accepted(a, parses) == a && Accepted(a + b, parses) == a + Accepted(b, parses)
    ensures !AllParse(a, parses) ==> Accepted(a + b, parses) == Accepted(a, parses)
    ensures AllParse(a + b, parses) <==> AllParse(a, parses) && AllParse(b, parses)
    decreases |a|
  {
    if a == [] {
      assert a + b == b;
    } else {
      hide AllParse, Accepted;
      var joined, rest := a + b, a[1..];
      assert joined[0] == a[0] && joined[1..] == rest + b && a == [a[0]] + rest;
      AcceptedFirst(a, parses);
      AcceptedFirst(joined, parses);
      AcceptedJoins(rest, b, parses);
      assert [a[0]] + (rest + Accepted(b, parses)) == a + Accepted(b, parses);
    }
  }

  lemma AcceptedNothing(parses: string -> bool)
    ensures Accepted([], parses) == [] && AllParse([], parses)
  {
  }

  /** Handle one complete raw frame. Data that is no JSON text throws, and moves nothing. */
  method HandleFrame(raw: string, parses: string -> bool, lastEventId: Option<int>, delivered: seq<Frame>)
      returns (threw: bool, id: Option<int>, out: seq<Frame>)
    ensures threw <==> !AllParse(Parsed([raw]), parses)
    ensures out == delivered + Accepted(Parsed([raw]), parses)
    ensures id == LastId(lastEventId, Accepted(Parsed([raw]), parses))
  {
    hide ParseFrame;
    ParsedOne(raw);
    var frame := ParseFrame(raw);
    if frame.None? { return false, lastEventId, delivered; }
    if !parses(frame.value.data) { return true, lastEventId, delivered; }
    assert [frame.value][1..] == [] && [frame.value][..0] == [];
    return false, if frame.value.id >= 0 then Some(frame.value.id) else lastEventId, delivered + [frame.value];
  }

  lemma {:induction false} LastIdJoins(before: Option<int>, a: seq<Frame>, b: seq<Frame>)
    ensures LastId(before, a + b) == LastId(LastId(before, a), b)
  {
    if b == [] {
      assert a + b == a;
    } else {
      assert (a + b)[..|a + b| - 1] == a + b[..|b| - 1];
      LastIdJoins(before, a, b[..|b| - 1]);
    }
  }

  /** Concatenated chunks. */
  function Joined(chunks: seq<string>): string {
    if chunks == [] then "" else Joined(chunks[..|chunks| - 1]) + chunks[|chunks| - 1]
  }

  /** Take complete frames off the buffer, until one throws. */
  method DrainBuffer(buffer: string, parses: string -> bool, lastEventId: Option<int>, delivered: seq<Frame>)
    returns (threw: bool, rest: string, id: Option<int>, out: seq<Frame>)
    ensures threw <==> !AllParse(Parsed(Split(buffer).0), parses)
    ensures !threw ==> rest == Split(buffer).1
    ensures out == delivered + Accepted(Parsed(Split(buffer).0), parses)
    ensures id == LastId(lastEventId, Accepted(Parsed(Split(buffer).0), parses))
  {
    hide Split, Parsed, LastId, Accepted, AllParse;
    threw, rest, id, out := false, buffer, lastEventId, delivered;
    ghost var raws: seq<string> := [];
    assert [] + Split(buffer).0 == Split(buffer).0 && delivered + [] == delivered;
    NothingParsed(lastEventId);
    AcceptedNothing(parses);
    var boundary := Boundary(rest);
    while boundary < |rest|
      invariant boundary == Boundary(rest)
      invariant Split(buffer).0 == raws + Split(rest).0 && Split(buffer).1 == Split(rest).1
      invariant AllParse(Parsed(raws), parses)
      invariant out == delivered + Parsed(raws) && id == LastId(lastEventId, Parsed(raws))
      decreases |rest|
    {
      SplitUnfolds(rest);
      var raw := rest[..boundary];
      ghost var later := Split(rest[boundary + 2..]).0;
      assert raws + Split(rest).0 == raws + [raw] + later;
      rest := rest[boundary + 2..];
      threw, id, out := HandleFrame(raw, parses, id, out);
      OneMore(raws, raw, later, parses, lastEventId);
      if threw { return; }
      raws := raws + [raw];
      boundary := Boundary(rest);
    }
    SplitUnfolds(rest);
    assert raws + [] == raws;
    AcceptedJoins(Parsed(raws), [], parses);
  }

  /** One more raw frame after ones that all parsed. */
  lemma OneMore(raws: seq<string>, raw: string, later: seq<string>, parses: string -> bool, before: Option<int>)
    requires AllParse(Parsed(raws), parses)
    ensures var one := Parsed([raw]);
            if AllParse(one, parses) then
              && AllParse(Parsed(raws + [raw]), parses) && Parsed(raws + [raw]) == Parsed(raws) + Accepted(one, parses)
              && LastId(before, Parsed(raws + [raw])) == LastId(LastId(before, Parsed(raws)), Accepted(one, parses))
            else
              && !AllParse(Parsed(raws + [raw] + later), parses)
              && Accepted(Parsed(raws + [raw] + later), parses) == Parsed(raws) + Accepted(one, parses)
              && LastId(before, Parsed(raws) + Accepted(one, parses))
                  == LastId(LastId(before, Parsed(raws)), Accepted(one, parses))
  {
    hide Parsed, AllParse, Accepted, LastId;
    var one := Parsed([raw]);
    ParsedSplit(raws, [raw]);
    ParsedSplit(raws + [raw], later);
    AcceptedJoins(Parsed(raws), one, parses);
    AcceptedJoins(one, [], parses);
    AcceptedJoins(Parsed(raws) + one, Parsed(later), parses);
    LastIdJoins(before, Parsed(raws), Accepted(one, parses));
  }

  lemma NothingParsed(before: Option<int>)
    ensures Parsed([]) == [] && LastId(before, []) == before
  {
  }

  lemma {:induction false} JoinedFrom(chunks: seq<string>, k: nat)
    requires k <= |chunks|
    ensures Joined(chunks) == Joined(chunks[..k]) + Joined(chunks[k..])
    decreases |chunks|
  {
    if k == |chunks| {
      assert chunks[..k] == chunks && chunks[k..] == [];
    } else {
      var last := |chunks| - 1;
      JoinedFrom(chunks[..last], k);
      assert chunks[..last][..k] == chunks[..k] && chunks[..last][k..] == chunks[k..][..last - k];
    }
  }

  /** Read one connection to its end or to the frame that throws, however its text is cut into chunks. */
  method ReadConnection(chunks: seq<string>, parses: string -> bool, lastEventId: Option<int>)
      returns (id: Option<int>, delivered: seq<Frame>)
    ensures delivered == Accepted(Parsed(Split(Joined(chunks)).0), parses)
    ensures id == LastId(lastEventId, delivered)
  {
    hide Split, Parsed, LastId, Accepted, AllParse, Joined;
    var buffer := "";
    id, delivered := lastEventId, [];
    assert chunks[..0] == [];
    NothingRead(lastEventId, parses);
    for i := 0 to |chunks|
      invariant Split(Joined(chunks[..i])).1 == buffer
      invariant AllParse(Parsed(Split(Joined(chunks[..i])).0), parses)
      invariant delivered == Parsed(Split(Joined(chunks[..i])).0) && id == LastId(lastEventId, delivered)
    {
      ghost var before, raws := delivered, Split(Joined(chunks[..i])).0;
      ghost var arrived := Split(buffer + chunks[i]).0;
      NextChunk(chunks, i);
      var threw;
      threw, buffer, id, delivered := DrainBuffer(buffer + chunks[i], parses, id, delivered);
      OneMoreChunk(raws, arrived, Split(Split(Joined(chunks[..i + 1])).1 + Joined(chunks[i + 1..])).0, parses,
          lastEventId);
      if threw { return; }
    }
    assert chunks[..|chunks|] == chunks;
    AcceptedJoins(delivered, [], parses);
  }

  lemma NothingRead(before: Option<int>, parses: string -> bool)
    ensures Joined([]) == "" && Split("") == ([], "") && Parsed([]) == [] && LastId(before, []) == before
      && AllParse([], parses)
  {
  }

  /** The raw frames of one more chunk, and of all that come after it. */
  lemma NextChunk(chunks: seq<string>, i: nat)
    requires i < |chunks|
    ensures Split(Joined(chunks[..i + 1])).0 ==
          Split(Joined(chunks[..i])).0 + Split(Split(Joined(chunks[..i])).1 + chunks[i]).0
    ensures Split(Joined(chunks[..i + 1])).1 == Split(Split(Joined(chunks[..i])).1 + chunks[i]).1
    ensures Split(Joined(chunks)).0 ==
          Split(Joined(chunks[..i + 1])).0 + Split(Split(Joined(chunks[..i + 1])).1 + Joined(chunks[i + 1..])).0
  {
    hide Split;
    assert chunks[..i + 1][..i] == chunks[..i];
    SplitArrives(Joined(chunks[..i]), chunks[i]);
    JoinedFrom(chunks, i + 1);
    SplitArrives(Joined(chunks[..i + 1]), Joined(chunks[i + 1..]));
  }

  /** A batch of raw frames after ones that all parsed. */
  lemma OneMoreChunk(raws: seq<string>, arrived: seq<string>, later: seq<string>, parses: string -> bool,
      before: Option<int>)
    requires AllParse(Parsed(raws), parses)
    ensures var next := Accepted(Parsed(arrived), parses);
            && LastId(before, Parsed(raws) + next) == LastId(LastId(before, Parsed(raws)), next)
            && (if AllParse(Parsed(arrived), parses) then
                  AllParse(Parsed(raws + arrived), parses) && Parsed(raws + arrived) == Parsed(raws) + next
                else Accepted(Parsed(raws + arrived + later), parses) == Parsed(raws) + next)
  {
    hide Parsed, AllParse, Accepted, LastId;
    ParsedSplit(raws, arrived);
    ParsedSplit(raws + arrived, later);
    AcceptedJoins(Parsed(raws), Parsed(arrived), parses);
    AcceptedJoins(Parsed(arrived), [], parses);
    AcceptedJoins(Parsed(raws) + Parsed(arrived), Parsed(later), parses);
    LastIdJoins(before, Parsed(raws), Accepted(Parsed(arrived), parses));
  }

  /** The frames before the first whose data holds a line terminator. */
  function Readable(fs: seq<Frame>): (k: nat)
    ensures k <= |fs|
    ensures forall i | 0 <= i < k :: Plain(fs[i].data)
    ensures k < |fs| ==> !Plain(fs[k].data)
  {
    if fs != [] && Plain(fs[0].data) then 1 + Readable(fs[1..]) else 0
  }

  lemma PlainIsFirstLine(text: string)
    ensures FirstLine(text) == text <==> Plain(text)
    ensures FirstLine(text) == text[..|FirstLine(text)|]
  {
  }

  /**
   * Of frames that carry objects' texts, the client delivers exactly those before the first that
   * holds a line terminator.
   */
  lemma {:induction false} AcceptedReadable(fs: seq<Frame>, parses: string -> bool)
    requires forall i | 0 <= i < |fs| :: ObjectText(fs[i].data, parses)
    ensures Accepted(Cuts(fs), parses) == fs[..Readable(fs)]
  {
    hide FirstLine, ObjectText, Plain;
    if fs != [] {
      FirstDecides(fs[0], parses);
      PlainIsFirstLine(fs[0].data);
      assert Cuts(fs)[1..] == Cuts(fs[1..]);
      AcceptedReadable(fs[1..], parses);
    }
  }

  lemma FirstDecides(f: Frame, parses: string -> bool)
    requires ObjectText(f.data, parses)
    ensures parses(Cut(f).data) <==> Plain(f.data)
  {
    PlainIsFirstLine(f.data);
  }

  /** The client's position once it has the events before `n`. */
  function Reached(n: nat): Option<int> {
    if n == 0 then None else Some(n - 1)
  }

  lemma {:induction false} EventsJoin(a: seq<Frame>, b: seq<Frame>)
    ensures Events(a + b) == Events(a) + Events(b)
  {
    if b == [] {
      assert a + b == a;
    } else {
      assert (a + b)[..|a + b| - 1] == a + b[..|b| - 1];
      EventsJoin(a, b[..|b| - 1]);
    }
  }

  lemma {:induction false} EventsOfEvents(fs: seq<Frame>)
    requires forall i | 0 <= i < |fs| :: fs[i].event == SESSION_EVENT
    ensures Events(fs) == fs
  {
    if fs != [] {
      EventsOfEvents(fs[..|fs| - 1]);
    }
  }

  /** What a client takes from a connection that served these frames and was cut after `cut` characters. */
  function Taken(served: seq<Frame>, cut: nat): seq<Frame> {
    var whole := served[..Whole(served, cut)];
    whole[..Readable(whole)]
  }

  /**
   * One connection, cut anywhere, delivers the next events up to the first that holds a line
   * terminator, and moves the client's position past exactly those.
   */
  lemma ConnectionContinues(log: seq<string>, snapshot: string, n: nat, cut: nat)
    requires n <= |log| && cut <= |TextOf(Served(log, snapshot, Reached(n)))|
    ensures var got := Taken(Served(log, snapshot, Reached(n)), cut);
            var m := n + |Events(got)|;
            && m <= |log| && Events(got) == EventFrames(log, n, m)
            && LastId(Reached(n), got) == Reached(m)
            && forall i | n <= i < m :: Plain(log[i])
  {
    hide TextOf, Whole, Plain, Events, LastId, ParseInt, Decimal;
    var served := Served(log, snapshot, Reached(n));
    StartsAtReached(n, |log|);
    var got := Taken(served, cut);
    var k := |got|;
    assert got == served[..k];
    if k == 0 {
      NothingGot(Reached(n));
    } else {
      var m := n + k - 1;
      var events := EventFrames(log, n, m);
      assert got == [Frame(-1, SNAPSHOT, snapshot)] + events;
      EventsJoin([Frame(-1, SNAPSHOT, snapshot)], events);
      EventsOfEvents(events);
      SnapshotOnly(snapshot, Reached(n));
      LastIdJoins(Reached(n), [Frame(-1, SNAPSHOT, snapshot)], events);
      LastIdOfEvents(log, n, m);
      forall i | n <= i < m ensures Plain(log[i]) { assert got[i - n + 1].data == log[i]; }
    }
  }

  /** A client whose next event holds a line terminator never gets past it: every connection leaves it where it was. */
  lemma StuckAtTerminator(log: seq<string>, snapshot: string, n: nat, cut: nat)
    requires n < |log| && !Plain(log[n]) && cut <= |TextOf(Served(log, snapshot, Reached(n)))|
    ensures var got := Taken(Served(log, snapshot, Reached(n)), cut);
            Events(got) == [] && LastId(Reached(n), got) == Reached(n)
  {
    hide TextOf, Taken, Served, Plain, LastId;
    ConnectionContinues(log, snapshot, n, cut);
  }

  /**
   * A connection that is not cut delivers everything that is left exactly when neither the snapshot
   * nor any of it holds a line terminator.
   */
  lemma DeliversAllIff(log: seq<string>, snapshot: string, n: nat)
    requires n < |log|
    ensures var served := Served(log, snapshot, Reached(n));
            Events(Taken(served, |TextOf(served)|)) == EventFrames(log, n, |log|)
            <==> Plain(snapshot) && forall i | n <= i < |log| :: Plain(log[i])
  {
    hide TextOf, Whole, Plain, Events, LastId, AfterSeq, Start, Decimal, Readable;
    var served := Served(log, snapshot, Reached(n));
    StartsAtReached(n, |log|);
    WholeIsAll(served);
    assert served[..|served|] == served;
    var k := Readable(served);
    assert served[0].data == snapshot && forall i | 0 < i < |served| :: served[i].data == log[n + i - 1];
    if k == 0 {
      NothingGot(Reached(n));
    } else {
      assert served[..k] == [served[0]] + EventFrames(log, n, n + k - 1);
      EventsServed(log, snapshot, n, n + k - 1);
      if k == |served| {
        forall i | n <= i < |log| ensures Plain(log[i]) { assert Plain(served[i - n + 1].data); }
      }
    }
  }

  lemma EventsServed(log: seq<string>, snapshot: string, n: nat, m: nat)
    requires n <= m <= |log|
    ensures Events([Frame(-1, SNAPSHOT, snapshot)] + EventFrames(log, n, m)) == EventFrames(log, n, m)
  {
    hide Events, LastId;
    EventsJoin([Frame(-1, SNAPSHOT, snapshot)], EventFrames(log, n, m));
    EventsOfEvents(EventFrames(log, n, m));
    SnapshotOnly(snapshot, None);
  }

  lemma {:induction false} WholeIsAll(fs: seq<Frame>)
    ensures Whole(fs, |TextOf(fs)|) == |fs|
  {
    hide Text;
    if fs != [] {
      WholeIsAll(fs[1..]);
    }
  }

  lemma NothingGot(before: Option<int>)
    ensures Events([]) == [] && LastId(before, []) == before
  {
  }

  /** A client that has seen the events before `n` is served from `n` on. */
  lemma StartsAtReached(n: nat, length: nat)
    requires n <= length
    ensures Start(AfterSeq(if Reached(n).None? then None else Some(Decimal(Reached(n).value))), length) == n
  {
    if n > 0 { ParseDecimal(n - 1); }
  }

  lemma SnapshotOnly(snapshot: string, before: Option<int>)
    ensures Events([Frame(-1, SNAPSHOT, snapshot)]) == [] && LastId(before, [Frame(-1, SNAPSHOT, snapshot)]) == before
  {
  }

  lemma LastIdOfEvents(log: seq<string>, from: nat, to: nat)
    requires from <= to <= |log|
    ensures LastId(Reached(from), EventFrames(log, from, to)) == Reached(to)
  {
  }

  /**
   * How one connection goes: the log by the time it breaks, its snapshot, and the sizes of the
   * chunks that got through.
   */
  datatype Attempt = Attempt(log: seq<string>, snapshot: string, sizes: seq<nat>)

  function Total(sizes: seq<nat>): nat {
    if sizes == [] then 0 else Total(sizes[..|sizes| - 1]) + sizes[|sizes| - 1]
  }

  /** A text cut into consecutive chunks of the given sizes, as far as it goes. */
  function Chunks(text: string, sizes: seq<nat>): seq<string> {
    if sizes == [] then []
    else
      var init := sizes[..|sizes| - 1];
      Chunks(text, init) + [text[Min(Total(init), |text|)..Min(Total(sizes), |text|)]]
  }

  lemma {:induction false} ChunksJoin(text: string, sizes: seq<nat>)
    ensures Joined(Chunks(text, sizes)) == text[..Min(Total(sizes), |text|)]
  {
    if sizes != [] {
      var init := sizes[..|sizes| - 1];
      ChunksJoin(text, init);
      assert Chunks(text, sizes)[..|Chunks(text, sizes)| - 1] == Chunks(text, init);
    }
  }

  /** Each attempt sees the log at some later moment. */
  predicate Grows(attempts: seq<Attempt>, log: seq<string>, parses: string -> bool) {
    && (forall i | 0 <= i < |attempts| :: attempts[i].log <= log && ObjectText(attempts[i].snapshot, parses))
    && (forall i, j | 0 <= i < j < |attempts| :: attempts[i].log <= attempts[j].log)
  }

  /** Whatever the client has already, the attempt's text arrives whole, and none of it holds a line terminator. */
  ghost predicate GetsThrough(a: Attempt) {
    && (forall n: nat | n <= |a.log| :: |TextOf(Served(a.log, a.snapshot, Reached(n)))| <= Total(a.sizes))
    && Plain(a.snapshot) && forall i | 0 <= i < |a.log| :: Plain(a.log[i])
  }

  /**
   * The client over any number of connections, each broken anywhere, even inside a frame, and read
   * in chunks of any sizes. What a connection carries is what the server sends to a client at the
   * position reached so far. The delivered events are the log's from the first on, each once, in
   * order, and the position is just past them; none of them holds a line terminator. Once some
   * connection got through, they are at least its whole log.
   */
  method OpenEventStream(attempts: seq<Attempt>, ghost log: seq<string>, parses: string -> bool)
      returns (delivered: seq<Frame>, lastEventId: Option<int>)
    requires ObjectTexts(log, parses) && Grows(attempts, log, parses)
    ensures var n := |Events(delivered)|;
            && n <= |log| && Events(delivered) == EventFrames(log, 0, n) && lastEventId == Reached(n)
            && (forall i | 0 <= i < n :: Plain(log[i]))
            && forall k | 0 <= k < |attempts| && GetsThrough(attempts[k]) :: |attempts[k].log| <= n
  {
    hide Served, TextOf, Split, Parsed, Joined, Chunks, Plain, ObjectText, Accepted, GetsThrough;
    delivered, lastEventId := [], None;
    ghost var n: nat := 0;
    NothingGot(None);
    for k := 0 to |attempts|
      invariant n <= |log| && Events(delivered) == EventFrames(log, 0, n) && lastEventId == Reached(n)
      invariant forall i | 0 <= i < n :: Plain(log[i])
      invariant if k == 0 then n == 0 else n <= |attempts[k - 1].log|
      invariant forall i | 0 <= i < k && GetsThrough(attempts[i]) :: |attempts[i].log| <= n
    {
      var a := attempts[k];
      assert n <= |a.log|;
      var text := TextOf(Served(a.log, a.snapshot, lastEventId));
      var id, got := ReadConnection(Chunks(text, a.sizes), parses, lastEventId);
      AttemptContinues(a, n, got, parses);
      ghost var m := n + |Events(got)|;
      EventsJoin(delivered, got);
      PrefixFrames(a.log, log, n, m);
      delivered, lastEventId, n := delivered + got, id, m;
    }
  }

  lemma PrefixFrames(part: seq<string>, log: seq<string>, n: nat, m: nat)
    requires part <= log && n <= m <= |part|
    ensures EventFrames(log, 0, m) == EventFrames(log, 0, n) + EventFrames(part, n, m)
  {
  }

  /** What one attempt delivers, for any log, cut and chunk sizes. */
  lemma AttemptContinues(a: Attempt, n: nat, got: seq<Frame>, parses: string -> bool)
    requires ObjectTexts(a.log, parses) && ObjectText(a.snapshot, parses) && n <= |a.log|
    requires got ==
          Accepted(Parsed(Split(Joined(Chunks(TextOf(Served(a.log, a.snapshot, Reached(n))), a.sizes))).0), parses)
    ensures var m := n + |Events(got)|;
            && m <= |a.log| && Events(got) == EventFrames(a.log, n, m) && LastId(Reached(n), got) == Reached(m)
            && (forall i | n <= i < m :: Plain(a.log[i]))
            && (GetsThrough(a) ==> m == |a.log|)
  {
    hide Split, Parsed, Joined, Chunks, TextOf, Served, Plain, Whole, Writable, ObjectText, Accepted;
    var served := Served(a.log, a.snapshot, Reached(n));
    ChunksJoin(TextOf(served), a.sizes);
    var cut := Min(Total(a.sizes), |TextOf(served)|);
    ServedWritable(a.log, a.snapshot, Reached(n), parses);
    CutStream(served, cut);
    AcceptedReadable(served[..Whole(served, cut)], parses);
    ConnectionContinues(a.log, a.snapshot, n, cut);
    if GetsThrough(a) && n < |a.log| { DeliversAllIff(a.log, a.snapshot, n); }
  }

  lemma ServedWritable(log: seq<string>, snapshot: string, lastEventId: Option<int>, parses: string -> bool)
    requires ObjectTexts(log, parses) && ObjectText(snapshot, parses)
    ensures forall i | 0 <= i < |Served(log, snapshot, lastEventId)| ::
              var f := Served(log, snapshot, lastEventId)[i]; Writable(f) && ObjectText(f.data, parses)
  {
    hide OneLine, AfterSeq, Start;
    NamesPlain();
  }

  lemma NamesPlain()
    ensures OneLine(SESSION_EVENT) && OneLine(SNAPSHOT)
  {
  }
}
