/**
 * Copying a worker's startup log out of its server-sent event stream
 * (control-plane/src/services/startup-log-capture.ts). The stream arrives in
 * chunks of decoded text; parsing JSON and checking the fields of the result is
 * a function from text to an optional line.
 */
module StartupLog {
  import opened Options

  datatype Line = Line(ts: string, stderr: bool, content: string)

  // ---------------------------------------------------------------------
  // Frames
  // ---------------------------------------------------------------------

  /** The length of a line break `\r?\n` at i, or 0. */
  function BreakAt(s: string, i: nat): nat {
    if i < |s| && s[i] == '\n' then 1
    else if i + 1 < |s| && s[i] == '\r' && s[i + 1] == '\n' then 2
    else 0
  }

  /** The length of a blank line `\r?\n\r?\n` at i, or 0. */
  function BlankAt(s: string, i: nat): nat {
    var first := BreakAt(s, i);
    if first == 0 then 0
    else
      var second := BreakAt(s, i + first);
      if second == 0 then 0 else first + second
  }

  /** The leftmost blank line from i on, or the end of the text. */
  function FirstBlank(s: string, i: nat): (k: nat)
    requires i <= |s|
    ensures i <= k <= |s|
    ensures k < |s| ==> BlankAt(s, k) > 0
    decreases |s| - i
  {
    if i == |s| || BlankAt(s, i) > 0 then i else FirstBlank(s, i + 1)
  }

  /** There is none before it. */
  lemma {:induction false} NoneEarlier(s: string, i: nat, j: nat)
    requires i <= |s| && i <= j < FirstBlank(s, i)
    ensures BlankAt(s, j) == 0
    decreases |s| - i
  {
    if i < j {
      NoneEarlier(s, i + 1, j);
    }
  }

  /** The text cut at its blank lines: whole frames, and what follows the last of them. */
  datatype Cut = Cut(frames: seq<string>, rest: string)

  function Split(s: string): Cut
    decreases |s|
  {
    var k := FirstBlank(s, 0);
    if k == |s| then Cut([], s) else Prepend(s[..k], Split(s[k + BlankAt(s, k)..]))
  }

  /** More text neither moves nor lengthens the first blank line. */
  lemma FirstBlankStable(s: string, t: string)
    requires FirstBlank(s, 0) < |s|
    ensures FirstBlank(s + t, 0) == FirstBlank(s, 0)
    ensures BlankAt(s + t, FirstBlank(s, 0)) == BlankAt(s, FirstBlank(s, 0))
  {
    var k := FirstBlank(s, 0);
    var u := s + t;
    assert BlankAt(u, k) == BlankAt(s, k);
    forall j | 0 <= j < k ensures BlankAt(u, j) == 0 {
      NoneEarlier(s, 0, j);
    }
    if FirstBlank(u, 0) > k {
      NoneEarlier(u, 0, k);
    }
  }

  function Prepend(frame: string, c: Cut): Cut {
    Cut([frame] + c.frames, c.rest)
  }

  /** Reading on: the frames so far, then the rest with what came after. */
  function ReadOn(c: Cut, t: string): Cut {
    var second := Split(c.rest + t);
    Cut(c.frames + second.frames, second.rest)
  }

  lemma {:induction false} SplitStep(s: string, k: nat)
    requires k == FirstBlank(s, 0) < |s|
    ensures Split(s) == Prepend(s[..k], Split(s[k + BlankAt(s, k)..]))
  {}

  lemma PrependReadOn(frame: string, c: Cut, t: string)
    ensures ReadOn(Prepend(frame, c), t) == Prepend(frame, ReadOn(c, t))
  {
    assert [frame] + c.frames + Split(c.rest + t).frames == [frame] + (c.frames + Split(c.rest + t).frames);
  }

  lemma SliceAppend(s: string, t: string, k: nat, n: nat)
    requires k <= n <= |s|
    ensures (s + t)[..k] == s[..k] && (s + t)[n..] == s[n..] + t
  {}

  /** A first frame is cut off the same with more text behind. */
  lemma {:induction false} AppendStep(s: string, t: string) returns (frame: string, later: string)
    requires FirstBlank(s, 0) < |s|
    ensures |later| < |s|
    ensures Split(s) == Prepend(frame, Split(later)) && Split(s + t) == Prepend(frame, Split(later + t))
  {
    var k := FirstBlank(s, 0);
    var n := k + BlankAt(s, k);
    frame, later := s[..k], s[n..];
    SplitStep(s, k);
    FirstBlankStable(s, t);
    SliceAppend(s, t, k, n);
    SplitStep(s + t, k);
  }

  /** Cutting a longer text is cutting the shorter one and then its rest with what came after. */
  lemma {:induction false} SplitAppend(s: string, t: string)
    ensures Split(s + t) == ReadOn(Split(s), t)
    decreases |s|
  {
    if FirstBlank(s, 0) < |s| {
      var frame, later := AppendStep(s, t);
      SplitAppend(later, t);
      PrependReadOn(frame, Split(later), t);
    } else {
      assert Split(s) == Cut([], s);
    }
  }

  /** The first n chunks put together. */
  function Joined(chunks: seq<string>, n: nat): string
    requires n <= |chunks|
  {
    if n == 0 then "" else Joined(chunks, n - 1) + chunks[n - 1]
  }

  function Concat(chunks: seq<string>): string {
    Joined(chunks, |chunks|)
  }

  // ---------------------------------------------------------------------
  // One frame
  // ---------------------------------------------------------------------

  function FirstBreak(s: string, i: nat): (k: nat)
    requires i <= |s|
    ensures i <= k <= |s|
    ensures k < |s| ==> BreakAt(s, k) > 0
    decreases |s| - i
  {
    if i == |s| || BreakAt(s, i) > 0 then i else FirstBreak(s, i + 1)
  }

  function Lines(s: string): (r: seq<string>)
    ensures r != []
    decreases |s|
  {
    var k := FirstBreak(s, 0);
    if k == |s| then [s] else [s[..k]] + Lines(s[k + BreakAt(s, k)..])
  }

  /** The white space and line terminators that trimming removes. */
  predicate White(c: char) {
    || c in {' ', '\t', '\n', '\r', '\U{B}', '\U{C}', '\U{A0}', '\U{1680}'}
    || '\U{2000}' <= c <= '\U{200A}'
    || c in {'\U{2028}', '\U{2029}', '\U{202F}', '\U{205F}', '\U{3000}', '\U{FEFF}'}
  }

  function TrimStart(s: string): string {
    if s != "" && White(s[0]) then TrimStart(s[1..]) else s
  }

  function TrimEnd(s: string): string {
    if s != "" && White(s[|s| - 1]) then TrimEnd(s[..|s| - 1]) else s
  }

  /** The value of the first event field. */
  function EventOf(lines: seq<string>): Option<string> {
    if lines == [] then None
    else if "event:" <= lines[0] then Some(TrimEnd(TrimStart(lines[0][6..])))
    else EventOf(lines[1..])
  }

  /** The values of the data fields. */
  function DataOf(lines: seq<string>): seq<string> {
    if lines == [] then []
    else (if "data:" <= lines[0] then [TrimStart(lines[0][5..])] else []) + DataOf(lines[1..])
  }

  function Join(parts: seq<string>): string {
    if parts == [] then ""
    else if |parts| == 1 then parts[0]
    else parts[0] + "\n" + Join(parts[1..])
  }

  /** The log line a frame carries, if it is a log event with well-formed data. */
  function ParseFrame(frame: string, parse: string -> Option<Line>): Option<Line> {
    var lines := Lines(frame);
    var data := Join(DataOf(lines));
    if EventOf(lines) != Some("log") || data == "" then None else parse(data)
  }

  function LinesOf(frames: seq<string>, parse: string -> Option<Line>): seq<Line> {
    if frames == [] then []
    else
      var line := ParseFrame(frames[|frames| - 1], parse);
      LinesOf(frames[..|frames| - 1], parse) + if line.Some? then [line.value] else []
  }

  lemma {:induction false} LinesOfConcat(a: seq<string>, b: seq<string>, parse: string -> Option<Line>)
    ensures LinesOf(a + b, parse) == LinesOf(a, parse) + LinesOf(b, parse)
  {
    if b == [] {
      assert a + b == a;
    } else {
      LinesOfConcat(a, b[..|b| - 1], parse);
      assert (a + b)[..|a + b| - 1] == a + b[..|b| - 1];
    }
  }

  /** The log lines of a whole text: what follows the last blank line is not a frame. */
  function TextLines(text: string, parse: string -> Option<Line>): seq<Line> {
    LinesOf(Split(text).frames, parse)
  }

  /** What reading a text has stored and left in the buffer. */
  ghost predicate SoFar(
      before: seq<Line>, lines: seq<Line>, buffer: string, text: string, parse: string -> Option<Line>) {
    buffer == Split(text).rest && lines == before + TextLines(text, parse)
  }

  lemma NothingRead(before: seq<Line>, parse: string -> Option<Line>)
    ensures SoFar(before, before, "", "", parse)
  {
    EmptyText(parse);
  }

  lemma EmptyText(parse: string -> Option<Line>)
    ensures Split("") == Cut([], "") && TextLines("", parse) == []
  {}

  /** One more chunk. */
  lemma {:induction false} ChunkStep(text: string, chunk: string, parse: string -> Option<Line>)
    ensures Split(text + chunk).rest == Split(Split(text).rest + chunk).rest
    ensures TextLines(text + chunk, parse)
         == TextLines(text, parse) + LinesOf(Split(Split(text).rest + chunk).frames, parse)
  {
    SplitAppend(text, chunk);
    LinesOfConcat(Split(text).frames, Split(Split(text).rest + chunk).frames, parse);
  }

  lemma AddLines(before: seq<Line>, was: seq<Line>, more: seq<Line>)
    ensures before + was + more == before + (was + more)
  {}

  lemma {:induction false} ReadMore(
      before: seq<Line>, lines: seq<Line>, buffer: string, text: string, chunk: string, parse: string -> Option<Line>)
    requires SoFar(before, lines, buffer, text, parse)
    ensures var cut := Split(buffer + chunk);
            SoFar(before, lines + LinesOf(cut.frames, parse), cut.rest, text + chunk, parse)
  {
    ChunkStep(text, chunk, parse);
    AddLines(before, TextLines(text, parse), LinesOf(Split(buffer + chunk).frames, parse));
  }

  // ---------------------------------------------------------------------
  // The stream as it is written
  // ---------------------------------------------------------------------

  /**
   * What a log stream is made of: lines, comments that keep the connection open,
   * and the end event. The worker (runners/dev-worker/src/routes/logs.ts) writes
   * the comment "ping" and ends with "{}"; the control plane's own stream of a
   * stored log (control-plane/src/routes/model-logs.ts) writes "waiting" and ends
   * with no data.
   */
  datatype Item = Log(line: Line) | Comment(text: string) | End(data: string)

  /** Text on one line. */
  predicate Plain(s: string) {
    '\n' !in s && '\r' !in s
  }

  predicate Blank(s: string) {
    Plain(s) && forall i :: 0 <= i < |s| ==> White(s[i])
  }

  predicate Trimmed(s: string) {
    s != "" ==> !White(s[0])
  }

  /**
   * The freedom a writer has: the white space about the values, and for every
   * line of a frame whether it ends in CRLF or LF. Both writers put one space in
   * front of a value and end lines with LF.
   */
  datatype Layout = Layout(lead: string, trail: string, ahead: string, crlf: nat -> bool)

  predicate Allowed(l: Layout) {
    Blank(l.lead) && Blank(l.trail) && Blank(l.ahead)
  }

  predicate Writable(item: Item) {
    match item
    case Log(_) => true
    case Comment(text) => Plain(text)
    case End(data) => Plain(data) && Trimmed(data)
  }

  function Break(crlf: bool): string {
    if crlf then "\r\n" else "\n"
  }

  /** One data field for each line of a text. */
  function DataLines(ahead: string, pieces: seq<string>): seq<string> {
    if pieces == [] then [] else ["data:" + ahead + pieces[0]] + DataLines(ahead, pieces[1..])
  }

  function EventLine(l: Layout, event: string): string {
    "event:" + (l.lead + event + l.trail)
  }

  function FrameLines(item: Item, l: Layout, render: Line -> string): (r: seq<string>)
    ensures r != []
  {
    match item
    case Log(line) => [EventLine(l, "log")] + DataLines(l.ahead, Lines(render(line)))
    case Comment(text) => [": " + text]
    case End(data) => [EventLine(l, "end")] + DataLines(l.ahead, [data])
  }

  /** Lines put together, from the i-th line of a frame on. */
  function Laid(lines: seq<string>, crlf: nat -> bool, i: nat): string
    requires lines != []
  {
    if |lines| == 1 then lines[0] else lines[0] + Break(crlf(i)) + Laid(lines[1..], crlf, i + 1)
  }

  /** A frame and the blank line behind it. */
  function Sent(item: Item, l: Layout, render: Line -> string): string {
    var lines := FrameLines(item, l, render);
    Laid(lines, l.crlf, 0) + (Break(l.crlf(|lines| - 1)) + Break(l.crlf(|lines|)))
  }

  function Written(items: seq<Item>, layouts: seq<Layout>, render: Line -> string): string
    requires |items| == |layouts|
  {
    if items == [] then ""
    else
      var n := |items| - 1;
      Written(items[..n], layouts[..n], render) + Sent(items[n], layouts[n], render)
  }

  function Logged(items: seq<Item>): seq<Line> {
    if items == [] then []
    else
      var item := items[|items| - 1];
      Logged(items[..|items| - 1]) + if item.Log? then [item.line] else []
  }

  /**
   * What JSON text guarantees: some text without carriage returns, no line of it
   * with white space in front, and parsing undoes rendering.
   */
  ghost predicate Faithful(render: Line -> string, parse: string -> Option<Line>) {
    forall line ::
      && render(line) != "" && '\r' !in render(line)
      && (forall i :: 0 <= i < |Lines(render(line))| ==> Trimmed(Lines(render(line))[i]))
      && parse(render(line)) == Some(line)
  }

  // ---------------------------------------------------------------------
  // Reading what was written
  // ---------------------------------------------------------------------

  predicate LaidLines(lines: seq<string>) {
    lines != [] && forall i :: 0 <= i < |lines| ==> lines[i] != "" && Plain(lines[i])
  }

  lemma {:induction false} NoBreak(s: string, i: nat, k: nat)
    requires i <= k <= |s|
    requires forall j :: i <= j < k ==> s[j] != '\n' && s[j] != '\r'
    requires k < |s| ==> BreakAt(s, k) > 0
    ensures FirstBreak(s, i) == k
    decreases k - i
  {
    if i < k {
      NoBreak(s, i + 1, k);
    }
  }

  lemma BreakHere(a: string, crlf: bool, t: string)
    ensures BreakAt(a + Break(crlf) + t, |a|) == |Break(crlf)|
  {
    var s := a + Break(crlf) + t;
    assert s[|a|] == Break(crlf)[0];
    assert crlf ==> s[|a| + 1] == '\n';
  }

  lemma {:induction false} LineAlone(a: string)
    requires Plain(a)
    ensures Lines(a) == [a]
  {
    assert forall j :: 0 <= j < |a| ==> a[j] in a;
    NoBreak(a, 0, |a|);
  }

  lemma {:induction false} LineFirst(a: string, crlf: bool, t: string)
    requires Plain(a)
    ensures Lines(a + Break(crlf) + t) == [a] + Lines(t)
  {
    var s := a + Break(crlf) + t;
    forall j | 0 <= j < |a| ensures s[j] == a[j] && a[j] != '\n' && a[j] != '\r' {
      assert a[j] in a;
    }
    BreakHere(a, crlf, t);
    NoBreak(s, 0, |a|);
    assert s[..|a|] == a && s[|a| + |Break(crlf)|..] == t;
  }

  /** Cutting a frame into lines undoes putting them together, whatever the breaks. */
  lemma {:induction false} LinesLaid(lines: seq<string>, crlf: nat -> bool, i: nat)
    requires LaidLines(lines)
    ensures Lines(Laid(lines, crlf, i)) == lines
    decreases |lines|
  {
    if |lines| == 1 {
      LineAlone(lines[0]);
    } else {
      LinesLaid(lines[1..], crlf, i + 1);
      LineFirst(lines[0], crlf(i), Laid(lines[1..], crlf, i + 1));
      assert lines == [lines[0]] + lines[1..];
    }
  }

  lemma {:induction false} NoBlank(s: string, i: nat, k: nat)
    requires i <= k <= |s| && forall j :: i <= j < k ==> BlankAt(s, j) == 0
    ensures FirstBlank(s, i) == FirstBlank(s, k)
    decreases k - i
  {
    if i < k {
      NoBlank(s, i + 1, k);
    }
  }

  lemma {:induction false} BlankBehind(x: string, y: string, j: nat)
    requires j <= |y|
    ensures BlankAt(x + y, |x| + j) == BlankAt(y, j)
    ensures FirstBlank(x + y, |x| + j) == |x| + FirstBlank(y, j)
    decreases |y| - j
  {
    var s := x + y;
    assert forall n :: 0 <= n < |y| ==> s[|x| + n] == y[n];
    assert BreakAt(s, |x| + j) == BreakAt(y, j);
    if BreakAt(y, j) > 0 {
      assert BreakAt(s, |x| + j + BreakAt(y, j)) == BreakAt(y, j + BreakAt(y, j));
    }
    if j < |y| {
      BlankBehind(x, y, j + 1);
    }
  }

  /** A line that is not empty, and the break between it and another such line, hold no blank line. */
  lemma LineIsNotBlank(a: string, crlf: bool, t: string, j: nat)
    requires Plain(a) && t != "" && t[0] != '\n' && t[0] != '\r' && j < |a + Break(crlf)|
    ensures BlankAt(a + Break(crlf) + t, j) == 0
  {
    var x := a + Break(crlf);
    var s := x + t;
    assert s[|x|] == t[0];
    if j < |a| {
      assert s[j] == a[j] && a[j] in a;
    } else {
      assert s[j] == Break(crlf)[j - |a|];
      assert j + BreakAt(s, j) == |x| || BreakAt(s, j) == 0;
    }
  }

  lemma {:induction false} SkipLine(a: string, crlf: bool, t: string)
    requires Plain(a) && t != "" && t[0] != '\n' && t[0] != '\r'
    ensures FirstBlank(a + Break(crlf) + t, 0) == |a + Break(crlf)| + FirstBlank(t, 0)
  {
    var x := a + Break(crlf);
    forall j | 0 <= j < |x| ensures BlankAt(x + t, j) == 0 {
      LineIsNotBlank(a, crlf, t, j);
    }
    NoBlank(x + t, 0, |x|);
    BlankBehind(x, t, 0);
  }

  lemma {:induction false} LastLineEnds(a: string, end: string)
    requires Plain(a) && BlankAt(end, 0) > 0
    ensures FirstBlank(a + end, 0) == |a|
  {
    var s := a + end;
    forall j | 0 <= j < |a| ensures BlankAt(s, j) == 0 {
      assert s[j] == a[j] && a[j] in a;
    }
    NoBlank(s, 0, |a|);
    BlankBehind(a, end, 0);
  }

  lemma LaidStarts(lines: seq<string>, crlf: nat -> bool, i: nat)
    requires LaidLines(lines)
    ensures var f := Laid(lines, crlf, i); f != "" && f[0] != '\n' && f[0] != '\r'
  {
    assert lines[0][0] in lines[0];
  }

  /** The first blank line is the one behind the frame. */
  lemma {:induction false} FrameEnds(lines: seq<string>, crlf: nat -> bool, i: nat, end: string)
    requires LaidLines(lines) && BlankAt(end, 0) > 0
    ensures FirstBlank(Laid(lines, crlf, i) + end, 0) == |Laid(lines, crlf, i)|
    decreases |lines|
  {
    var a := lines[0];
    if |lines| == 1 {
      LastLineEnds(a, end);
    } else {
      var t := Laid(lines[1..], crlf, i + 1);
      LaidStarts(lines[1..], crlf, i + 1);
      SkipLine(a, crlf(i), t + end);
      FrameEnds(lines[1..], crlf, i + 1, end);
      assert Laid(lines, crlf, i) + end == a + Break(crlf(i)) + (t + end);
    }
  }

  lemma BlankLine(x: bool, y: bool)
    ensures BlankAt(Break(x) + Break(y), 0) == |Break(x) + Break(y)|
  {}

  lemma {:induction false} FrameAlone(lines: seq<string>, crlf: nat -> bool, x: bool, y: bool)
    requires LaidLines(lines)
    ensures Split(Laid(lines, crlf, 0) + (Break(x) + Break(y))) == Cut([Laid(lines, crlf, 0)], "")
  {
    var f, end := Laid(lines, crlf, 0), Break(x) + Break(y);
    BlankLine(x, y);
    FrameEnds(lines, crlf, 0, end);
    BlankBehind(f, end, 0);
    SplitStep(f + end, |f|);
    assert (f + end)[..|f|] == f && (f + end)[|f| + |end|..] == "";
    assert Split("") == Cut([], "");
  }

  lemma {:induction false} StartTrimmed(pad: string, v: string)
    requires Blank(pad) && Trimmed(v)
    ensures TrimStart(pad + v) == v
  {
    if pad == "" {
      assert pad + v == v;
    } else {
      assert forall i :: 0 <= i < |pad[1..]| ==> pad[1..][i] in pad;
      StartTrimmed(pad[1..], v);
      assert (pad + v)[1..] == pad[1..] + v;
    }
  }

  lemma {:induction false} EndTrimmed(v: string, pad: string)
    requires Blank(pad) && v != "" && !White(v[|v| - 1])
    ensures TrimEnd(v + pad) == v
  {
    if pad == "" {
      assert v + pad == v;
    } else {
      var n := |pad| - 1;
      assert forall i :: 0 <= i < n ==> pad[..n][i] in pad;
      EndTrimmed(v, pad[..n]);
      assert (v + pad)[..|v + pad| - 1] == v + pad[..n];
    }
  }

  lemma EventRead(l: Layout, event: string, rest: seq<string>)
    requires Allowed(l) && event != "" && !White(event[0]) && !White(event[|event| - 1])
    ensures EventOf([EventLine(l, event)] + rest) == Some(event)
    ensures DataOf([EventLine(l, event)] + rest) == DataOf(rest)
  {
    var line := EventLine(l, event);
    assert "event:" <= line && line[0] == 'e' && "data:"[0] == 'd';
    assert line[6..] == l.lead + (event + l.trail);
    StartTrimmed(l.lead, event + l.trail);
    EndTrimmed(event, l.trail);
    assert ([line] + rest)[1..] == rest;
  }

  lemma {:induction false} DataRead(ahead: string, pieces: seq<string>)
    requires Blank(ahead) && forall i :: 0 <= i < |pieces| ==> Trimmed(pieces[i])
    ensures DataOf(DataLines(ahead, pieces)) == pieces
  {
    if pieces != [] {
      var line := "data:" + ahead + pieces[0];
      assert "data:" <= line && line[5..] == ahead + pieces[0];
      StartTrimmed(ahead, pieces[0]);
      DataRead(ahead, pieces[1..]);
      assert DataLines(ahead, pieces)[1..] == DataLines(ahead, pieces[1..]);
    }
  }

  lemma {:induction false} NoneBefore(s: string, i: nat, j: nat)
    requires i <= |s| && i <= j < FirstBreak(s, i)
    ensures BreakAt(s, j) == 0
    decreases |s| - i
  {
    if i < j {
      NoneBefore(s, i + 1, j);
    }
  }

  lemma FirstLine(x: string)
    requires '\r' !in x
    ensures Plain(x[..FirstBreak(x, 0)])
    ensures FirstBreak(x, 0) < |x| ==> BreakAt(x, FirstBreak(x, 0)) == 1 && x[FirstBreak(x, 0)] == '\n'
  {
    var k := FirstBreak(x, 0);
    forall j | 0 <= j < k ensures x[j] != '\n' {
      NoneBefore(x, 0, j);
    }
  }

  lemma JoinMore(part: string, parts: seq<string>)
    requires parts != []
    ensures Join([part] + parts) == part + "\n" + Join(parts)
  {
    assert ([part] + parts)[1..] == parts;
  }

  /** A text without carriage returns is its lines joined again. */
  lemma {:induction false} JoinLines(x: string)
    requires '\r' !in x
    ensures Join(Lines(x)) == x
    ensures forall i :: 0 <= i < |Lines(x)| ==> Plain(Lines(x)[i])
    decreases |x|
  {
    var k := FirstBreak(x, 0);
    FirstLine(x);
    if k < |x| {
      var a, t := x[..k], x[k + 1..];
      JoinLines(t);
      assert x == a + Break(false) + t;
      LineFirst(a, false, t);
      JoinMore(a, Lines(t));
    } else {
      assert x[..k] == x;
      LineAlone(x);
    }
  }

  lemma {:induction false} DataIsLaid(ahead: string, pieces: seq<string>)
    requires Plain(ahead) && forall i :: 0 <= i < |pieces| ==> Plain(pieces[i])
    requires pieces != []
    ensures LaidLines(DataLines(ahead, pieces))
  {
    assert Plain("data:");
    if |pieces| > 1 {
      DataIsLaid(ahead, pieces[1..]);
    }
  }

  lemma LaidMore(line: string, lines: seq<string>)
    requires line != "" && Plain(line) && LaidLines(lines)
    ensures LaidLines([line] + lines)
  {}

  lemma EventIsPlain(l: Layout, event: string)
    requires Allowed(l) && Plain(event)
    ensures Plain(EventLine(l, event)) && EventLine(l, event) != ""
  {
    assert Plain("event:");
  }

  lemma FieldsRead(l: Layout, event: string, pieces: seq<string>)
    requires Allowed(l) && event != "" && !White(event[0]) && !White(event[|event| - 1]) && Plain(event)
    requires pieces != [] && forall i :: 0 <= i < |pieces| ==> Plain(pieces[i]) && Trimmed(pieces[i])
    ensures var lines := [EventLine(l, event)] + DataLines(l.ahead, pieces);
            LaidLines(lines) && EventOf(lines) == Some(event) && DataOf(lines) == pieces
  {
    EventRead(l, event, DataLines(l.ahead, pieces));
    DataRead(l.ahead, pieces);
    DataIsLaid(l.ahead, pieces);
    EventIsPlain(l, event);
    LaidMore(EventLine(l, event), DataLines(l.ahead, pieces));
  }

  lemma CommentRead(text: string)
    requires Plain(text)
    ensures LaidLines([": " + text]) && EventOf([": " + text]) == None
  {
    var f := ": " + text;
    assert Plain(": ");
    assert f[0] == ':' && "event:"[0] == 'e';
    assert EventOf([f][1..]) == None;
  }

  /** What reading makes of each frame that is written. */
  lemma {:induction false} FrameRead(item: Item, l: Layout, render: Line -> string, parse: string -> Option<Line>)
    requires Faithful(render, parse) && Writable(item) && Allowed(l)
    ensures LaidLines(FrameLines(item, l, render))
    ensures ParseFrame(Laid(FrameLines(item, l, render), l.crlf, 0), parse)
         == if item.Log? then Some(item.line) else None
  {
    match item {
      case Log(line) =>
        JoinLines(render(line));
        FieldsRead(l, "log", Lines(render(line)));
      case Comment(text) => CommentRead(text);
      case End(data) => FieldsRead(l, "end", [data]);
    }
    LinesLaid(FrameLines(item, l, render), l.crlf, 0);
  }

  /**
   * Whatever lines a stream carries, with comments and end events anywhere
   * between them, each laid out in any allowed way, reading the written text
   * gives exactly those lines and leaves nothing over.
   */
  lemma {:induction false} RoundTrip(
      items: seq<Item>, layouts: seq<Layout>, render: Line -> string, parse: string -> Option<Line>)
    requires Faithful(render, parse) && |items| == |layouts|
    requires forall i :: 0 <= i < |items| ==> Writable(items[i]) && Allowed(layouts[i])
    ensures TextLines(Written(items, layouts, render), parse) == Logged(items)
    ensures Split(Written(items, layouts, render)).rest == ""
  {
    if items == [] {
      EmptyText(parse);
    } else {
      var n := |items| - 1;
      var before, item, l := Written(items[..n], layouts[..n], render), items[n], layouts[n];
      var lines := FrameLines(item, l, render);
      RoundTrip(items[..n], layouts[..n], render, parse);
      FrameRead(item, l, render, parse);
      FrameAlone(lines, l.crlf, l.crlf(|lines| - 1), l.crlf(|lines|));
      ChunkStep(before, Sent(item, l, render), parse);
      assert "" + Sent(item, l, render) == Sent(item, l, render);
      assert LinesOf([Laid(lines, l.crlf, 0)], parse) == (if item.Log? then [item.line] else []) by {
        assert [Laid(lines, l.crlf, 0)][..0] == [];
      }
    }
  }

  // ---------------------------------------------------------------------
  // The stored log of one instance
  // ---------------------------------------------------------------------

  /** One connection to the worker: refused in some way, or a body in chunks. */
  datatype Attempt = NoWorker | Unreachable | Status(code: nat) | Body(chunks: seq<string>)

  /** The lines of the stream an attempt got hold of. */
  function StreamOf(a: Attempt, parse: string -> Option<Line>): Option<seq<Line>> {
    if a.Body? then Some(TextLines(Concat(a.chunks), parse)) else None
  }

  class Repository {
    var lines: seq<Line>
    var complete: bool
    /** A mark of completion of the latest capture failed after it had taken effect. */
    ghost var unsure: bool
    /** The lines at the latest mark of completion that took effect. */
    ghost var sealed: seq<Line>
    /** A call to the store has failed, or a stream has broken off. */
    ghost var faulted: bool

    /** Insert lines; a failed insertion may have taken effect. */
    method Append(batch: seq<Line>) returns (ok: bool)
      modifies this`lines, this`faulted
      ensures lines == old(lines) || lines == old(lines) + batch
      ensures ok ==> lines == old(lines) + batch
      ensures faulted == (old(faulted) || !ok)
    {
      ok := *;
      faulted := faulted || !ok;
      var stored: bool := *;
      if ok || stored {
        lines := lines + batch;
      }
    }

    /** The log lines of some frames, collected in a loop. */
    static method Collect(frames: seq<string>, parse: string -> Option<Line>) returns (batch: seq<Line>)
      ensures batch == LinesOf(frames, parse)
    {
      batch := [];
      for i := 0 to |frames|
        invariant batch == LinesOf(frames[..i], parse)
      {
        assert frames[..i + 1][..i] == frames[..i];
        var line := ParseFrame(frames[i], parse);
        if line.Some? {
          batch := batch + [line.value];
        }
      }
      assert frames[..|frames|] == frames;
    }

    /** One read: the frames completed by a chunk are parsed and stored. */
    method Feed(
        ghost before: seq<Line>, ghost text: string, buffer: string, chunk: string, parse: string -> Option<Line>)
      returns (ok: bool, rest: string)
      requires SoFar(before, lines, buffer, text, parse)
      modifies this`lines, this`faulted
      ensures ok ==> SoFar(before, lines, rest, text + chunk, parse)
      ensures faulted == (old(faulted) || !ok)
    {
      ReadMore(before, lines, buffer, text, chunk, parse);
      var cut := Split(buffer + chunk);
      rest := cut.rest;
      var batch := Collect(cut.frames, parse);
      ok := true;
      if batch != [] {
        ok := Append(batch);
      } else {
        assert lines + batch == lines;
      }
    }

    /** consume: however the text is chunked, it stores the lines of the whole text. */
    method Consume(chunks: seq<string>, parse: string -> Option<Line>) returns (ok: bool)
      modifies this`lines, this`faulted
      ensures ok ==> lines == old(lines) + TextLines(Concat(chunks), parse)
      ensures faulted == (old(faulted) || !ok)
    {
      ghost var before := lines;
      var buffer := "";
      NothingRead(before, parse);
      for i := 0 to |chunks|
        invariant SoFar(before, lines, buffer, Joined(chunks, i), parse)
        invariant faulted == old(faulted)
      {
        var received: bool := *;
        if !received {
          faulted := true;
          return false;
        }
        ok, buffer := Feed(before, Joined(chunks, i), buffer, chunks[i], parse);
        if !ok {
          return;
        }
      }
      ok := true;
    }

    /** One attempt: whatever is stored is cleared, then the stream read to its end. */
    method Try(a: Attempt, parse: string -> Option<Line>) returns (read: bool)
      modifies this`lines, this`faulted
      ensures read ==> StreamOf(a, parse) == Some(lines)
      ensures !a.Body? ==> !read && lines == old(lines)
      ensures faulted == (old(faulted) || (a.Body? && !read))
    {
      read := false;
      if a.Body? {
        var cleared: bool := *;
        var took: bool := *;
        faulted := faulted || !cleared;
        if cleared || took {
          lines := [];
        }
        if cleared {
          read := Consume(a.chunks, parse);
          assert [] + TextLines(Concat(a.chunks), parse) == TextLines(Concat(a.chunks), parse);
        }
      }
    }

    /**
     * capture: retried until one stream has been read to its end. The capture
     * completes with exactly the lines of that stream, whatever earlier attempts
     * left behind. Whenever it marks the log complete the lines are those of one
     * stream, and they stay so unless the mark failed after it had taken effect.
     */
    method Capture(attempts: seq<Attempt>, parse: string -> Option<Line>) returns (done: Option<nat>)
      modifies this
      ensures done.Some? ==> done.value < |attempts| && attempts[done.value].Body? && complete
      ensures done.Some? ==> lines == TextLines(Concat(attempts[done.value].chunks), parse)
      ensures complete && !old(complete) ==>
                && (exists i :: 0 <= i < |attempts| && StreamOf(attempts[i], parse) == Some(sealed))
                && (unsure || (done.Some? && lines == sealed))
      ensures unsure ==> complete
      ensures old(complete) ==> complete
      ensures old(faulted) ==> faulted
      ensures !faulted ==>
                forall j :: 0 <= j < |attempts| && attempts[j].Body? ==> done.Some? && done.value <= j
    {
      unsure := false;
      for i := 0 to |attempts|
        invariant old(complete) ==> complete
        invariant complete && !old(complete) ==>
                    unsure && exists j :: 0 <= j < i && StreamOf(attempts[j], parse) == Some(sealed)
        invariant unsure ==> complete
        invariant old(faulted) ==> faulted
        invariant !faulted ==> forall j :: 0 <= j < i ==> !attempts[j].Body?
      {
        var read := Try(attempts[i], parse);
        if read {
          var marked: bool := *;
          var took: bool := *;
          faulted := faulted || !marked;
          if marked || took {
            complete, sealed := true, lines;
          }
          if marked {
            return Some(i);
          }
          unsure := unsure || took;
        }
      }
      done := None;
    }
  }
}
