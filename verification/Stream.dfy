/** A streamed answer, line by line: what router.py's _stream_events forwards, and what it bills. */
module Stream {
  import opened Common

  const TERMINAL: string := "data: [DONE]"
  const DONE_FRAME: string := "data: [DONE]\n\n"
  const ERROR_FRAME: string := "data: {\"error\": \"stream interrupted\"}\n\n"
  const ERROR_MARK: string := "\"error\""

  predicate OccursAt(s: string, part: string, i: nat) {
    i + |part| <= |s| && s[i..i + |part|] == part
  }

  predicate Contains(s: string, part: string) {
    exists i :: 0 <= i <= |s| && OccursAt(s, part, i)
  }

  lemma ContainsIff(body: string, part: string)
    ensures Contains(body, part) <==> exists i, j :: 0 <= i <= j <= |body| && body[i..j] == part
  {
    if i :| 0 <= i <= |body| && OccursAt(body, part, i) {
      assert body[i..i + |part|] == part;
    }
    if i, j :| 0 <= i <= j <= |body| && body[i..j] == part {
      assert |body[i..j]| == |part|;
      assert OccursAt(body, part, i);
    }
  }

  datatype Tokens = Tokens(prompt: int, completion: int)

  datatype Timings = Timings(cached: int, promptN: int, predictedN: int)

  /** What a data line's JSON says. `relabelled` is the object's text after its opening brace, when
      its model had to be renamed. */
  datatype Chunk = Chunk(usage: Option<Tokens>, timings: Option<Timings>, spoke: bool, relabelled: Option<string>)

  /** An upstream line, with its payload if it is a data line that parses. */
  datatype Line = Line(text: string, chunk: Option<Chunk>)

  predicate IsData(l: Line) {
    "data:" <= l.text
  }

  /** Blank, or the backend's own terminal frame. */
  predicate Skipped(l: Line) {
    l.text == "" || (IsData(l) && Contains(l.text, "[DONE]"))
  }

  /** Of the upstream's lines the blank ones go, and the data lines that say [DONE] anywhere. */
  lemma SkippedIff(l: Line)
    ensures Skipped(l) <==>
              || |l.text| == 0
              || (|l.text| >= 5 && l.text[..5] == "data:" && exists i, j :: 0 <= i <= j <= |l.text| && l.text[i..j] == "[DONE]")
  {
    ContainsIff(l.text, "[DONE]");
  }

  predicate Parsed(l: Line) {
    !Skipped(l) && IsData(l) && l.chunk.Some?
  }

  /** The line as it came, unless its model had to be renamed, and a blank line after it. */
  function Rendered(l: Line): (frame: string)
    ensures var renamed := l.chunk.Some? && l.chunk.value.relabelled.Some? && "data:" <= l.text && !Skipped(l);
            frame == (if renamed then "data: {" + l.chunk.value.relabelled.value else l.text) + "\n\n"
  {
    (if Parsed(l) && l.chunk.value.relabelled.Some? then "data: {" + l.chunk.value.relabelled.value else l.text) + "\n\n"
  }

  function Forwarded(lines: seq<Line>): seq<string> {
    if lines == [] then []
    else
      var l := lines[|lines| - 1];
      Forwarded(lines[..|lines| - 1]) + if Skipped(l) then [] else [Rendered(l)]
  }

  lemma TerminalTextIsSkipped(t: string)
    requires TERMINAL <= t
    ensures "data:" <= t && Contains(t, "[DONE]")
  {
    assert t[..12] == TERMINAL;
    assert t[..5] == TERMINAL[..5];
    assert t[6..6 + |"[DONE]"|] == TERMINAL[6..];
    assert OccursAt(t, "[DONE]", 6);
  }

  lemma TerminalBeforeNewlines(t: string)
    ensures TERMINAL <= t + "\n\n" ==> TERMINAL <= t
  {
    var f := t + "\n\n";
    assert forall i :: 0 <= i < 12 ==> TERMINAL[i] != '\n';
    if |t| < 12 {
      assert f[|t|] == '\n';
    } else {
      assert forall i :: 0 <= i < 12 ==> f[i] == t[i];
    }
  }

  /** No forwarded frame can be taken for the end of the stream. */
  lemma FramesAreNotTerminal(l: Line)
    ensures !Skipped(l) ==> !(TERMINAL <= Rendered(l))
  {
    if Parsed(l) && l.chunk.value.relabelled.Some? {
      assert Rendered(l)[6] == '{' && TERMINAL[6] == '[';
    } else {
      TerminalBeforeNewlines(l.text);
      if TERMINAL <= l.text {
        TerminalTextIsSkipped(l.text);
      }
    }
  }

  /** A frame the gateway sends: an upstream line passed on, its own error frame, or the end. */
  datatype Frame = Relayed(line: Line) | Broken | Done

  function Text(f: Frame): string {
    match f
    case Relayed(l) => Rendered(l)
    case Broken => ERROR_FRAME
    case Done => DONE_FRAME
  }

  /** chunk.startswith("data: [DONE]"), of the frames that are ever sent. */
  lemma TerminalIffDone(f: Frame)
    requires f.Relayed? ==> !Skipped(f.line)
    ensures TERMINAL <= Text(f) <==> f.Done?
  {
    match f
    case Relayed(l) => FramesAreNotTerminal(l);
    case Broken => assert ERROR_FRAME[6] == '{' && TERMINAL[6] == '[';
    case Done => assert DONE_FRAME[..12] == TERMINAL;
  }

  // ---------- Counting ----------

  datatype Meter = Meter(prompt: int, completion: int, cached: int, streamed: nat)

  function Consume(m: Meter, l: Line): Meter {
    if !Parsed(l) then m
    else
      var c := l.chunk.value;
      var m1 := if c.usage.Some? then m.(prompt := c.usage.value.prompt, completion := c.usage.value.completion) else m;
      var m2 := if c.timings.Some? then
                  m1.(cached := c.timings.value.cached,
                      prompt := c.timings.value.cached + c.timings.value.promptN,
                      completion := c.timings.value.predictedN)
                else m1;
      if c.spoke then m2.(streamed := m2.streamed + 1) else m2
  }

  function Metered(lines: seq<Line>): Meter {
    if lines == [] then Meter(0, 0, 0, 0) else Consume(Metered(lines[..|lines| - 1]), lines[|lines| - 1])
  }

  /** The counts a line reports, timings over usage. */
  function Report(l: Line): Option<Tokens> {
    if !Parsed(l) then None
    else if l.chunk.value.timings.Some? then
      var t := l.chunk.value.timings.value;
      Some(Tokens(t.cached + t.promptN, t.predictedN))
    else l.chunk.value.usage
  }

  function LastReport(lines: seq<Line>): Option<Tokens> {
    if lines == [] then None
    else
      var r := Report(lines[|lines| - 1]);
      if r.Some? then r else LastReport(lines[..|lines| - 1])
  }

  /** Content or reasoning deltas seen. */
  function Deltas(lines: seq<Line>): nat {
    if lines == [] then 0
    else
      var l := lines[|lines| - 1];
      Deltas(lines[..|lines| - 1]) + if Parsed(l) && l.chunk.value.spoke then 1 else 0
  }

  /** What the finally block bills: the meter, or the deltas where it stands at zero. */
  function Billed(m: Meter, promptEstimate: int): Tokens {
    if m.completion == 0 && m.streamed > 0 then Tokens(promptEstimate, m.streamed) else Tokens(m.prompt, m.completion)
  }

  /** What a stream is owed for: the counts the backend last reported, unless it reported no completion
      and something was said, when it is the deltas and the estimated prompt. */
  function Owed(lines: seq<Line>, promptEstimate: int): Tokens {
    var last := if LastReport(lines).Some? then LastReport(lines).value else Tokens(0, 0);
    if last.completion == 0 && Deltas(lines) > 0 then Tokens(promptEstimate, Deltas(lines)) else last
  }

  lemma {:induction false} BilledIsLastReportOrDeltas(lines: seq<Line>, promptEstimate: int)
    ensures Billed(Metered(lines), promptEstimate) == Owed(lines, promptEstimate)
    ensures Metered(lines).streamed == Deltas(lines)
    ensures Tokens(Metered(lines).prompt, Metered(lines).completion) ==
            if LastReport(lines).Some? then LastReport(lines).value else Tokens(0, 0)
  {
    if lines != [] {
      BilledIsLastReportOrDeltas(lines[..|lines| - 1], promptEstimate);
    }
  }

  datatype Reason = Complete | UpstreamError | ClientDisconnected

  /** The loop of _stream_events when nobody interrupts it: every frame it yields, and what it
      accounts for just before the last. */
  method DrainStream(lines: seq<Line>, raises: bool, promptEstimate: int)
    returns (frames: seq<string>, billed: Tokens, reason: Reason)
    ensures frames == Forwarded(lines) + (if raises then ["data: {\"error\": \"stream interrupted\"}\n\n"] else [])
                      + ["data: [DONE]\n\n"]
    ensures billed == Owed(lines, promptEstimate)
    ensures reason == if raises then UpstreamError else Complete
  {
    frames := [];
    var promptTokens, completionTokens, cached, streamedTokens := 0, 0, 0, 0;
    for i := 0 to |lines|
      invariant frames == Forwarded(lines[..i])
      invariant Metered(lines[..i]) == Meter(promptTokens, completionTokens, cached, streamedTokens)
    {
      var line := lines[i];
      assert lines[..i + 1][..i] == lines[..i];
      if line.text == "" || ("data:" <= line.text && Contains(line.text, "[DONE]")) {
        continue;
      }
      var text := line.text;
      if "data:" <= line.text && line.chunk.Some? {
        var chunk := line.chunk.value;
        if chunk.usage.Some? {
          promptTokens, completionTokens := chunk.usage.value.prompt, chunk.usage.value.completion;
        }
        if chunk.timings.Some? {
          cached := chunk.timings.value.cached;
          promptTokens := cached + chunk.timings.value.promptN;
          completionTokens := chunk.timings.value.predictedN;
        }
        if chunk.spoke {
          streamedTokens := streamedTokens + 1;
        }
        if chunk.relabelled.Some? {
          text := "data: {" + chunk.relabelled.value;
        }
      }
      frames := frames + [text + "\n\n"];
    }
    assert lines[..|lines|] == lines;
    BilledIsLastReportOrDeltas(lines, promptEstimate);
    if raises {
      frames := frames + [ERROR_FRAME];
    }
    reason := if raises then UpstreamError else Complete;
    if completionTokens == 0 && streamedTokens > 0 {
      completionTokens, promptTokens := streamedTokens, promptEstimate;
    }
    billed := Tokens(promptTokens, completionTokens);
    frames := frames + [DONE_FRAME];
  }

  /** The terminal frame is sent once, and last. */
  lemma TerminalFrameOnce(lines: seq<Line>, raises: bool)
    ensures var frames := Forwarded(lines) + (if raises then [ERROR_FRAME] else []) + [DONE_FRAME];
            forall i :: 0 <= i < |frames| ==> (TERMINAL <= frames[i] <==> i == |frames| - 1)
  {
    ForwardedNotTerminal(lines);
    assert ERROR_FRAME[6] == '{' && TERMINAL[6] == '[';
    assert TERMINAL <= DONE_FRAME by { assert DONE_FRAME[..12] == TERMINAL; }
    var frames := Forwarded(lines) + (if raises then [ERROR_FRAME] else []) + [DONE_FRAME];
    forall i | 0 <= i < |frames| - 1
      ensures !(TERMINAL <= frames[i])
    {
      assert i < |Forwarded(lines)| ==> frames[i] in Forwarded(lines);
    }
  }

  lemma {:induction false} ForwardedNotTerminal(lines: seq<Line>)
    ensures forall f :: f in Forwarded(lines) ==> !(TERMINAL <= f)
  {
    if lines != [] {
      ForwardedNotTerminal(lines[..|lines| - 1]);
      if !Skipped(lines[|lines| - 1]) {
        FramesAreNotTerminal(lines[|lines| - 1]);
      }
    }
  }
}
