/** What a streamed response delivers, bills and stores, on every run. */
module StreamContent {
  import opened Common
  import opened Stream
  import opened StreamRuns

  function Relay(lines: seq<Line>): seq<Frame> {
    if lines == [] then []
    else
      var l := lines[|lines| - 1];
      Relay(lines[..|lines| - 1]) + if Skipped(l) then [] else [Relayed(l)]
  }

  // ---------- What the upstream has done, told from where the inner generator is ----------

  predicate Facts(s: State) {
    && (s.progress.streamError ==> s.past.raised)
    && (s.progress.upstreamComplete ==> s.past.ended)
    && !(s.past.ended && s.past.raised)
    && (s.past.strayed ==> s.past.interrupted && !s.past.ended)
    && (s.past.interrupted && s.outer != Gone ==> s.past.ended || s.past.strayed)
    && (s.outer == Gone && s.inner != Over ==> s.past.interrupted)
  }

  /** The flags are right about an upstream that nothing interrupted, and it is done. */
  predicate Judged(s: State) {
    && (!s.past.interrupted ==>
          s.progress.streamError == s.past.raised && s.progress.upstreamComplete == s.past.ended)
    && (!s.past.ended && !s.past.raised ==> s.past.interrupted)
  }

  predicate Placed(s: State) {
    match s.inner
    case Closing(Ended) => s.past.ended && !s.progress.upstreamComplete && !s.past.interrupted
    case Closing(Raised) => s.past.raised && !s.progress.streamError && !s.past.interrupted
    case Closing(Torn) => !s.past.ended && !s.past.raised && s.past.interrupted
    case NotingSuccess => s.progress.upstreamComplete && !s.past.interrupted
    case NotingFailure => s.progress.streamError && !s.past.interrupted
    case AtError => s.progress.streamError && (s.outer != Gone ==> !s.past.interrupted)
    case AtDone(torn) => Judged(s) && (!s.past.interrupted ==> !torn)
    case Over => Judged(s)
    case _ => !s.past.ended && !s.past.raised && (s.outer != Gone ==> !s.past.interrupted)
  }

  /** The frames the inner generator has added of its own accord. */
  function Tail(s: State): seq<Frame> {
    match s.inner
    case AtError => [Broken]
    case AtDone(torn) => (if s.progress.streamError && !torn then [Broken] else []) + [Done]
    case _ => []
  }

  function Whole(p: Past): seq<Frame> {
    Relay(p.lines) + (if p.raised then [Broken] else []) + [Done]
  }

  predicate Told(s: State, est: int) {
    && s.progress.meter == Metered(s.past.lines)
    && (s.inner != Over ==> s.buffer.emitted == Relay(s.past.lines) + Tail(s))
    && (s.world.accounts != [] ==>
          s.world.accounts == [Account(Why(s.progress), Billed(Metered(s.past.lines), est))])
    && (!s.past.interrupted ==>
          && s.buffer.emitted == s.world.delivered + (if s.outer == Settling then [Done] else [])
          && (s.inner == Over ==> s.buffer.emitted == Whole(s.past)))
  }

  predicate Kept(s: State) {
    s.world.claim.Stored? ==>
      && (s.inner.AtDone? || s.inner == Over)
      && (s.past.ended || s.past.strayed)
      && s.world.claim.body == Join(Relay(s.past.lines) + [Done])
  }

  predicate Known(s: State, est: int) {
    Tidy(s) && Facts(s) && Placed(s) && Told(s, est) && Kept(s)
  }

  // ---------- An error frame makes a body not worth replaying ----------

  /** Join is the frames' texts one after another. */
  lemma JoinAppend(frames: seq<Frame>, f: Frame)
    ensures Join([]) == "" && Join(frames + [f]) == Join(frames) + Text(f)
  {
    assert (frames + [f])[..|frames|] == frames;
  }

  lemma OccursWithin(head: string, part: string, tail: string, mark: string, at: nat)
    requires OccursAt(part, mark, at)
    ensures Contains(head + part + tail, mark)
  {
    var all := head + part + tail;
    var i := |head| + at;
    assert all[i..i + |mark|] == part[at..at + |mark|];
    assert OccursAt(all, mark, i);
  }

  lemma ErrorFrameHasMark()
    ensures OccursAt(ERROR_FRAME, ERROR_MARK, 7)
  {
    var f, mark := ERROR_FRAME, ERROR_MARK;
    assert |mark| == 7 && |f| > 14;
    assert f[7] == mark[0] && f[8] == mark[1] && f[9] == mark[2] && f[10] == mark[3];
    assert f[11] == mark[4] && f[12] == mark[5] && f[13] == mark[6];
    var part := f[7..14];
    assert part[0] == mark[0] && part[1] == mark[1] && part[2] == mark[2] && part[3] == mark[3];
    assert part[4] == mark[4] && part[5] == mark[5] && part[6] == mark[6];
    assert part == mark;
  }

  lemma BrokenIsMarked(frames: seq<Frame>)
    requires OccursAt(Text(Broken), ERROR_MARK, 7)
    ensures !WorthReplaying(frames + [Broken] + [Done])
  {
    JoinAppend(frames, Broken);
    JoinAppend(frames + [Broken], Done);
    OccursWithin(Join(frames), Text(Broken), Text(Done), ERROR_MARK, 7);
  }

  lemma ErrorFrameMarks(frames: seq<Frame>)
    ensures !WorthReplaying(frames + [Broken] + [Done])
  {
    ErrorFrameHasMark();
    BrokenIsMarked(frames);
  }

  // ---------- Steps ----------

  lemma FinishPlaced(s: State, torn: bool, est: int)
    requires Facts(s) && Judged(s) && (!s.past.interrupted ==> !torn)
    requires s.outer == Pulling || (s.outer == Gone && s.past.interrupted)
    ensures Facts(Finish(s, torn, est)) && Placed(Finish(s, torn, est))
  {
  }

  lemma FinishIs(s: State, torn: bool, est: int)
    requires s.world.accounts == []
    ensures var t := Finish(s, torn, est);
            && t.past == s.past && t.progress == s.progress
            && t.world.claim == s.world.claim
            && t.world.accounts == [Account(Why(s.progress), Billed(s.progress.meter, est))]
            && (s.outer == Gone ==> t.outer == Gone && t.inner == Over)
            && (s.outer != Gone ==>
                  && t.inner == AtDone(torn) && t.outer != Gone
                  && t.buffer.emitted == s.buffer.emitted + [Done]
                  && t.world.delivered == s.world.delivered + if t.outer == Settling then [] else [Done])
  {
  }

  lemma ToldAtDone(s: State, t: State, torn: bool, est: int)
    requires t.inner == AtDone(torn) && t.outer != Gone && t.past == s.past && t.progress == s.progress
    requires s.progress.meter == Metered(s.past.lines)
    requires t.world.accounts == [Account(Why(s.progress), Billed(s.progress.meter, est))]
    requires s.buffer.emitted == Relay(s.past.lines) + if s.progress.streamError && !torn then [Broken] else []
    requires t.buffer.emitted == s.buffer.emitted + [Done]
    requires t.world.delivered == s.world.delivered + if t.outer == Settling then [] else [Done]
    requires !s.past.interrupted ==> s.buffer.emitted == s.world.delivered
    ensures Told(t, est)
  {
    var relay, more := Relay(s.past.lines), if s.progress.streamError && !torn then [Broken] else [];
    assert (relay + more) + [Done] == relay + (more + [Done]);
    assert t.world.delivered + [] == t.world.delivered;
    assert s.world.delivered + [] == s.world.delivered;
  }

  lemma FinishTold(s: State, torn: bool, est: int)
    requires s.world.accounts == [] && s.progress.meter == Metered(s.past.lines) && !s.world.claim.Stored?
    requires s.outer == Pulling || (s.outer == Gone && s.past.interrupted)
    requires s.outer == Pulling ==>
               s.buffer.emitted == Relay(s.past.lines) + if s.progress.streamError && !torn then [Broken] else []
    requires !s.past.interrupted ==> s.buffer.emitted == s.world.delivered
    ensures Told(Finish(s, torn, est), est) && Kept(Finish(s, torn, est))
  {
    FinishIs(s, torn, est);
    if s.outer == Pulling {
      ToldAtDone(s, Finish(s, torn, est), torn, est);
    }
  }

  lemma LineAppended(lines: seq<Line>, l: Line)
    ensures Relay(lines + [l]) == Relay(lines) + if Skipped(l) then [] else [Relayed(l)]
    ensures Metered(lines + [l]) == Consume(Metered(lines), l)
  {
    assert (lines + [l])[..|lines|] == lines;
  }

  lemma LineKnown(s: State, l: Line, est: int)
    requires Known(s, est) && Enabled(s, Arrive(l))
    ensures Known(OnLine(s, l), est)
  {
    LineGood(s, l);
    LineTold(s, l, est);
    assert !s.world.claim.Stored?;
  }

  lemma LineTold(s: State, l: Line, est: int)
    requires Told(s, est) && s.outer == Pulling && s.inner == Reading && s.world.accounts == [] && !s.past.interrupted
    ensures Told(OnLine(s, l), est)
  {
    Untold(s, est);
    LineAppended(s.past.lines, l);
    var relay, t := Relay(s.past.lines), OnLine(s, l);
    if Skipped(l) {
      assert t.buffer.emitted == relay + [] && t.world.delivered + [] == t.world.delivered;
    } else {
      assert t.buffer.emitted == relay + [Relayed(l)] && t.world.delivered == relay + [Relayed(l)];
      assert t.buffer.emitted + [] == t.buffer.emitted;
    }
  }

  /** Where the inner generator has added nothing of its own, what was emitted is what was relayed. */
  lemma Untold(s: State, est: int)
    requires Told(s, est) && Tail(s) == [] && s.inner != Over
    ensures s.buffer.emitted == Relay(s.past.lines)
    ensures !s.past.interrupted && s.outer != Settling ==> s.buffer.emitted == s.world.delivered
  {
    assert Relay(s.past.lines) + [] == Relay(s.past.lines) && s.world.delivered + [] == s.world.delivered;
  }

  lemma ReturnKnown(s: State, est: int)
    requires Known(s, est) && Enabled(s, Return)
    ensures Known(OnReturn(s, est), est)
  {
    ReturnGood(s, est);
    Untold(s, est);
    match s.inner
    case Closing(Torn) =>
      FinishPlaced(s, true, est);
      FinishTold(s, true, est);
    case NotingSuccess =>
      FinishPlaced(s, false, est);
      FinishTold(s, false, est);
    case _ =>
  }

  lemma CancelKnown(s: State, est: int)
    requires Known(s, est) && Enabled(s, Cancel)
    ensures Known(OnCancel(s, est), est)
  {
    CancelGood(s, est);
    Untold(s, est);
    if s.inner != Reading {
      var t := s.(past := s.past.(interrupted := true, strayed := s.past.strayed || !s.past.ended));
      FinishPlaced(t, true, est);
      FinishTold(t, true, est);
    }
  }

  lemma ReadKnown(s: State, est: int)
    requires Known(s, est) && Enabled(s, Read)
    ensures Known(OnRead(s, est), est)
  {
    ReadGood(s, est);
    match s.inner
    case AtError =>
      assert s.world.delivered + [] == s.world.delivered;
      FinishPlaced(s.(outer := Pulling), false, est);
      FinishTold(s.(outer := Pulling), false, est);
    case AtDone(torn) => ReadLastKnown(s, torn, est);
    case _ =>
  }

  lemma ReadLastKnown(s: State, torn: bool, est: int)
    requires Known(s, est) && s.outer == AtFrame && s.inner == AtDone(torn)
    ensures var t := Leave(s.(inner := Over, buffer := s.buffer.(clean := s.buffer.clean && !torn)));
            Facts(t) && Placed(t) && Told(t, est) && Kept(t)
  {
    var t := Leave(s.(inner := Over, buffer := s.buffer.(clean := s.buffer.clean && !torn)));
    assert t.world.claim == s.world.claim && t.buffer.emitted == s.buffer.emitted;
    assert t.world.delivered == s.world.delivered;
    if !s.past.interrupted {
      WholeAtLast(s);
    }
  }

  lemma WholeAtLast(s: State)
    requires s.inner == AtDone(false) && s.progress.streamError == s.past.raised
    ensures Relay(s.past.lines) + Tail(s) == Whole(s.past)
  {
    var relay, broken := Relay(s.past.lines), if s.past.raised then [Broken] else [];
    assert relay + (broken + [Done]) == relay + broken + [Done];
  }

  lemma WorthIsUnbroken(relay: seq<Frame>, frames: seq<Frame>, own: seq<Frame>)
    requires own == [] || own == [Broken]
    requires frames == relay + (own + [Done]) && WorthReplaying(frames)
    ensures own == [] && frames == relay + [Done]
  {
    assert relay + (own + [Done]) == relay + own + [Done];
    if own == [Broken] {
      ErrorFrameMarks(relay);
    } else {
      assert relay + own == relay;
    }
  }

  /** What the inner generator has to say before the terminal frame. */
  function Own(s: State): seq<Frame> {
    if s.progress.streamError && s.inner == AtDone(false) then [Broken] else []
  }

  lemma UnbrokenHasEnded(s: State)
    requires Facts(s) && Placed(s) && s.outer == Settling && s.inner.AtDone? && Own(s) == []
    ensures s.past.ended || s.past.strayed
  {
  }

  /** The one place where a body is stored. */
  lemma SettlingBody(s: State, est: int)
    requires Facts(s) && Placed(s) && Told(s, est) && s.outer == Settling && s.inner.AtDone?
    requires WorthReplaying(s.buffer.emitted)
    ensures s.past.ended || s.past.strayed
    ensures s.buffer.emitted == Relay(s.past.lines) + [Done]
  {
    WorthIsUnbroken(Relay(s.past.lines), s.buffer.emitted, Own(s));
    UnbrokenHasEnded(s);
  }

  lemma SettleKnown(s: State, committed: bool, est: int)
    requires Known(s, est) && s.outer == Settling
    ensures Known(OnSettled(s), est) && Known(OnSettleFailed(s, committed), est)
  {
    SettleGood(s, committed);
    if WorthReplaying(s.buffer.emitted) {
      SettlingBody(s, est);
    }
  }

  lemma StepKnown(s: State, e: Event, est: int)
    requires Known(s, est)
    ensures Known(Step(s, e, est), est)
  {
    StepGood(s, e, est);
    if Enabled(s, e) {
      match e
      case Arrive(l) => LineKnown(s, l, est);
      case Return => ReturnKnown(s, est);
      case Cancel => CancelKnown(s, est);
      case SettleReturns => SettleKnown(s, true, est);
      case SettleFails(committed) => SettleKnown(s, committed, est);
      case Read => ReadKnown(s, est);
      case HangUp => HangUpKnown(s, est);
      case Collect => CollectKnown(s, est);
      case _ =>
    }
  }

  lemma HangUpKnown(s: State, est: int)
    requires Known(s, est) && s.outer == AtFrame
    ensures Known(Leave(Thrown(s)), est)
  {
    HangUpGood(s);
  }

  lemma CollectKnown(s: State, est: int)
    requires Known(s, est) && Enabled(s, Collect)
    ensures Known(OnCollect(s, est), est)
  {
    CollectGood(s, est);
    if s.inner == AtError {
      FinishPlaced(s, true, est);
      FinishTold(s, true, est);
    }
  }

  lemma {:induction false} RunKnown(claimed: bool, events: seq<Event>, est: int)
    ensures Known(Run(claimed, events, est), est)
  {
    if events != [] {
      RunKnown(claimed, events[..|events| - 1], est);
      StepKnown(Run(claimed, events[..|events| - 1], est), events[|events| - 1], est);
    }
  }

  // ---------- What holds of every stream that has ended ----------

  /** The reason given is true: an error only if the upstream raised, complete only if it ended,
      and a disconnection only if something interrupted. */
  lemma ReasonIsTrue(claimed: bool, events: seq<Event>, est: int)
    requires Finished(Run(claimed, events, est))
    ensures var s := Run(claimed, events, est);
            |s.world.accounts| == 1
            && match s.world.accounts[0].reason
               case UpstreamError => s.past.raised
               case Complete => s.past.ended && !s.past.raised
               case ClientDisconnected => s.past.interrupted
    ensures var s := Run(claimed, events, est);
            !s.past.interrupted ==>
              s.world.accounts[0].reason == if s.past.raised then UpstreamError else Complete
  {
    RunKnown(claimed, events, est);
  }

  /** What it bills is owed for the lines that arrived. */
  lemma BillsWhatArrived(claimed: bool, events: seq<Event>, est: int)
    requires Finished(Run(claimed, events, est))
    ensures var s := Run(claimed, events, est);
            |s.world.accounts| == 1 && s.world.accounts[0].billed == Owed(s.past.lines, est)
  {
    RunKnown(claimed, events, est);
    BilledIsLastReportOrDeltas(Run(claimed, events, est).past.lines, est);
  }

  function Texts(frames: seq<Frame>): seq<string> {
    if frames == [] then [] else Texts(frames[..|frames| - 1]) + [Text(frames[|frames| - 1])]
  }

  lemma TextsAppend(frames: seq<Frame>, f: Frame)
    ensures Texts(frames + [f]) == Texts(frames) + [Text(f)]
  {
    assert (frames + [f])[..|frames|] == frames;
  }

  lemma {:induction false} RelayIsForwarded(lines: seq<Line>)
    ensures Texts(Relay(lines)) == Forwarded(lines)
  {
    if lines != [] {
      var l := lines[|lines| - 1];
      RelayIsForwarded(lines[..|lines| - 1]);
      if !Skipped(l) {
        TextsAppend(Relay(lines[..|lines| - 1]), Relayed(l));
      } else {
        assert Relay(lines) == Relay(lines[..|lines| - 1]);
      }
    }
  }

  lemma TextsOfWhole(lines: seq<Line>, own: seq<Frame>)
    requires own == [] || own == [Broken]
    ensures Texts(Relay(lines) + own + [Done]) == Forwarded(lines) + Texts(own) + [Text(Done)]
  {
    RelayIsForwarded(lines);
    TextsAppend(Relay(lines) + own, Done);
    if own == [] {
      assert Relay(lines) + own == Relay(lines);
    } else {
      TextsAppend(Relay(lines), Broken);
      TextsAppend([], Broken);
      assert [] + [Broken] == own;
    }
  }

  /** A client that reads to the end gets the frames of DrainStream: every non-empty upstream line
      but the backend's own [DONE]s, in order, an error frame exactly if the upstream raised, and
      one [DONE], last. */
  lemma DrainedContent(claimed: bool, events: seq<Event>, est: int)
    requires Finished(Run(claimed, events, est)) && !Run(claimed, events, est).past.interrupted
    ensures var s := Run(claimed, events, est);
            Texts(s.world.delivered)
            == Forwarded(s.past.lines) + (if s.past.raised then ["data: {\"error\": \"stream interrupted\"}\n\n"] else [])
               + ["data: [DONE]\n\n"]
  {
    RunKnown(claimed, events, est);
    var s := Run(claimed, events, est);
    DeliveredWhole(s, est);
    TextsOfWhole(s.past.lines, if s.past.raised then [Broken] else []);
    TextsOfOne(Broken);
  }

  lemma DeliveredWhole(s: State, est: int)
    requires Known(s, est) && s.outer == Gone && s.inner == Over && !s.past.interrupted
    ensures s.world.delivered == Relay(s.past.lines) + (if s.past.raised then [Broken] else []) + [Done]
  {
    assert s.buffer.emitted == s.world.delivered + [] == s.world.delivered;
  }

  lemma TextsOfOne(f: Frame)
    ensures Texts([f]) == [Text(f)]
  {
    TextsAppend([], f);
    assert [] + [f] == [f];
  }

  /** A stored body is every forwarded line and the terminal frame; it came from an upstream that
      ran to its end exactly when no cancellation reached the inner generator before that end. */
  lemma StoredBodyIsWholeIffNotStrayed(claimed: bool, events: seq<Event>, est: int)
    requires Run(claimed, events, est).world.claim.Stored?
    ensures var s := Run(claimed, events, est);
            && s.world.claim.body == Join(Relay(s.past.lines) + [Done])
            && (s.past.ended <==> !s.past.strayed)
  {
    RunKnown(claimed, events, est);
  }

  /** The text holds the JSON key "error" somewhere. */
  predicate MentionsError(body: string) {
    exists i, j :: 0 <= i <= j <= |body| && body[i..j] == "\"error\""
  }

  lemma EndsInSomething(frames: seq<Frame>)
    requires frames != [] && frames[|frames| - 1] == Done
    ensures Join(frames) != ""
  {
    assert Text(Done) != "";
  }

  lemma WorthReplayingIff(frames: seq<Frame>)
    requires frames != [] && frames[|frames| - 1] == Done
    ensures WorthReplaying(frames) <==> !MentionsError(Join(frames))
  {
    EndsInSomething(frames);
    ContainsIff(Join(frames), ERROR_MARK);
  }

  predicate AtItsEnd(s: State) {
    s.world.claim != NoClaim && !s.past.interrupted && (s.outer == Gone || (s.outer == AtFrame && s.inner.AtDone?))
  }

  /** A claim that nothing interrupted is settled with the terminal frame, by what has been said. */
  predicate Decided(s: State) {
    AtItsEnd(s) ==>
      && s.buffer.settled
      && s.world.claim == if MentionsError(Join(s.buffer.emitted)) then Freed else Stored(Join(s.buffer.emitted))
  }

  lemma SettledIsDecided(s: State, est: int)
    requires Known(s, est) && s.outer == Settling
    ensures Decided(OnSettled(s))
  {
    SettlingEndsInDone(s, est);
    WorthReplayingIff(s.buffer.emitted);
  }

  /** No other step brings a claimed stream to its end, or changes what it was settled by. */
  lemma OthersSettleNothing(s: State, e: Event, est: int)
    requires Tidy(s) && Facts(s) && !e.SettleReturns? && (AtItsEnd(s) ==> s.buffer.settled)
    requires AtItsEnd(Step(s, e, est))
    ensures var t := Step(s, e, est);
            && AtItsEnd(s) && t.buffer.settled == s.buffer.settled
            && t.world.claim == s.world.claim && t.buffer.emitted == s.buffer.emitted
  {
  }

  lemma OthersDecided(s: State, e: Event, est: int)
    requires Tidy(s) && Facts(s) && Decided(s) && !e.SettleReturns?
    ensures Decided(Step(s, e, est))
  {
    if AtItsEnd(Step(s, e, est)) {
      OthersSettleNothing(s, e, est);
    }
  }

  lemma StepDecided(s: State, e: Event, est: int)
    requires Known(s, est) && Decided(s)
    ensures Decided(Step(s, e, est))
  {
    if !e.SettleReturns? {
      OthersDecided(s, e, est);
    } else if Enabled(s, e) {
      SettledIsDecided(s, est);
    }
  }

  lemma {:induction false} RunDecided(claimed: bool, events: seq<Event>, est: int)
    ensures Decided(Run(claimed, events, est))
  {
    if events != [] {
      RunDecided(claimed, events[..|events| - 1], est);
      RunKnown(claimed, events[..|events| - 1], est);
      StepDecided(Run(claimed, events[..|events| - 1], est), events[|events| - 1], est);
    }
  }

  lemma BrokenMentionsError(lines: seq<Line>)
    ensures MentionsError(Join(Relay(lines) + [Broken] + [Done]))
  {
    ErrorFrameMarks(Relay(lines));
    WorthReplayingIff(Relay(lines) + [Broken] + [Done]);
  }

  /** A claimed stream that nobody interrupts is stored for replay, as the very text delivered, exactly if
      that text mentions no error, as it does wherever the upstream raised; otherwise its key is given back. */
  lemma UndisturbedIsStoredIffErrorFree(claimed: bool, events: seq<Event>, est: int)
    requires claimed && Finished(Run(claimed, events, est)) && !Run(claimed, events, est).past.interrupted
    ensures var s := Run(claimed, events, est);
            var body := Join(s.world.delivered);
            && s.world.claim == (if exists i, j :: 0 <= i <= j <= |body| && body[i..j] == "\"error\"" then Freed
                                 else Stored(body))
            && (s.past.raised ==> s.world.claim == Freed)
  {
    var s := Run(claimed, events, est);
    RunTidy(claimed, events, est);
    RunKnown(claimed, events, est);
    RunDecided(claimed, events, est);
    assert s.buffer.emitted == s.world.delivered + [] == s.world.delivered;
    if s.past.raised {
      BrokenMentionsError(s.past.lines);
    }
  }

  // ---------- Exactly when a body is stored ----------

  /** The k-th event commits a settlement of the terminal frame, of a text that mentions no error. */
  predicate SettlesWell(claimed: bool, events: seq<Event>, k: nat, est: int)
    requires k < |events|
  {
    var s := Run(claimed, events[..k], est);
    && s.outer == Settling && !MentionsError(Join(s.buffer.emitted))
    && (events[k].SettleReturns? || (events[k].SettleFails? && events[k].committed))
  }

  lemma SettlingEndsInDone(s: State, est: int)
    requires Known(s, est) && s.outer == Settling
    ensures s.buffer.emitted != [] && s.buffer.emitted[|s.buffer.emitted| - 1] == Done
  {
    var tail := Tail(s);
    assert tail != [] && tail[|tail| - 1] == Done;
  }

  lemma SettlingStores(s: State, e: Event, est: int)
    requires Tidy(s) && s.outer == Settling && (e.SettleReturns? || e.SettleFails?)
    requires s.buffer.emitted != [] && s.buffer.emitted[|s.buffer.emitted| - 1] == Done
    ensures Step(s, e, est).world.claim.Stored? <==>
            (e.SettleReturns? || e.committed) && !MentionsError(Join(s.buffer.emitted))
    ensures !s.world.claim.Stored?
  {
    WorthReplayingIff(s.buffer.emitted);
  }

  lemma NothingElseStores(s: State, e: Event, est: int)
    requires Tidy(s) && !(s.outer == Settling && (e.SettleReturns? || e.SettleFails?))
    ensures Step(s, e, est).world.claim.Stored? <==> s.world.claim.Stored?
  {
  }

  predicate SomeSettlesWell(claimed: bool, events: seq<Event>, est: int) {
    exists k :: 0 <= k < |events| && SettlesWell(claimed, events, k, est)
  }

  lemma SettlesNext(claimed: bool, events: seq<Event>, est: int)
    requires events != []
    ensures var n := |events| - 1;
            SomeSettlesWell(claimed, events, est) <==>
            SomeSettlesWell(claimed, events[..n], est) || SettlesWell(claimed, events, n, est)
  {
    var n := |events| - 1;
    forall k | 0 <= k < n
      ensures SettlesWell(claimed, events[..n], k, est) <==> SettlesWell(claimed, events, k, est)
    {
      assert events[..n][..k] == events[..k];
    }
  }

  lemma StoresNow(claimed: bool, events: seq<Event>, est: int)
    requires events != []
    ensures var n := |events| - 1;
            Run(claimed, events, est).world.claim.Stored? <==>
            Run(claimed, events[..n], est).world.claim.Stored? || SettlesWell(claimed, events, n, est)
  {
    var n := |events| - 1;
    var s := Run(claimed, events[..n], est);
    RunKnown(claimed, events[..n], est);
    if s.outer == Settling && (events[n].SettleReturns? || events[n].SettleFails?) {
      SettlingEndsInDone(s, est);
      SettlingStores(s, events[n], est);
    } else {
      NothingElseStores(s, events[n], est);
    }
  }

  /** Whatever interrupts a stream, a body is stored exactly if the settlement begun with its terminal frame
      was committed, and the text it had by then mentions no error. */
  lemma {:induction false} StoredIffSettledWell(claimed: bool, events: seq<Event>, est: int)
    ensures Run(claimed, events, est).world.claim.Stored? <==>
            exists k :: 0 <= k < |events| && SettlesWell(claimed, events, k, est)
  {
    if events != [] {
      StoredIffSettledWell(claimed, events[..|events| - 1], est);
      SettlesNext(claimed, events, est);
      StoresNow(claimed, events, est);
    }
  }

  /** A line without a quotation mark mentions no error. */
  lemma UnquotedMentionsNothing(text: string)
    ensures '\"' !in text ==> !MentionsError(text + "data: [DONE]\n\n")
  {
    var body := text + "data: [DONE]\n\n";
    if i, j :| 0 <= i <= j <= |body| && body[i..j] == "\"error\"" {
      assert body[i..j][0] == '\"' && body[i] == '\"';
      assert i < |text| ==> body[i] == text[i];
    }
  }

  lemma FirstLineJoined(l: Line)
    ensures Join([Relayed(l), Done]) == Rendered(l) + "data: [DONE]\n\n"
  {
    JoinAppend([], Relayed(l));
    JoinAppend([Relayed(l)], Done);
    assert [] + [Relayed(l)] == [Relayed(l)];
    assert [Relayed(l)] + [Done] == [Relayed(l), Done];
  }

  /** And one can, at any first line: cancelled while awaiting the next, the generator still yields its
      terminal frame, and the outer one stores what it has as a complete answer, unless that mentions an
      error. */
  lemma TruncatedBodyIsStored(l: Line, est: int) returns (events: seq<Event>)
    requires !Skipped(l)
    ensures var w := Run(true, events, est).world;
            && !Run(true, events, est).past.ended
            && |w.accounts| == 1 && w.accounts[0].reason == ClientDisconnected
            && w.claim == (if MentionsError(Rendered(l) + "data: [DONE]\n\n") then Freed
                           else Stored(Rendered(l) + "data: [DONE]\n\n"))
    ensures '\"' !in Rendered(l) ==> Run(true, events, est).world.claim.Stored?
  {
    UnquotedMentionsNothing(Rendered(l));
    events := TruncatedIsSettled(l, est);
    FirstLineJoined(l);
    WorthReplayingIff([Relayed(l), Done]);
  }

  lemma TruncatedIsSettled(l: Line, est: int) returns (events: seq<Event>)
    requires !Skipped(l)
    ensures var w := Run(true, events, est).world;
            && !Run(true, events, est).past.ended
            && |w.accounts| == 1 && w.accounts[0].reason == ClientDisconnected
            && w.claim == SettleStream(InProgress, [Relayed(l), Done], true)
  {
    events := FirstLineThenCancel(l, est);
    var s := Run(true, events, est);
    RunOneMore(true, events, Return, est);
    events := events + [Return];
    var t := Run(true, events, est);
    ReturnTornIs(s, est);
    RunOneMore(true, events, SettleReturns, est);
    events := events + [SettleReturns];
    assert t.buffer.emitted == [Relayed(l), Done];
    assert Step(t, SettleReturns, est) == OnSettled(t);
  }

  lemma ReturnTornIs(s: State, est: int)
    requires s.inner == Closing(Torn) && s.outer == Pulling && s.world.claim == InProgress
    ensures var t := Step(s, Return, est);
            && t.outer == Settling && t.inner == AtDone(true)
            && t.buffer == s.buffer.(emitted := s.buffer.emitted + [Done])
            && t.world == Charge(s.world, s.progress, est) && t.past == s.past
  {
  }

  lemma FirstLineThenCancel(l: Line, est: int) returns (events: seq<Event>)
    requires !Skipped(l)
    ensures Run(true, events, est)
         == State(Closing(Torn), Pulling, Buffer([Relayed(l)], true, false, false),
                  Progress(Consume(Meter(0, 0, 0, 0), l), false, false),
                  World(0, [], InProgress, [Relayed(l)]), Past([l], false, false, true, true))
  {
    events := [];
    RunOneMore(true, events, Start, est);
    events := events + [Start];
    RunOneMore(true, events, Arrive(l), est);
    events := events + [Arrive(l)];
    RunOneMore(true, events, Read, est);
    events := events + [Read];
    RunOneMore(true, events, Cancel, est);
    events := events + [Cancel];
  }

  lemma RunOneMore(claimed: bool, events: seq<Event>, e: Event, est: int)
    ensures Run(claimed, events + [e], est) == Step(Run(claimed, events, est), e, est)
  {
    assert (events + [e])[..|events|] == events;
  }
}
