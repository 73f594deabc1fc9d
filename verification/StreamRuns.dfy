/** The life of a streamed response: the two nested generators of _stream_response, suspended at
    their yields and awaits, while the client reads or hangs up and any await may be cancelled. */
module StreamRuns {
  import opened Common
  import opened Stream

  /** Why _stream_events left its read loop. */
  datatype Cause = Ended | Raised | Torn

  datatype Inner =
    | Idle                       // never asked for a frame
    | Reading                    // awaiting an upstream line
    | Closing(cause: Cause)      // awaiting upstream.aclose()
    | NotingSuccess              // awaiting the breaker
    | NotingFailure
    | AtLine                     // suspended at a yield
    | AtError
    | AtDone(torn: bool)         // the yield in finally, perhaps with an exception in flight
    | Over

  datatype Outer =
    | Unstarted
    | Pulling                    // the inner generator is running
    | Settling                   // awaiting _settle_stream
    | AtFrame                    // suspended at its yield
    | Gone                       // its finally block has run
    | Discarded                  // closed before it was ever started: none of it ran

  datatype Claim = NoClaim | InProgress | Stored(body: string) | Freed

  datatype Account = Account(reason: Reason, billed: Tokens)

  /** The outer generator's variables, the inner generator's, what they do to the world, and what
      has happened to them. */
  datatype Buffer = Buffer(emitted: seq<Frame>, clean: bool, settled: bool, released: bool)
  datatype Progress = Progress(meter: Meter, streamError: bool, upstreamComplete: bool)
  datatype World = World(releases: nat, accounts: seq<Account>, claim: Claim, delivered: seq<Frame>)
  datatype Past = Past(
    lines: seq<Line>,
    ended: bool,
    raised: bool,
    interrupted: bool,           // cancelled, hung up on, or its settle failed
    strayed: bool)               // cancelled before the upstream had ended

  datatype State = State(inner: Inner, outer: Outer, buffer: Buffer, progress: Progress, world: World, past: Past)

  datatype Event =
    | Start | Discard
    | Arrive(line: Line) | End | Raise       // upstream
    | Return                                 // the inner generator's other awaits come back
    | Cancel                                 // cancellation inside one of the inner generator's awaits
    | SettleReturns
    | SettleFails(committed: bool)           // cancelled or failed, perhaps after its commit
    | Read                                   // the client takes the frame and asks for the next
    | HangUp                                 // the outer generator is closed at its yield
    | Collect                                // the abandoned inner generator is closed

  function Initial(claimed: bool): State {
    State(Idle, Unstarted, Buffer([], true, false, false), Progress(Meter(0, 0, 0, 0), false, false),
          World(0, [], if claimed then InProgress else NoClaim, []), Past([], false, false, false, false))
  }

  predicate Awaiting(i: Inner) {
    i.Closing? || i == NotingSuccess || i == NotingFailure
  }

  predicate Enabled(s: State, e: Event) {
    match e
    case Start => s.outer == Unstarted
    case Discard => s.outer == Unstarted
    case Arrive(_) => s.outer == Pulling && s.inner == Reading
    case End => s.outer == Pulling && s.inner == Reading
    case Raise => s.outer == Pulling && s.inner == Reading
    case Return => Awaiting(s.inner)
    case Cancel => s.inner == Reading || Awaiting(s.inner)
    case SettleReturns => s.outer == Settling
    case SettleFails(_) => s.outer == Settling
    case Read => s.outer == AtFrame
    case HangUp => s.outer == AtFrame
    case Collect => s.outer == Gone && (s.inner == AtLine || s.inner == AtError || s.inner.AtDone?)
  }

  function Join(frames: seq<Frame>): string {
    if frames == [] then "" else Join(frames[..|frames| - 1]) + Text(frames[|frames| - 1])
  }

  predicate WorthReplaying(frames: seq<Frame>) {
    Join(frames) != "" && !Contains(Join(frames), ERROR_MARK)
  }

  /** _settle_stream: complete, or release, which frees only a claim still in progress. */
  function SettleStream(c: Claim, frames: seq<Frame>, clean: bool): Claim {
    if clean && WorthReplaying(frames) then (if c == NoClaim || c == Freed then c else Stored(Join(frames)))
    else if c == InProgress then Freed
    else c
  }

  function ReleaseSlot(w: World): World {
    w.(releases := w.releases + 1)
  }

  /** The outer generator's finally block; the detached settle runs to its end. */
  function Leave(s: State): State {
    var w := if s.buffer.released then s.world else ReleaseSlot(s.world);
    s.(outer := Gone,
       world := if w.claim == NoClaim || s.buffer.settled then w
                else w.(claim := SettleStream(w.claim, s.buffer.emitted, s.buffer.clean)))
  }

  function Emit(b: Buffer, f: Frame): Buffer {
    b.(emitted := b.emitted + [f])
  }

  function HandOver(w: World, f: Frame): World {
    w.(delivered := w.delivered + [f])
  }

  /** The outer generator takes a frame from the inner one, now suspended at `at`. By
      TerminalIffDone, testing the frame's text for the end is testing for this constructor. */
  function Deliver(s: State, at: Inner, f: Frame): State {
    if !f.Done? then s.(inner := at, outer := AtFrame, buffer := Emit(s.buffer, f), world := HandOver(s.world, f))
    else if s.world.claim != NoClaim then s.(inner := at, outer := Settling, buffer := Emit(s.buffer, f))
    else
      s.(inner := at, outer := AtFrame, buffer := Emit(s.buffer, f).(released := true),
         world := HandOver(ReleaseSlot(s.world), f))
  }

  function Why(p: Progress): Reason {
    if p.streamError then UpstreamError else if p.upstreamComplete then Complete else ClientDisconnected
  }

  function Charge(w: World, p: Progress, est: int): World {
    w.(accounts := w.accounts + [Account(Why(p), Billed(p.meter, est))])
  }

  /** The inner generator's finally block: account, then the terminal frame, which a generator
      that is being closed may not yield. */
  function Finish(s: State, torn: bool, est: int): State {
    var t := s.(world := Charge(s.world, s.progress, est));
    if s.outer == Gone then t.(inner := Over) else Deliver(t, AtDone(torn), Done)
  }

  function OnLine(s: State, l: Line): State {
    var t := s.(past := s.past.(lines := s.past.lines + [l]));
    if Skipped(l) then t
    else Deliver(t.(progress := s.progress.(meter := Consume(s.progress.meter, l))), AtLine, Relayed(l))
  }

  function OnReturn(s: State, est: int): State {
    match s.inner
    case Closing(Ended) => s.(progress := s.progress.(upstreamComplete := true), inner := NotingSuccess)
    case Closing(Raised) => s.(progress := s.progress.(streamError := true), inner := NotingFailure)
    case Closing(Torn) => Finish(s, true, est)
    case NotingSuccess => Finish(s, false, est)
    case _ => Deliver(s, AtError, Broken)
  }

  function OnCancel(s: State, est: int): State {
    var t := s.(past := s.past.(interrupted := true, strayed := s.past.strayed || !s.past.ended));
    if s.inner == Reading then t.(inner := Closing(Torn)) else Finish(t, true, est)
  }

  function OnSettled(s: State): State {
    s.(outer := AtFrame, buffer := s.buffer.(settled := true, released := true),
       world := HandOver(ReleaseSlot(s.world), Done).(claim := SettleStream(s.world.claim, s.buffer.emitted, true)))
  }

  /** An exception thrown into the outer generator where it is suspended. */
  function Thrown(s: State): State {
    s.(buffer := s.buffer.(clean := false), past := s.past.(interrupted := true))
  }

  function OnSettleFailed(s: State, committed: bool): State {
    var claim := if committed then SettleStream(s.world.claim, s.buffer.emitted, true) else s.world.claim;
    Leave(Thrown(s).(world := s.world.(claim := claim)))
  }

  function OnRead(s: State, est: int): State {
    match s.inner
    case AtLine => s.(outer := Pulling, inner := Reading)
    case AtError => Finish(s.(outer := Pulling), false, est)
    case AtDone(torn) => Leave(s.(inner := Over, buffer := s.buffer.(clean := s.buffer.clean && !torn)))
    case _ => s
  }

  function OnCollect(s: State, est: int): State {
    match s.inner
    case AtLine => s.(inner := Closing(Torn))
    case AtError => Finish(s, true, est)
    case _ => s.(inner := Over)
  }

  function Step(s: State, e: Event, est: int): State {
    if !Enabled(s, e) then s
    else
      match e
      case Start => s.(outer := Pulling, inner := Reading)
      case Discard => s.(outer := Discarded)
      case Arrive(l) => OnLine(s, l)
      case End => s.(past := s.past.(ended := true), inner := Closing(Ended))
      case Raise => s.(past := s.past.(raised := true), inner := Closing(Raised))
      case Return => OnReturn(s, est)
      case Cancel => OnCancel(s, est)
      case SettleReturns => OnSettled(s)
      case SettleFails(committed) => OnSettleFailed(s, committed)
      case Read => OnRead(s, est)
      case HangUp => Leave(Thrown(s))
      case Collect => OnCollect(s, est)
  }

  function Run(claimed: bool, events: seq<Event>, est: int): State {
    if events == [] then Initial(claimed)
    else Step(Run(claimed, events[..|events| - 1], est), events[|events| - 1], est)
  }

  predicate Finished(s: State) {
    s.outer == Gone && s.inner == Over
  }

  // ---------- Exactly once ----------

  /** Which suspensions go together. */
  predicate Coupled(i: Inner, o: Outer) {
    match o
    case Unstarted => i == Idle
    case Discarded => i == Idle
    case Pulling => i == Reading || Awaiting(i)
    case Settling => i.AtDone?
    case AtFrame => i == AtLine || i == AtError || i.AtDone?
    case Gone => i == AtLine || i == AtError || i.AtDone? || i == Over || i == Closing(Torn)
  }

  predicate Untouched(b: Buffer, w: World) {
    w.releases == 0 && !b.released && !b.settled && b.clean && (w.claim == InProgress || w.claim == NoClaim)
  }

  predicate Handed(b: Buffer, w: World) {
    w.releases == 1 && b.released && b.clean && if b.settled then w.claim.Stored? || w.claim == Freed else w.claim == NoClaim
  }

  predicate Tidy(s: State) {
    && Coupled(s.inner, s.outer)
    && |s.world.accounts| == (if s.inner.AtDone? || s.inner == Over then 1 else 0)
    && match s.outer
       case Settling => Untouched(s.buffer, s.world) && s.world.claim == InProgress
       case AtFrame => if s.inner.AtDone? then Handed(s.buffer, s.world) else Untouched(s.buffer, s.world)
       case Gone => s.world.releases == 1 && s.world.claim != InProgress
       case _ => Untouched(s.buffer, s.world)
  }

  /** What no step undoes. */
  predicate Onward(w: World, w': World) {
    && w.releases <= w'.releases && w.accounts <= w'.accounts
    && (w'.claim == NoClaim <==> w.claim == NoClaim)
    && (w.claim != InProgress ==> w'.claim == w.claim)
  }

  predicate Good(s: State, t: State) {
    Tidy(t) && Onward(s.world, t.world)
  }

  lemma DeliverGood(s: State, at: Inner, f: Frame)
    requires s.outer == Pulling && Untouched(s.buffer, s.world)
    requires at == AtLine || at == AtError || at.AtDone?
    requires at.AtDone? <==> f.Done?
    requires |s.world.accounts| == if at.AtDone? then 1 else 0
    ensures Good(s, Deliver(s, at, f))
  {
  }

  lemma FinishGood(s: State, torn: bool, est: int)
    requires s.world.accounts == []
    requires (s.outer == Pulling && Untouched(s.buffer, s.world))
          || (s.outer == Gone && s.world.releases == 1 && s.world.claim != InProgress)
    ensures Good(s, Finish(s, torn, est))
  {
  }

  lemma LeaveGood(s: State)
    requires s.inner == AtLine || s.inner == AtError || s.inner.AtDone? || s.inner == Over
    requires |s.world.accounts| == (if s.inner.AtDone? || s.inner == Over then 1 else 0)
    requires s.world.releases == (if s.buffer.released then 1 else 0)
    requires s.buffer.settled ==> s.world.claim.Stored? || s.world.claim == Freed
    requires s.buffer.settled || !s.buffer.clean || s.world.claim == InProgress || s.world.claim == NoClaim
    ensures Good(s, Leave(s))
  {
  }

  lemma LineGood(s: State, l: Line)
    requires Tidy(s) && Enabled(s, Arrive(l))
    ensures Good(s, OnLine(s, l))
  {
    if !Skipped(l) {
      var t := s.(past := s.past.(lines := s.past.lines + [l]));
      DeliverGood(t.(progress := s.progress.(meter := Consume(s.progress.meter, l))), AtLine, Relayed(l));
    }
  }

  lemma ReturnGood(s: State, est: int)
    requires Tidy(s) && Enabled(s, Return)
    ensures Good(s, OnReturn(s, est))
  {
    match s.inner
    case Closing(Torn) => FinishGood(s, true, est);
    case NotingSuccess => FinishGood(s, false, est);
    case NotingFailure => DeliverGood(s, AtError, Broken);
    case _ =>
  }

  lemma CancelGood(s: State, est: int)
    requires Tidy(s) && Enabled(s, Cancel)
    ensures Good(s, OnCancel(s, est))
  {
    if s.inner != Reading {
      FinishGood(s.(past := s.past.(interrupted := true, strayed := s.past.strayed || !s.past.ended)), true, est);
    }
  }

  lemma ReadGood(s: State, est: int)
    requires Tidy(s) && Enabled(s, Read)
    ensures Good(s, OnRead(s, est))
  {
    match s.inner
    case AtError => FinishGood(s.(outer := Pulling), false, est);
    case AtDone(torn) => LeaveGood(s.(inner := Over, buffer := s.buffer.(clean := s.buffer.clean && !torn)));
    case _ =>
  }

  lemma CollectGood(s: State, est: int)
    requires Tidy(s) && Enabled(s, Collect)
    ensures Good(s, OnCollect(s, est))
  {
    if s.inner == AtError {
      FinishGood(s, true, est);
    }
  }

  lemma SettleGood(s: State, committed: bool)
    requires Tidy(s) && s.outer == Settling
    ensures Good(s, OnSettled(s)) && Good(s, OnSettleFailed(s, committed))
  {
  }

  lemma HangUpGood(s: State)
    requires Tidy(s) && s.outer == AtFrame
    ensures Good(s, Leave(Thrown(s)))
  {
    LeaveGood(Thrown(s));
  }

  lemma StepGood(s: State, e: Event, est: int)
    requires Tidy(s)
    ensures Good(s, Step(s, e, est))
  {
    if Enabled(s, e) {
      match e
      case SettleReturns => SettleGood(s, true);
      case SettleFails(committed) => SettleGood(s, committed);
      case HangUp => HangUpGood(s);
      case Arrive(l) => LineGood(s, l);
      case Return => ReturnGood(s, est);
      case Cancel => CancelGood(s, est);
      case Read => ReadGood(s, est);
      case Collect => CollectGood(s, est);
      case _ =>
    }
  }

  lemma {:induction false} RunTidy(claimed: bool, events: seq<Event>, est: int)
    ensures Tidy(Run(claimed, events, est))
    ensures (Run(claimed, events, est).world.claim == NoClaim) == !claimed
  {
    if events != [] {
      RunTidy(claimed, events[..|events| - 1], est);
      StepGood(Run(claimed, events[..|events| - 1], est), events[|events| - 1], est);
    }
  }

  /** However a started stream ends, its slot has been released once, it has been accounted for
      once, under one reason, and its claim has been stored or freed. */
  lemma FinishedStreamsAreSettledOnce(claimed: bool, events: seq<Event>, est: int)
    requires Finished(Run(claimed, events, est))
    ensures var w := Run(claimed, events, est).world;
            w.releases == 1 && |w.accounts| == 1 && (claimed ==> w.claim.Stored? || w.claim == Freed)
  {
    RunTidy(claimed, events, est);
  }

  /** ... and at no point more than once: what has been settled is never settled again. */
  lemma NothingTwice(claimed: bool, events: seq<Event>, e: Event, est: int)
    ensures var w, w' := Run(claimed, events, est).world, Run(claimed, events + [e], est).world;
            && w'.releases <= 1 && |w'.accounts| <= 1 && w.accounts <= w'.accounts
            && (w.claim.Stored? || w.claim == Freed ==> w'.claim == w.claim)
  {
    assert (events + [e])[..|events|] == events;
    RunTidy(claimed, events, est);
    RunTidy(claimed, events + [e], est);
    StepGood(Run(claimed, events, est), e, est);
  }

  // ---------- Every stream can be finished ----------

  /** What comes next when nobody interferes: the upstream ends, awaits come back, the client reads on,
      and what it abandoned is collected. */
  function Undisturbed(s: State): Event {
    match s.outer
    case Unstarted => Start
    case Discarded => Discard
    case Pulling => if s.inner == Reading then End else Return
    case Settling => SettleReturns
    case AtFrame => Read
    case Gone => if s.inner.Closing? then Return else Collect
  }

  /** How many such steps are left, at most. */
  function StepsLeft(s: State): nat {
    match s.outer
    case Unstarted => 13
    case Discarded => 0
    case Pulling => (
      match s.inner
      case Reading => 11
      case Closing(Raised) => 11
      case NotingSuccess => 9
      case Closing(Torn) => 9
      case _ => 10)
    case Settling => 8
    case AtFrame => (
      match s.inner
      case AtLine => 12
      case AtError => 9
      case _ => 7)
    case Gone => if s.inner == Over then 0 else if s.inner.Closing? then 2 else 3
  }

  lemma UndisturbedAdvances(s: State, est: int)
    requires Tidy(s) && !Finished(s) && s.outer != Discarded
    ensures Enabled(s, Undisturbed(s))
    ensures var t := Step(s, Undisturbed(s), est); t.outer != Discarded && StepsLeft(t) < StepsLeft(s)
  {
  }

  predicate Disturbance(e: Event) {
    e.Cancel? || e.HangUp? || e.Raise? || e.SettleFails? || e.Discard?
  }

  /** From wherever a stream has got to, unless it was discarded unstarted, it ends once it is left alone:
      released, accounted for and settled, by FinishedStreamsAreSettledOnce. */
  lemma {:induction false} LeftAloneItEnds(claimed: bool, events: seq<Event>, est: int) returns (more: seq<Event>)
    requires Run(claimed, events, est).outer != Discarded
    ensures Finished(Run(claimed, events + more, est))
    ensures |more| <= StepsLeft(Run(claimed, events, est)) && forall e :: e in more ==> !Disturbance(e)
    decreases StepsLeft(Run(claimed, events, est))
  {
    more := [];
    if Finished(Run(claimed, events, est)) {
      assert events + more == events;
    } else {
      var e := UndisturbedStep(claimed, events, est);
      var rest := LeftAloneItEnds(claimed, events + [e], est);
      more := [e] + rest;
      assert events + more == events + [e] + rest;
    }
  }

  lemma UndisturbedStep(claimed: bool, events: seq<Event>, est: int) returns (e: Event)
    requires Run(claimed, events, est).outer != Discarded && !Finished(Run(claimed, events, est))
    ensures !Disturbance(e)
    ensures var t := Run(claimed, events + [e], est);
            t.outer != Discarded && StepsLeft(t) < StepsLeft(Run(claimed, events, est))
  {
    var s := Run(claimed, events, est);
    RunTidy(claimed, events, est);
    UndisturbedAdvances(s, est);
    e := Undisturbed(s);
    assert (events + [e])[..|events|] == events;
  }

  lemma DiscardedStays(s: State, e: Event, est: int)
    requires s.outer == Discarded && s.inner == Idle
    ensures Step(s, e, est) == s
  {
  }

  /** A response that is discarded before its first frame keeps its slot and its claim for good. */
  lemma {:induction false} NeverStartedKeepsEverything(claimed: bool, events: seq<Event>, est: int)
    requires events != [] && events[0] == Discard
    ensures Run(claimed, events, est) == Initial(claimed).(outer := Discarded)
  {
    var before := events[..|events| - 1];
    if before != [] {
      NeverStartedKeepsEverything(claimed, before, est);
      DiscardedStays(Run(claimed, before, est), events[|events| - 1], est);
    } else {
      assert Run(claimed, before, est) == Initial(claimed);
    }
  }
}
