/** The practice-session timer: a preshow countdown, then one countdown
    per format segment, advancing through the segments and ending with
    confetti. Each action is a pure step from state to state plus the
    effect the reducer returns. */
module Session {
  import opened Wrappers
  import opened Text
  import opened Formats
  import opened Models

  /** Seconds of the preshow countdown. */
  const PreshowSeconds: int := 5

  /** Durations are whole seconds; `remainingTime` is a `Double` in the
      source. The segment index only ever grows from 0, hence `nat`. */
  datatype State = State(
    title: Option<string>,
    format: Format,
    opening: Opening,
    duration: int,
    currentSegmentIndex: nat,
    segmentElapsedTime: int,
    elapsedTime: int,
    remainingTime: int,
    timerRunning: bool,
    showPreshowCountdown: bool,
    preshowCountdown: int,
    showTimerUI: bool,
    showConfetti: bool)

  /** The state a session starts in. */
  function Initial(title: Option<string>, format: Format, opening: Opening, duration: int): (s: State)
    ensures s.title == title && s.format == format && s.opening == opening && s.duration == duration
    ensures s.currentSegmentIndex == 0 && s.segmentElapsedTime == 0 && s.elapsedTime == 0 && s.remainingTime == 0
    ensures !s.timerRunning && !s.showPreshowCountdown && s.preshowCountdown == PreshowSeconds
    ensures !s.showTimerUI && !s.showConfetti
  {
    State(title, format, opening, duration, 0, 0, 0, 0, false, false, PreshowSeconds, false, false)
  }

  datatype Action =
    | TogglePlayPause
    | Tick
    | StartPreshowCountdown(resume: bool)
    | StartSegmentTimer(resume: bool)
    | Pause

  /** What the reducer hands back to the runtime: `Send` is `.send(a)`,
      `Run` is a `.run` that sends `a`, `StartTicking` is the cancellable
      one-second ticker (replacing any ticker in flight), `CancelTimer`
      cancels it. */
  datatype Effect = NoEffect | Send(action: Action) | Run(action: Action) | StartTicking | CancelTimer

  datatype Step = Step(state: State, effect: Effect)

  /** The seconds of segment `i` of the session's format. */
  function SegmentDuration(s: State, i: nat): int
    requires i < |s.format.segments|
  {
    SegmentSeconds(s.format.segments[i], s.duration)
  }

  /** The source subscripts the segment list without a check when the
      preshow countdown ends; that traps unless the index is in range. */
  predicate Defined(s: State, a: Action) {
    a == Tick && s.showPreshowCountdown && s.preshowCountdown <= 0 ==> s.currentSegmentIndex < |s.format.segments|
  }

  function OnTogglePlayPause(s: State): (r: Step)
    ensures s.timerRunning ==> r == Step(s.(showTimerUI := false), Run(Pause))
    ensures !s.timerRunning ==> r.state == s.(showTimerUI := true) && r.effect.Send?
    ensures !s.timerRunning && s.showPreshowCountdown ==> r.effect.action == StartPreshowCountdown(true)
    ensures !s.timerRunning && !s.showPreshowCountdown && s.remainingTime > 0 ==>
      r.effect.action == StartSegmentTimer(true)
    ensures !s.timerRunning && !s.showPreshowCountdown && s.remainingTime <= 0 ==>
      r.effect.action == (if s.currentSegmentIndex == 0 && s.elapsedTime == 0 && s.remainingTime == 0
                          then StartPreshowCountdown(false) else StartSegmentTimer(true))
  {
    if s.timerRunning then Step(s.(showTimerUI := false), Run(Pause))
    else
      var s' := s.(showTimerUI := true);
      if s.showPreshowCountdown then Step(s', Send(StartPreshowCountdown(true)))
      else if s.remainingTime > 0 then Step(s', Send(StartSegmentTimer(true)))
      else if s.currentSegmentIndex == 0 && s.elapsedTime == 0 && s.remainingTime == 0 then
        Step(s', Send(StartPreshowCountdown(false)))
      else Step(s', Send(StartSegmentTimer(true)))
  }

  function OnStartPreshowCountdown(s: State, resume: bool): (r: Step)
    ensures r.state.timerRunning && r.state.showPreshowCountdown && r.effect == StartTicking
    ensures r.state.preshowCountdown == if resume then s.preshowCountdown else PreshowSeconds
    ensures r.state == s.(timerRunning := true, showPreshowCountdown := true,
                          preshowCountdown := r.state.preshowCountdown)
  {
    var s1 := s.(timerRunning := true);
    var s2 := if resume then s1 else s1.(preshowCountdown := PreshowSeconds);
    Step(s2.(showPreshowCountdown := true), StartTicking)
  }

  function OnStartSegmentTimer(s: State, resume: bool): (r: Step)
    ensures s.currentSegmentIndex >= |s.format.segments| ==> r == Step(s, NoEffect)
    ensures s.currentSegmentIndex < |s.format.segments| ==> r.state.timerRunning && r.effect == StartTicking
    ensures s.currentSegmentIndex < |s.format.segments| && !resume && s.remainingTime == 0 ==>
      r.state == s.(timerRunning := true, remainingTime := SegmentDuration(s, s.currentSegmentIndex), elapsedTime := 0)
    ensures s.currentSegmentIndex < |s.format.segments| && (resume || s.remainingTime != 0) ==>
      r.state == s.(timerRunning := true)
  {
    if s.currentSegmentIndex >= |s.format.segments| then Step(s, NoEffect)
    else
      var s1 := s.(timerRunning := true);
      if !resume && s.remainingTime == 0 then
        Step(s1.(remainingTime := SegmentDuration(s, s.currentSegmentIndex), elapsedTime := 0), StartTicking)
      else Step(s1, StartTicking)
  }

  function OnPause(s: State): (r: Step)
    ensures !r.state.timerRunning && r.effect == CancelTimer
    ensures r.state.(timerRunning := s.timerRunning) == s
  {
    Step(s.(timerRunning := false), CancelTimer)
  }

  function OnTick(s: State): (r: Step)
    requires Defined(s, Tick)
    // preshow, still counting: one second less, nothing else
    ensures s.showPreshowCountdown && s.preshowCountdown > 0 ==>
      r == Step(s.(preshowCountdown := s.preshowCountdown - 1), NoEffect)
    // preshow over: hide it and load the current segment
    ensures s.showPreshowCountdown && s.preshowCountdown <= 0 ==>
      r == Step(s.(showPreshowCountdown := false, elapsedTime := 0,
                   remainingTime := SegmentDuration(s, s.currentSegmentIndex)),
                Send(StartSegmentTimer(false)))
    // segment running: one second moves from remaining to elapsed
    ensures !s.showPreshowCountdown && s.remainingTime > 0 ==>
      r == Step(s.(remainingTime := s.remainingTime - 1, segmentElapsedTime := s.segmentElapsedTime + 1,
                   elapsedTime := s.elapsedTime + 1), NoEffect)
    // segment over: stop, advance, and either load the next or finish
    ensures !s.showPreshowCountdown && s.remainingTime <= 0 ==>
      var n := s.currentSegmentIndex + 1;
      var s' := s.(timerRunning := false, currentSegmentIndex := n, segmentElapsedTime := 0);
      if n < |s.format.segments| then
        r == Step(s'.(remainingTime := SegmentDuration(s, n)), Send(StartSegmentTimer(false)))
      else
        r == Step(s'.(remainingTime := 0, showConfetti := true), CancelTimer)
  {
    if s.showPreshowCountdown then
      if s.preshowCountdown > 0 then Step(s.(preshowCountdown := s.preshowCountdown - 1), NoEffect)
      else
        var s1 := s.(showPreshowCountdown := false, elapsedTime := 0);
        Step(s1.(remainingTime := SegmentDuration(s, s.currentSegmentIndex)), Send(StartSegmentTimer(false)))
    else if s.remainingTime > 0 then
      Step(s.(remainingTime := s.remainingTime - 1, segmentElapsedTime := s.segmentElapsedTime + 1,
              elapsedTime := s.elapsedTime + 1), NoEffect)
    else
      var s1 := s.(timerRunning := false, currentSegmentIndex := s.currentSegmentIndex + 1,
                   segmentElapsedTime := 0, remainingTime := 0);
      if s1.currentSegmentIndex >= |s.format.segments| then Step(s1.(showConfetti := true), CancelTimer)
      else Step(s1.(remainingTime := SegmentDuration(s, s1.currentSegmentIndex)), Send(StartSegmentTimer(false)))
  }

  /** The reducer. */
  function Reduce(s: State, a: Action): (r: Step)
    requires Defined(s, a)
    ensures r.state.format == s.format && r.state.duration == s.duration
    ensures r.state.title == s.title && r.state.opening == s.opening
  {
    match a
    case TogglePlayPause => OnTogglePlayPause(s)
    case StartPreshowCountdown(resume) => OnStartPreshowCountdown(s, resume)
    case StartSegmentTimer(resume) => OnStartSegmentTimer(s, resume)
    case Pause => OnPause(s)
    case Tick => OnTick(s)
  }

  /** `totalDurationText`: the minutes followed by `" min"`. */
  function TotalDurationText(s: State): (r: string)
    ensures |r| > 4 && r[|r| - 4..] == " min"
    ensures ParseInt(r[..|r| - 4]) == Some(s.duration)
    ensures r[..|r| - 4] == IntToString(s.duration)
  {
    ParseIntToString(s.duration);
    var r := IntToString(s.duration) + " min";
    assert r[..|r| - 4] == IntToString(s.duration);
    r
  }

  // ---------------------------------------------------------------------
  // Properties of the step function.

  /** No action moves back through the segments; only `Tick` moves
      forward, and then by exactly one. */
  lemma IndexOnlyAdvancesOnTick(s: State, a: Action)
    requires Defined(s, a)
    ensures var i := Reduce(s, a).state.currentSegmentIndex;
      i == s.currentSegmentIndex || (a == Tick && i == s.currentSegmentIndex + 1)
  {
  }

  /** A running segment's tick moves one second from remaining to elapsed:
      remaining plus segment-elapsed time is conserved. */
  lemma SegmentTickConserves(s: State)
    requires !s.showPreshowCountdown && s.remainingTime > 0
    ensures var t := Reduce(s, Tick).state;
      t.remainingTime + t.segmentElapsedTime == s.remainingTime + s.segmentElapsedTime
      && t.elapsedTime == s.elapsedTime + 1 && t.currentSegmentIndex == s.currentSegmentIndex
  {
  }

  /** Toggling a running timer and delivering the pause stops it. */
  lemma ToggleThenPauseStops(s: State)
    requires s.timerRunning
    ensures var r := Reduce(s, TogglePlayPause);
      r.effect == Run(Pause) && Reduce(r.state, Pause).state == s.(showTimerUI := false, timerRunning := false)
  {
  }

  /** Applies an action and then the one action it sends, if any: what
      the runtime does next. */
  function Deliver(s: State, a: Action): Option<State> {
    if !Defined(s, a) then None
    else
      var r := Reduce(s, a);
      match r.effect
      case Send(b) => if Defined(r.state, b) then Some(Reduce(r.state, b).state) else None
      case Run(b) => if Defined(r.state, b) then Some(Reduce(r.state, b).state) else None
      case _ => Some(r.state)
  }

  /** Pausing and then resuming a visible timer in the middle of the
      preshow or of a segment returns to exactly the same state. */
  lemma PauseResumeRestores(s: State)
    requires s.timerRunning && s.showTimerUI
    requires s.showPreshowCountdown || (s.remainingTime > 0 && s.currentSegmentIndex < |s.format.segments|)
    ensures Deliver(s, TogglePlayPause).Some?
    ensures Deliver(Deliver(s, TogglePlayPause).value, TogglePlayPause) == Some(s)
  {
  }

  /** Replays actions; `None` if one of them traps. */
  function RunActions(s: State, acts: seq<Action>): Option<State>
    decreases |acts|
  {
    if |acts| == 0 then Some(s)
    else if !Defined(s, acts[0]) then None
    else RunActions(Reduce(s, acts[0]).state, acts[1..])
  }

  /** Number of `Tick`s in a sequence of actions. */
  function Ticks(acts: seq<Action>): nat {
    if |acts| == 0 then 0 else (if acts[0] == Tick then 1 else 0) + Ticks(acts[1..])
  }

  /** Over any run, the segment index never decreases and grows by at most
      the number of ticks. */
  lemma {:induction false} RunIndexBounds(s: State, acts: seq<Action>)
    requires RunActions(s, acts).Some?
    ensures var t := RunActions(s, acts).value;
      s.currentSegmentIndex <= t.currentSegmentIndex <= s.currentSegmentIndex + Ticks(acts)
    decreases |acts|
  {
    if |acts| > 0 {
      IndexOnlyAdvancesOnTick(s, acts[0]);
      RunIndexBounds(Reduce(s, acts[0]).state, acts[1..]);
    }
  }

  /** `n` ticks of a running segment with at least `n` seconds left count
      the seconds down without leaving the segment. */
  lemma {:induction false} TicksCountDown(s: State, n: nat)
    requires !s.showPreshowCountdown && s.remainingTime >= n
    ensures RunActions(s, seq(n, _ => Tick)).Some?
    ensures var t := RunActions(s, seq(n, _ => Tick)).value;
      t == s.(remainingTime := s.remainingTime - n, segmentElapsedTime := s.segmentElapsedTime + n,
              elapsedTime := s.elapsedTime + n)
    decreases n
  {
    if n > 0 {
      var acts := seq(n, _ => Tick);
      assert acts[0] == Tick && acts[1..] == seq(n - 1, _ => Tick);
      TicksCountDown(Reduce(s, Tick).state, n - 1);
    }
  }
}
