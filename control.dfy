/**
 * The per-frame control step of the main loop. Each frame brings an optional
 * centroid, the frame width and the current time (integer milliseconds). The
 * step tracks consecutive frames without a line, feeds present centroids to
 * the smoother, issues a one-shot safety stop once the line has been lost for
 * more than NoLineLimit frames, and otherwise sends the classified command
 * when the cooldown has strictly elapsed and the command has changed.
 *
 * ControlState, Next and Run are the specification; the class Controller is
 * the imperative loop body, proved to follow Next.
 */
module Control {
  import opened Wrappers
  import opened Commands
  import opened Smoothing
  import opened Decision
  import opened Dispatch

  /** command_cooldown = 0.8 s, in milliseconds. */
  const Cooldown: int := 800
  /** The safety stop fires when no_line_count exceeds this. */
  const NoLineLimit: nat := 10

  /** What one iteration of the loop sees: the detected centroid, the time and the frame width. */
  datatype Frame = Frame(centroid: Option<Point>, now: int, width: nat)

  datatype ControlState = ControlState(
    history: seq<Point>,
    noLineCount: nat,
    lastCommand: Option<Command>,
    lastCommandTime: int,
    queue: seq<Command>)

  /** The state when the loop starts at time `start`. */
  function Init(start: int): (s: ControlState)
    ensures Inv(s) && s.history == [] && s.noLineCount == 0
    ensures s.lastCommand == None && s.lastCommandTime == start && s.queue == []
  {
    ControlState([], 0, None, start, [])
  }

  /** The command the classifier picks for a frame whose centroid is present. */
  function FrameCommand(history: seq<Point>, f: Frame): Command
    requires f.centroid.Some?
  {
    Classify(Smoothed(Window(history, f.centroid.value)).x - CenterX(f.width)).command
  }

  function Send(s: ControlState, c: Command, now: int): ControlState
  {
    s.(queue := s.queue + [c], lastCommand := Some(c), lastCommandTime := now)
  }

  /** One iteration of the main loop. */
  function Next(s: ControlState, f: Frame): (r: ControlState)
    ensures |s.queue| <= |r.queue| <= |s.queue| + 1 && r.queue[..|s.queue|] == s.queue
  {
    var tracked :=
      if f.centroid.Some? then s.(history := Window(s.history, f.centroid.value), noLineCount := 0)
      else s.(noLineCount := s.noLineCount + 1);
    var cooldownActive := f.now - s.lastCommandTime <= Cooldown;
    if tracked.noLineCount > NoLineLimit then
      if s.lastCommand != Some(Stop) then Send(tracked, Stop, f.now) else tracked
    else if !cooldownActive && f.centroid.Some? then
      var command := FrameCommand(s.history, f);
      if Some(command) != s.lastCommand then Send(tracked, command, f.now) else tracked
    else
      tracked
  }

  /** The loop run over a sequence of frames. */
  function Run(s: ControlState, frames: seq<Frame>): ControlState
    decreases |frames|
  {
    if frames == [] then s else Run(Next(s, frames[0]), frames[1..])
  }

  /** What holds of every state the loop reaches from Init. */
  ghost predicate Inv(s: ControlState)
  {
    && |s.history| <= HistorySize
    && Exit !in s.queue
    && s.lastCommand != Some(Exit)
    && (s.noLineCount > NoLineLimit ==> s.lastCommand == Some(Stop))
  }

  // ---------------------------------------------------------------------------
  // One frame

  /** A frame without a line only counts; a frame with one resets the count and feeds the window. */
  lemma NextTracksLine(s: ControlState, f: Frame)
    ensures f.centroid.None? ==> Next(s, f).noLineCount == s.noLineCount + 1 && Next(s, f).history == s.history
    ensures f.centroid.Some? ==> Next(s, f).noLineCount == 0 && Next(s, f).history == Window(s.history, f.centroid.value)
  {
  }

  /** Once the line has been lost for more than NoLineLimit frames, stop is sent once, cooldown or not. */
  lemma SafetyStop(s: ControlState, f: Frame)
    requires f.centroid.None? && s.noLineCount >= NoLineLimit
    ensures var r := Next(s, f);
      if s.lastCommand != Some(Stop) then
        r.queue == s.queue + [Stop] && r.lastCommand == Some(Stop) && r.lastCommandTime == f.now
      else
        r.queue == s.queue && r.lastCommand == s.lastCommand && r.lastCommandTime == s.lastCommandTime
  {
  }

  /**
   * Below the safety limit, a command is sent exactly when a line is present, the
   * cooldown has strictly elapsed and the classified command differs from the last one.
   */
  lemma NormalDispatch(s: ControlState, f: Frame)
    requires f.centroid.Some? || s.noLineCount < NoLineLimit
    ensures var r := Next(s, f);
      var fires := f.centroid.Some? && f.now - s.lastCommandTime > Cooldown
                   && Some(FrameCommand(s.history, f)) != s.lastCommand;
      && (fires ==> r.queue == s.queue + [FrameCommand(s.history, f)]
                    && r.lastCommand == Some(FrameCommand(s.history, f)) && r.lastCommandTime == f.now)
      && (!fires ==> r.queue == s.queue && r.lastCommand == s.lastCommand && r.lastCommandTime == s.lastCommandTime)
  {
  }

  lemma NextPreservesInv(s: ControlState, f: Frame)
    requires Inv(s)
    ensures Inv(Next(s, f))
  {
  }

  // ---------------------------------------------------------------------------
  // Runs of frames

  lemma {:induction false} RunPreservesInv(s: ControlState, frames: seq<Frame>)
    requires Inv(s)
    ensures Inv(Run(s, frames))
    decreases |frames|
  {
    if frames != [] {
      NextPreservesInv(s, frames[0]);
      RunPreservesInv(Next(s, frames[0]), frames[1..]);
    }
  }

  /** The queue only grows at its end, by at most one command per frame. */
  lemma {:induction false} RunAppendsOnly(s: ControlState, frames: seq<Frame>)
    ensures var q := Run(s, frames).queue;
      |s.queue| <= |q| <= |s.queue| + |frames| && q[..|s.queue|] == s.queue
    decreases |frames|
  {
    if frames != [] {
      var s1 := Next(s, frames[0]);
      RunAppendsOnly(s1, frames[1..]);
      var q := Run(s1, frames[1..]).queue;
      assert q[..|s.queue|] == q[..|s1.queue|][..|s.queue|];
    }
  }

  /**
   * A run of frames without a line sends stop exactly once, on the frame where the
   * count first exceeds NoLineLimit, unless stop was already the last command.
   */
  lemma {:induction false} NoLineRun(s: ControlState, frames: seq<Frame>)
    requires forall i :: 0 <= i < |frames| ==> frames[i].centroid.None?
    ensures var r := Run(s, frames);
      var stops := |frames| > 0 && s.noLineCount + |frames| > NoLineLimit && s.lastCommand != Some(Stop);
      && r.history == s.history
      && r.noLineCount == s.noLineCount + |frames|
      && r.queue == s.queue + (if stops then [Stop] else [])
      && r.lastCommand == (if stops then Some(Stop) else s.lastCommand)
    decreases |frames|
  {
    if frames != [] {
      NoLineRun(Next(s, frames[0]), frames[1..]);
    }
  }

  /**
   * While the line stays at one point and every entry of the history (possibly none) is
   * that point, the classified command is sent at most once, and not at all if it was the
   * last one.
   */
  lemma {:induction false} SteadyLineRun(s: ControlState, frames: seq<Frame>, p: Point, width: nat)
    requires forall k :: 0 <= k < |s.history| ==> s.history[k] == p
    requires forall i :: 0 <= i < |frames| ==> frames[i].centroid == Some(p) && frames[i].width == width
    ensures var c := Classify(p.x - CenterX(width)).command;
      var q := Run(s, frames).queue;
      && (q == s.queue || q == s.queue + [c])
      && (s.lastCommand == Some(c) ==> q == s.queue)
    decreases |frames|
  {
    if frames != [] {
      var s1 := Next(s, frames[0]);
      var w := Window(s.history, p);
      SmoothedOfConstant(w, p);
      assert FrameCommand(s.history, frames[0]) == Classify(p.x - CenterX(width)).command;
      assert forall k :: 0 <= k < |s1.history| ==> s1.history[k] == p;
      SteadyLineRun(s1, frames[1..], p, width);
    }
  }

  // ---------------------------------------------------------------------------
  // The loop state as an object

  /** The loop's mutable state: the global counters, the last command and its time, and the queue. */
  class Controller {
    const smoother: PositionSmoother
    var noLineCount: nat
    var lastCommand: Option<Command>
    var lastCommandTime: int
    var queue: seq<Command>

    ghost function State(): ControlState
      reads this, smoother
    {
      ControlState(smoother.history, noLineCount, lastCommand, lastCommandTime, queue)
    }

    ghost predicate Valid()
      reads this, smoother
    {
      smoother.Valid() && Inv(State())
    }

    constructor (startTime: int)
      ensures Valid() && State() == Init(startTime)
      ensures fresh(smoother) && smoother.Observed == []
    {
      smoother := new PositionSmoother();
      noLineCount := 0;
      lastCommand := None;
      lastCommandTime := startTime;
      queue := [];
    }

    /** One iteration of the main loop for a frame with the given centroid, time and width. */
    method Step(centroid: Option<Point>, now: int, width: nat)
      requires Valid()
      modifies this, smoother
      ensures Valid()
      ensures State() == Next(old(State()), Frame(centroid, now, width))
      ensures smoother.Observed ==
        if centroid.Some? then old(smoother.Observed) + [centroid.value] else old(smoother.Observed)
    {
      ghost var before := State();
      var centerX := CenterX(width);
      var cx := 0;
      if centroid.Some? {
        noLineCount := 0;
        var smoothed := smoother.Observe(centroid.value);
        cx := smoothed.x;
      } else {
        noLineCount := noLineCount + 1;
      }
      var cooldownActive := now - lastCommandTime <= Cooldown;
      if noLineCount > NoLineLimit {
        if lastCommand != Some(Stop) {
          queue := queue + [Stop];
          lastCommand := Some(Stop);
          lastCommandTime := now;
        }
      } else if !cooldownActive && centroid.Some? {
        var command := Classify(cx - centerX).command;
        if Some(command) != lastCommand {
          queue := queue + [command];
          lastCommand := Some(command);
          lastCommandTime := now;
        }
      }
      NextPreservesInv(before, Frame(centroid, now, width));
    }

    /** The cleanup on leaving the loop: enqueue stop, then the worker's exit sentinel. */
    method Shutdown()
      requires Valid()
      modifies this
      ensures queue == old(queue) + [Stop, Exit]
      ensures BeforeExit(queue) == old(queue) + [Stop]
      ensures noLineCount == old(noLineCount) && lastCommand == old(lastCommand)
      ensures lastCommandTime == old(lastCommandTime)
    {
      ShutdownOrder(queue);
      queue := queue + [Stop, Exit];
    }
  }
}
