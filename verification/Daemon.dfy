/**
 * `ContinuousIndexer`: the loop, `stop` and the shutdown timeout interleave only where the loop awaits,
 * so the model's steps are the stretches of code between two awaits.
 */
module Daemon {

  /** The labels; `Stopping` and `Error` never outlive the stretch of code that sets them. */
  datatype Label = Starting | Syncing | Idle | BackingOff | Recovering | Stopping | Stopped | Error

  /** Where the loop is suspended. `Woken`: the sleep has resolved but the loop has not resumed yet. */
  datatype Point = NotStarted | Executing | Sleeping | Woken | Exited

  datatype Outcome = Behind | CaughtUp | Failed

  /** `abortable`: a sleep can be aborted; `timeoutSet`: the shutdown timeout is pending. The last three are history. */
  datatype View = View(
    shown: Label, failures: nat, shutdown: bool, abortable: bool, timeoutSet: bool,
    point: Point, loops: nat, begun: nat, outcomes: seq<Outcome>)

  const INITIAL: View := View(Starting, 0, false, false, false, NotStarted, 0, 0, [])

  datatype Event =
    | Start
    | Stop
    | Finished(outcome: Outcome)
    | TimerFired
    | Resumed
    | TimedOut

  predicate Enabled(d: View, e: Event) {
    match e
    case Start => true
    case Stop => true
    case Finished(_) => d.point == Executing
    case TimerFired => d.point == Sleeping
    case Resumed => d.point == Woken
    case TimedOut => d.timeoutSet
  }

  /** From the loop condition to the next await, or out of the loop. */
  function LoopTop(d: View): View {
    if d.shutdown then d.(shown := Stopped, point := Exited, timeoutSet := false)
    else d.(shown := if d.failures > 0 then Recovering else Syncing, point := Executing, begun := d.begun + 1)
  }

  function Asleep(d: View, shown: Label): View {
    d.(shown := shown, point := Sleeping, abortable := true)
  }

  function Step(d: View, e: Event): View {
    match e
    case Start => if d.shown != Starting then d else LoopTop(d.(loops := d.loops + 1))
    case Stop =>
      if d.shutdown then d
      else d.(shutdown := true, timeoutSet := true, abortable := false,
              point := if d.abortable then Woken else d.point)
    case Finished(outcome) =>
      var d' := d.(outcomes := d.outcomes + [outcome], failures := if outcome == Failed then d.failures + 1 else 0);
      if outcome == Behind then LoopTop(d') else Asleep(d', if outcome == Failed then BackingOff else Idle)
    case TimerFired => d.(abortable := false, point := Woken)
    case Resumed => LoopTop(d)
    case TimedOut => d.(shown := Stopped, timeoutSet := false)
  }

  /** The daemon's fields, with the suspension point and the history as ghost state. */
  class ContinuousIndexer {
    var state: Label
    var consecutiveFailures: nat
    var shutdownRequested: bool
    var sleepAbort: bool
    var timeoutHandle: bool
    ghost var point: Point
    ghost var loops: nat
    ghost var begun: nat
    ghost var outcomes: seq<Outcome>

    ghost function Now(): View
      reads this
    {
      View(state, consecutiveFailures, shutdownRequested, sleepAbort, timeoutHandle, point, loops, begun, outcomes)
    }

    constructor ()
      ensures Now() == INITIAL
    {
      state, consecutiveFailures, shutdownRequested, sleepAbort, timeoutHandle := Starting, 0, false, false, false;
      point, loops, begun, outcomes := NotStarted, 0, 0, [];
    }

    method StartLoop()
      modifies this
      ensures Now() == Step(old(Now()), Start)
    {
      if state != Starting {
        return;
      }
      loops := loops + 1;
      TopOfLoop();
    }

    method TopOfLoop()
      modifies this
      ensures Now() == LoopTop(old(Now()))
    {
      if shutdownRequested {
        state := Stopping;
        state := Stopped;
        timeoutHandle := false;
        point := Exited;
      } else {
        if consecutiveFailures > 0 {
          state := Recovering;
        } else {
          state := Syncing;
        }
        point, begun := Executing, begun + 1;
      }
    }

    method RequestStop()
      modifies this
      ensures Now() == Step(old(Now()), Stop)
    {
      if shutdownRequested {
        return;
      }
      shutdownRequested := true;
      if sleepAbort {
        sleepAbort := false;
        point := Woken;
      }
      timeoutHandle := true;
    }

    method AfterExecute(outcome: Outcome)
      modifies this
      ensures Now() == Step(old(Now()), Finished(outcome))
    {
      outcomes := outcomes + [outcome];
      if outcome == Failed {
        consecutiveFailures := consecutiveFailures + 1;
        state := Error;
        state := BackingOff;
        Sleep();
      } else {
        consecutiveFailures := 0;
        if outcome == CaughtUp {
          state := Idle;
          Sleep();
        } else {
          TopOfLoop();
        }
      }
    }

    method Sleep()
      modifies this`sleepAbort, this`point
      ensures sleepAbort && point == Sleeping
    {
      sleepAbort, point := true, Sleeping;
    }

    method SleepTimerFired()
      modifies this`sleepAbort, this`point
      ensures Now() == Step(old(Now()), TimerFired)
    {
      sleepAbort, point := false, Woken;
    }

    method ShutdownTimeout()
      modifies this`state, this`timeoutHandle
      ensures Now() == Step(old(Now()), TimedOut)
    {
      state, timeoutHandle := Stopped, false;
    }
  }

  // --- Runs -----------------------------------------------------------------------------------------------------

  predicate Possible(d: View, events: seq<Event>)
    decreases events
  {
    events == [] || (Enabled(d, events[0]) && Possible(Step(d, events[0]), events[1..]))
  }

  function Run(d: View, events: seq<Event>): View
    decreases events
  {
    if events == [] then d else Run(Step(d, events[0]), events[1..])
  }

  /** The length of the run of failures that the outcomes end in. */
  function TrailingFailures(outcomes: seq<Outcome>): nat {
    if outcomes == [] || outcomes[|outcomes| - 1] != Failed then 0
    else 1 + TrailingFailures(outcomes[..|outcomes| - 1])
  }

  predicate Sound(d: View) {
    // One loop at most, and the label Starting admits another only before the first.
    && d.loops == (if d.point == NotStarted then 0 else 1)
    && (d.point != NotStarted ==> d.shown != Starting)
    // One batch at a time, and the counter is the trailing run of failed batches.
    && d.begun == |d.outcomes| + (if d.point == Executing then 1 else 0)
    && d.failures == TrailingFailures(d.outcomes)
    // Only a suspended sleep can be aborted; a loop that ended was asked to.
    && (d.abortable <==> d.point == Sleeping)
    && (d.point == Exited ==> d.shutdown && d.shown == Stopped && !d.timeoutSet)
    && (d.timeoutSet ==> d.shutdown)
    && (d.point == NotStarted ==> d.shown in {Starting, Stopped})
    && d.shown !in {Stopping, Error}
    && (d.shown == Stopped ==> d.shutdown)
  }

  lemma {:induction false} StepIsSound(d: View, e: Event)
    requires Sound(d) && Enabled(d, e)
    ensures Sound(Step(d, e))
  {
  }

  /**
   * At every suspension point of every interleaving at most one loop runs, at most one batch is in
   * flight, and the failure counter is the length of the trailing run of failed batches.
   */
  lemma {:induction false} EveryInterleavingIsSound(d: View, events: seq<Event>)
    requires Sound(d) && Possible(d, events)
    ensures Sound(Run(d, events))
    decreases events
  {
    hide Sound;
    if events != [] {
      StepIsSound(d, events[0]);
      EveryInterleavingIsSound(Step(d, events[0]), events[1..]);
    }
  }

  function LastOutcome(d: View): Outcome
    requires d.outcomes != []
  {
    d.outcomes[|d.outcomes| - 1]
  }

  /**
   * What the label says: starting, or working off the backlog, or working after a failure, or waiting at the
   * chain head, or waiting after a failure. Once stopped, it says nothing more than that.
   */
  predicate LabelFits(d: View) {
    d.shown == Stopped ||
    match d.point
    case NotStarted => d.shown == Starting
    case Executing =>
      && (d.shown == Syncing <==> d.outcomes == [] || LastOutcome(d) != Failed)
      && (d.shown == Recovering <==> d.outcomes != [] && LastOutcome(d) == Failed)
    case Exited => false
    case _ =>
      && d.outcomes != []
      && (d.shown == Idle <==> LastOutcome(d) == CaughtUp)
      && (d.shown == BackingOff <==> LastOutcome(d) == Failed)
      && d.shown in {Idle, BackingOff}
  }

  lemma {:induction false} StepLabelFits(d: View, e: Event)
    requires Sound(d) && LabelFits(d) && Enabled(d, e)
    ensures LabelFits(Step(d, e))
  {
  }

  /** In every interleaving the label tells where the loop is and how its last batch ended. */
  lemma {:induction false} LabelTellsTheState(d: View, events: seq<Event>)
    requires Sound(d) && LabelFits(d) && Possible(d, events)
    ensures LabelFits(Run(d, events))
    decreases events
  {
    hide Sound, LabelFits;
    if events != [] {
      StepIsSound(d, events[0]);
      StepLabelFits(d, events[0]);
      LabelTellsTheState(Step(d, events[0]), events[1..]);
    }
  }

  lemma InitialIsSound()
    ensures Sound(INITIAL) && LabelFits(INITIAL)
  {
  }

  // --- Shutdown ---------------------------------------------------------------------------------------------------

  /** The steps the loop itself takes. */
  function LoopSteps(events: seq<Event>): nat
    decreases events
  {
    if events == [] then 0
    else (if events[0].Finished? || events[0].TimerFired? || events[0].Resumed? then 1 else 0) + LoopSteps(events[1..])
  }

  function Distance(p: Point): nat {
    match p
    case Executing => 3
    case Sleeping => 2
    case Woken => 1
    case Exited => 0
    case NotStarted => 0
  }

  /** After `stop` no batch ever begins, and the loop has at most three steps left. */
  lemma {:induction false} StopIsFinal(d: View, events: seq<Event>)
    requires Sound(d) && d.shutdown && Possible(d, events)
    ensures Run(d, events).shutdown && Run(d, events).begun == d.begun
    ensures LoopSteps(events) + Distance(Run(d, events).point) <= Distance(d.point)
    decreases events
  {
    if events != [] {
      StepIsSound(d, events[0]);
      StopIsFinal(Step(d, events[0]), events[1..]);
    }
  }

  /**
   * A stop during a batch ends the loop with that batch only if the chain head was not reached: otherwise it
   * sleeps on.
   */
  lemma StopDuringBatchMaySleep(d: View, outcome: Outcome)
    requires Sound(d) && d.point == Executing
    ensures var end := Run(d, [Stop, Finished(outcome)]);
            && (end.point == Exited <==> outcome == Behind)
            && (end.point == Sleeping <==> outcome != Behind)
  {
    var d1 := Step(d, Stop);
    assert [Stop, Finished(outcome)][1..] == [Finished(outcome)];
    assert Run(d, [Stop, Finished(outcome)]) == Run(d1, [Finished(outcome)]);
    assert [Finished(outcome)][1..] == [];
    assert Run(d1, [Finished(outcome)]) == Step(d1, Finished(outcome));
  }

  /**
   * A first stop wakes a sleeping loop at once: its next step leaves the loop, without a batch and without
   * waiting for the timer. Only a loop that went to sleep after the stop sleeps on.
   */
  lemma StopWakesTheLoop(d: View)
    requires Sound(d)
    ensures Step(d, Stop).shutdown && (Step(d, Stop).point == Sleeping <==> d.shutdown && d.point == Sleeping)
    ensures !d.shutdown && d.point == Sleeping ==>
              && Possible(d, [Stop, Resumed]) && !Enabled(Step(d, Stop), TimerFired)
              && var end := Run(d, [Stop, Resumed]);
                 end.point == Exited && end.shown == Stopped && end.begun == d.begun && !end.timeoutSet
  {
    var d1 := Step(d, Stop);
    assert [Stop, Resumed][1..] == [Resumed] && [Resumed][1..] == [];
    assert Run(d, [Stop, Resumed]) == Run(d1, [Resumed]) == Step(d1, Resumed);
  }

  lemma {:induction false} QuietLabelStays(d: View, events: seq<Event>)
    requires Sound(d) && Possible(d, events) && d.shown == Stopped && d.point != Executing
    ensures Run(d, events).shown == Stopped
    decreases events
  {
    if events != [] {
      StepIsSound(d, events[0]);
      QuietLabelStays(Step(d, events[0]), events[1..]);
    }
  }

  /** The label Stopped is for good exactly when no batch is in flight: the timeout sets it regardless. */
  lemma StoppedIsForGood(d: View)
    requires Sound(d) && d.shown == Stopped
    ensures (forall events :: Possible(d, events) ==> Run(d, events).shown == Stopped) <==> d.point != Executing
  {
    if d.point == Executing {
      var events := [Finished(Failed)];
      assert events[1..] == [];
      assert Run(d, events) == Step(d, Finished(Failed));
      assert Possible(d, events) && Run(d, events).shown == BackingOff;
    } else {
      forall events | Possible(d, events)
        ensures Run(d, events).shown == Stopped
      {
        QuietLabelStays(d, events);
      }
    }
  }

  /** A batch that outlives the shutdown timeout: the daemon is Stopped and then backing off. */
  lemma TimeoutIsNotTheEnd()
    ensures Possible(INITIAL, [Start, Stop, TimedOut, Finished(Failed)])
    ensures Run(INITIAL, [Start, Stop, TimedOut]).shown == Stopped
    ensures Run(INITIAL, [Start, Stop, TimedOut, Finished(Failed)]).shown == BackingOff
  {
  }
}
