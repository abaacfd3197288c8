/**
 * A periodic timer that pauses while the machine sleeps and resumes after it
 * wakes (Libraries/WakeableTimer.cs).
 *
 * Times and durations are real numbers of milliseconds; a point in time is
 * counted from DateTime.MinValue. The clock is not read: every operation
 * that reads DateTime.Now takes `now` as a parameter. The one-shot
 * System.Timers.Timer underneath becomes two fields: `armed` (its Enabled
 * flag) and `wait` (its Interval, the duration of the pending wait).
 */
module Timers {
  import PowerModes

  datatype TimerState = Run | Stop | Suspend | Unknown

  /** What one subscriber's action does to the timer when a round invokes it. */
  datatype Effect =
    | Completes       // returns normally
    | StopsTimer      // calls Stop() on the timer, then returns
    | SuspendsTimer   // calls Suspend() on the timer, then returns
    | Throws          // fails: the exception ends the round

  /** A subscribed action, identified by the delegate Subscribe registered. */
  type ActionId = nat

  /** The fields the timer's operations update. */
  datatype Schedule = Schedule(
    state: TimerState,
    next: real,           // Next: when the next round is due
    lastPublished: real,  // LastPublished: signal time of the latest round
    interval: real,       // Interval
    armed: bool,          // the one-shot timer is enabled
    wait: real)           // the one-shot timer's Interval

  /** DateTime.MinValue, the origin of the time line. */
  const MinValue: real := 0.0
  /** The interval of a timer made by the parameterless constructor: one second. */
  const DefaultInterval: real := 1000.0
  /** System.Timers.Timer's initial Interval. */
  const CoreDefaultInterval: real := 100.0
  /** The grace period a power Resume event grants before the next round. */
  const PowerResumeDelay: real := 100.0

  function Max(a: real, b: real): (m: real)
    ensures m >= a && m >= b && (m == a || m == b)
  {
    if a >= b then a else b
  }

  /** The one-shot timer rejects an Interval that is not positive, so its Interval always is. */
  predicate Healthy(s: Schedule)
  {
    s.wait > 0.0
  }

  /** A new timer: stopped, never published, Next = the construction time. */
  function Initial(interval: real, now: real): Schedule
  {
    Schedule(Stop, now, MinValue, interval, false, CoreDefaultInterval)
  }

  // ---------------------------------------------------------------------------
  // The transitions, as functions of the schedule.

  /** Start(delay). */
  function Started(s: Schedule, delay: real, now: real): Schedule
  {
    if s.state == Run then s
    else if s.state == Suspend then Resumed(s, delay, now)
    else
      var time := Max(delay, 1.0);
      s.(state := Run, next := now + time, wait := time, armed := true)
  }

  /** Stop(): disables the one-shot timer; Next and LastPublished stay. */
  function Stopped(s: Schedule): Schedule
  {
    if s.state == Stop then s else s.(armed := false, state := Stop)
  }

  /** Suspend(): only from Run; Next stays so that Resume can honour it. */
  function Suspended(s: Schedule): Schedule
  {
    if s.state != Run then s else s.(armed := false, state := Suspend)
  }

  /**
   * Resume(delay), as the model uses it: only from Suspend; waits for the
   * time left until Next or for `delay`, whichever is longer, and never for
   * less than 1 ms (see ResumedAsWritten for the code without that floor).
   */
  function Resumed(s: Schedule, delay: real, now: real): Schedule
  {
    if s.state != Suspend then s
    else
      var time := Max(Max(s.next - now, delay), 1.0);
      s.(state := Run, next := now + time, wait := time, armed := true)
  }

  /** A transition that may fail with the one-shot timer's ArgumentException. */
  datatype Outcome = Outcome(schedule: Schedule, ok: bool)

  /**
   * Resume(delay) as written: the wait is max(Next - now, delay) with no
   * floor. State and Next are assigned before the one-shot timer's Interval,
   * whose setter throws for a wait that is not positive; the timer is then
   * left running but never armed.
   */
  function ResumedAsWritten(s: Schedule, delay: real, now: real): (r: Outcome)
    ensures s.state != Suspend ==> r == Outcome(s, true)
    ensures r.ok <==> s.state != Suspend || Max(s.next - now, delay) > 0.0
    ensures s.state == Suspend ==>
      && r.schedule.state == Run && r.schedule.next == now + Max(s.next - now, delay)
      && r.schedule.lastPublished == s.lastPublished && r.schedule.interval == s.interval
    ensures s.state == Suspend && r.ok ==> r.schedule.armed && r.schedule.wait == Max(s.next - now, delay)
    ensures !r.ok ==> r.schedule.armed == s.armed && r.schedule.wait == s.wait
  {
    if s.state != Suspend then Outcome(s, true)
    else
      var time := Max(s.next - now, delay);
      var running := s.(state := Run, next := now + time);
      if time > 0.0 then Outcome(running.(wait := time, armed := true), true)
      else Outcome(running, false)
  }

  /** UpdateState: a power Resume resumes with a 100 ms grace, a power Suspend suspends, nothing else acts. */
  function AfterPowerEvent(s: Schedule, mode: PowerModes.PowerMode, now: real): Schedule
  {
    match mode
    case Resume => Resumed(s, PowerResumeDelay, now)
    case Suspend => Suspended(s)
    case _ => s
  }

  /** Reset(): Next = now + Interval, then the one-shot timer's Interval = Interval (which throws unless positive). */
  function ResetAt(s: Schedule, now: real): Outcome
  {
    var moved := s.(next := now + s.interval);
    if s.interval > 0.0 then Outcome(moved.(wait := s.interval), true) else Outcome(moved, false)
  }

  /** The Interval setter: nothing when the value is the current one, otherwise store it and Reset. */
  function IntervalSet(s: Schedule, value: real, now: real): Outcome
  {
    if s.interval == value then Outcome(s, true) else ResetAt(s.(interval := value), now)
  }

  /**
   * The drift rule: the next wait is what is left of the interval after the
   * round's elapsed time, but at least a tenth of the interval and at least 1 ms.
   */
  function NextWait(interval: real, elapsed: real): (w: real)
    ensures w >= 1.0 && w >= interval / 10.0 && w >= interval - elapsed
    ensures w == 1.0 || w == interval / 10.0 || w == interval - elapsed
  {
    Max(Max(interval - elapsed, interval / 10.0), 1.0)
  }

  /** The re-arm in WhenPublished's finally block, whatever the state. */
  function Rearmed(s: Schedule, finishedAt: real): Schedule
  {
    var time := NextWait(s.interval, finishedAt - s.lastPublished);
    s.(next := finishedAt + time, wait := time, armed := true)
  }

  /** A round's result: the schedule after it, how many actions it invoked, and whether one threw. */
  datatype RoundResult = RoundResult(schedule: Schedule, invoked: nat, failed: bool)

  /** Publish: the actions in order, each only while the timer is still running. */
  function Round(s: Schedule, effects: seq<Effect>): RoundResult
    decreases |effects|
  {
    if |effects| == 0 || s.state != Run then RoundResult(s, 0, false)
    else
      match effects[0]
      case Throws => RoundResult(s, 1, true)
      case Completes => Invoked(Round(s, effects[1..]))
      case StopsTimer => Invoked(Round(Stopped(s), effects[1..]))
      case SuspendsTimer => Invoked(Round(Suspended(s), effects[1..]))
  }

  function Invoked(r: RoundResult): RoundResult
  {
    r.(invoked := r.invoked + 1)
  }

  /**
   * WhenPublished. The one-shot timer (AutoReset = false) disables itself
   * when it fires; the handler then skips unless running, and otherwise
   * records the signal time, runs the round, and re-arms.
   */
  function Tick(s: Schedule, signalTime: real, finishedAt: real, effects: seq<Effect>): RoundResult
  {
    var fired := s.(armed := false);
    if fired.state != Run then RoundResult(fired, 0, false)
    else
      var r := Round(fired.(lastPublished := signalTime), effects);
      r.(schedule := Rearmed(r.schedule, finishedAt))
  }

  /** Subscriptions.Remove: drops the first occurrence of the action, if any. */
  function RemoveFirst(s: seq<ActionId>, x: ActionId): (r: seq<ActionId>)
    ensures x !in s ==> r == s
    ensures x in s ==> |r| == |s| - 1
    decreases |s|
  {
    if |s| == 0 then []
    else if s[0] == x then s[1..]
    else [s[0]] + RemoveFirst(s[1..], x)
  }

  /** Unsubscribing removes exactly one occurrence of the action and keeps the others. */
  lemma {:induction false} RemoveFirstMultiset(s: seq<ActionId>, x: ActionId)
    ensures multiset(RemoveFirst(s, x)) == multiset(s) - multiset{x}
    decreases |s|
  {
    if |s| > 0 {
      assert s == [s[0]] + s[1..];
      if s[0] != x {
        RemoveFirstMultiset(s[1..], x);
      }
    }
  }

  /** The actions before the removed one, and those after it, keep their order. */
  lemma {:induction false} RemoveFirstKeepsOrder(s: seq<ActionId>, x: ActionId, i: nat)
    requires i < |s| && s[i] == x && x !in s[..i]
    ensures RemoveFirst(s, x) == s[..i] + s[i + 1..]
    decreases |s|
  {
    if i > 0 {
      assert s[0] in s[..i];
      assert s[1..][..i - 1] == s[..i][1..];
      RemoveFirstKeepsOrder(s[1..], x, i - 1);
      assert s[..i] == [s[0]] + s[1..][..i - 1];
    }
  }

  /** Subscribing an action and disposing its handle gives back the list of before. */
  lemma {:induction false} UnsubscribeUndoesSubscribe(s: seq<ActionId>, x: ActionId)
    requires x !in s
    ensures RemoveFirst(s + [x], x) == s
  {
    assert (s + [x])[..|s|] == s;
    RemoveFirstKeepsOrder(s + [x], x, |s|);
  }

  // ---------------------------------------------------------------------------
  // The timer object.

  class WakeableTimer {
    var state: TimerState
    var next: real
    var lastPublished: real
    var interval: real
    var armed: bool
    var wait: real
    /** The subscribed actions, in subscription order. */
    var subscriptions: seq<ActionId>
    /** The PowerModeChanged events this timer has re-raised, in order. */
    var modeChanges: seq<PowerModes.PowerMode>

    function Snapshot(): Schedule
      reads this
    {
      Schedule(state, next, lastPublished, interval, armed, wait)
    }

    /** A timer with a one-second interval. */
    constructor (now: real)
      ensures Snapshot() == Initial(DefaultInterval, now)
      ensures subscriptions == [] && modeChanges == []
    {
      state, next, lastPublished, interval := TimerState.Stop, now, MinValue, DefaultInterval;
      armed, wait := false, CoreDefaultInterval;
      subscriptions, modeChanges := [], [];
    }

    constructor WithInterval(interval: real, now: real)
      ensures Snapshot() == Initial(interval, now)
      ensures subscriptions == [] && modeChanges == []
    {
      state, next, lastPublished, this.interval := TimerState.Stop, now, MinValue, interval;
      armed, wait := false, CoreDefaultInterval;
      subscriptions, modeChanges := [], [];
    }

    method Start(delay: real, now: real)
      modifies this
      ensures Snapshot() == Started(old(Snapshot()), delay, now)
      ensures subscriptions == old(subscriptions) && modeChanges == old(modeChanges)
    {
      if state == Run {
        return;
      }
      if state == TimerState.Suspend {
        Resume(delay, now);
      } else {
        var time := Max(delay, 1.0);
        state := Run;
        next := now + time;
        wait := time;
        armed := true;
      }
    }

    /** Start(): Start with no initial delay. */
    method StartNow(now: real)
      modifies this
      ensures Snapshot() == Started(old(Snapshot()), 0.0, now)
      ensures subscriptions == old(subscriptions) && modeChanges == old(modeChanges)
    {
      Start(0.0, now);
    }

    method Stop()
      modifies this
      ensures Snapshot() == Stopped(old(Snapshot()))
      ensures subscriptions == old(subscriptions) && modeChanges == old(modeChanges)
    {
      if state == TimerState.Stop {
        return;
      }
      if armed {
        armed := false;
      }
      state := TimerState.Stop;
    }

    method Suspend()
      modifies this
      ensures Snapshot() == Suspended(old(Snapshot()))
      ensures subscriptions == old(subscriptions) && modeChanges == old(modeChanges)
    {
      if state != Run {
        return;
      }
      armed := false;
      state := TimerState.Suspend;
    }

    method Resume(delay: real, now: real)
      modifies this
      ensures Snapshot() == Resumed(old(Snapshot()), delay, now)
      ensures subscriptions == old(subscriptions) && modeChanges == old(modeChanges)
    {
      if state != TimerState.Suspend {
        return;
      }
      var time := Max(Max(next - now, delay), 1.0);
      state := Run;
      next := now + time;
      wait := time;
      armed := true;
    }

    /** Subscribe: appends the action; the returned handle unsubscribes it. */
    method Subscribe(action: ActionId)
      modifies this
      ensures subscriptions == old(subscriptions) + [action]
      ensures Snapshot() == old(Snapshot()) && modeChanges == old(modeChanges)
    {
      subscriptions := subscriptions + [action];
    }

    /** Disposing the handle Subscribe returned. */
    method Unsubscribe(action: ActionId)
      modifies this
      ensures subscriptions == RemoveFirst(old(subscriptions), action)
      ensures Snapshot() == old(Snapshot()) && modeChanges == old(modeChanges)
    {
      subscriptions := RemoveFirst(subscriptions, action);
    }

    /** Reset; `ok` is false when the one-shot timer rejected the interval. */
    method Reset(now: real) returns (ok: bool)
      modifies this
      ensures Outcome(Snapshot(), ok) == ResetAt(old(Snapshot()), now)
      ensures subscriptions == old(subscriptions) && modeChanges == old(modeChanges)
    {
      next := now + interval;
      if interval <= 0.0 {
        return false;
      }
      wait := interval;
      ok := true;
    }

    /** The Interval setter. */
    method SetInterval(value: real, now: real) returns (ok: bool)
      modifies this
      ensures Outcome(Snapshot(), ok) == IntervalSet(old(Snapshot()), value, now)
      ensures subscriptions == old(subscriptions) && modeChanges == old(modeChanges)
    {
      if interval == value {
        return true;
      }
      interval := value;
      ok := Reset(now);
    }

    method UpdateState(mode: PowerModes.PowerMode, now: real)
      modifies this
      ensures Snapshot() == AfterPowerEvent(old(Snapshot()), mode, now)
      ensures subscriptions == old(subscriptions) && modeChanges == old(modeChanges)
    {
      match mode {
        case Resume => Resume(PowerResumeDelay, now);
        case Suspend => Suspend();
        case _ =>
      }
    }

    /** The handler the power monitor calls: update the state, then re-raise PowerModeChanged. */
    method OnPowerModeChanged(mode: PowerModes.PowerMode, now: real)
      modifies this
      ensures Snapshot() == AfterPowerEvent(old(Snapshot()), mode, now)
      ensures modeChanges == old(modeChanges) + [mode]
      ensures subscriptions == old(subscriptions)
    {
      UpdateState(mode, now);
      modeChanges := modeChanges + [mode];
    }

    /**
     * Publish: invokes the actions in subscription order, checking before each
     * one that the timer still runs. `effects[i]` is what the i-th action does.
     * Returns the actions invoked and whether the last of them threw.
     */
    method Publish(effects: seq<Effect>) returns (ran: seq<ActionId>, failed: bool)
      requires |effects| == |subscriptions|
      modifies this
      ensures var r := Round(old(Snapshot()), effects);
        Snapshot() == r.schedule && r.invoked <= |subscriptions| && ran == subscriptions[..r.invoked] && failed == r.failed
      ensures subscriptions == old(subscriptions) && modeChanges == old(modeChanges)
    {
      ran, failed := [], false;
      RoundInvokedBound(Snapshot(), effects);
      assert effects[0..] == effects;
      var i := 0;
      while i < |subscriptions|
        invariant 0 <= i <= |subscriptions|
        invariant subscriptions == old(subscriptions) && modeChanges == old(modeChanges)
        invariant ran == subscriptions[..i] && !failed
        invariant var r := Round(Snapshot(), effects[i..]);
          Round(old(Snapshot()), effects) == RoundResult(r.schedule, i + r.invoked, r.failed)
        invariant i + Round(Snapshot(), effects[i..]).invoked <= |subscriptions|
      {
        if state != Run {
          return;
        }
        RoundInvokedBound(Snapshot(), effects[i..]);
        ran := ran + [subscriptions[i]];
        assert effects[i..][1..] == effects[i + 1..];
        match effects[i] {
          case Completes =>
          case StopsTimer => Stop();
          case SuspendsTimer => Suspend();
          case Throws =>
            failed := true;
            return;
        }
        i := i + 1;
        assert ran == subscriptions[..i];
      }
    }

    /**
     * WhenPublished, the handler of the one-shot timer: `signalTime` is when
     * the wait elapsed, `finishedAt` the clock reading after the round.
     */
    method WhenPublished(signalTime: real, finishedAt: real, effects: seq<Effect>)
      returns (ran: seq<ActionId>, failed: bool)
      requires |effects| == |subscriptions|
      modifies this
      ensures var t := Tick(old(Snapshot()), signalTime, finishedAt, effects);
        Snapshot() == t.schedule && t.invoked <= |subscriptions| && ran == subscriptions[..t.invoked] && failed == t.failed
      ensures subscriptions == old(subscriptions) && modeChanges == old(modeChanges)
    {
      armed := false;
      if state != Run {
        return [], false;
      }
      lastPublished := signalTime;
      ran, failed := Publish(effects);
      var time := NextWait(interval, finishedAt - lastPublished);
      next := finishedAt + time;
      wait := time;
      armed := true;
    }
  }

  // ---------------------------------------------------------------------------
  // Properties of the transitions.

  lemma {:induction false} RoundInvokedBound(s: Schedule, effects: seq<Effect>)
    ensures Round(s, effects).invoked <= |effects|
    decreases |effects|
  {
    if |effects| > 0 && s.state == Run {
      match effects[0]
      case Throws =>
      case Completes => RoundInvokedBound(s, effects[1..]);
      case StopsTimer => RoundInvokedBound(Stopped(s), effects[1..]);
      case SuspendsTimer => RoundInvokedBound(Suspended(s), effects[1..]);
    }
  }

  /** A new timer is stopped, has never published and is not armed; starting it arms it and sets the state to Run. */
  lemma NewTimerIsStopped(interval: real, now: real, delay: real)
    ensures var s := Initial(interval, now);
      && s.state == TimerState.Stop && s.lastPublished == MinValue && !s.armed && Healthy(s)
      && Started(s, delay, now).state == Run && Started(s, delay, now).armed
  {
  }

  /** Start is a no-op while running, is Resume from Suspend, and otherwise arms a wait of max(delay, 1 ms). */
  lemma StartTransition(s: Schedule, delay: real, now: real)
    ensures s.state == Run ==> Started(s, delay, now) == s
    ensures s.state == TimerState.Suspend ==> Started(s, delay, now) == Resumed(s, delay, now)
    ensures s.state == TimerState.Stop || s.state == Unknown ==>
      var r := Started(s, delay, now);
      && r.state == Run && r.armed
      && r.wait >= 1.0 && r.wait >= delay && (r.wait == 1.0 || r.wait == delay)
      && r.next == now + r.wait
      && r.lastPublished == s.lastPublished && r.interval == s.interval
  {
  }

  /** Stop is idempotent, always ends in Stop, and keeps Next and LastPublished. */
  lemma StopTransition(s: Schedule)
    ensures Stopped(Stopped(s)) == Stopped(s)
    ensures Stopped(s).state == TimerState.Stop
    ensures Stopped(s).next == s.next && Stopped(s).lastPublished == s.lastPublished
    ensures Stopped(s).interval == s.interval
    ensures s.state != TimerState.Stop ==> !Stopped(s).armed
  {
  }

  /** Suspend acts only from Run: it disarms and keeps Next. */
  lemma SuspendTransition(s: Schedule)
    ensures s.state != Run ==> Suspended(s) == s
    ensures s.state == Run ==> Suspended(s) == s.(state := TimerState.Suspend, armed := false)
  {
  }

  /**
   * Resume acts only from Suspend; it waits for the time left until Next or
   * for the minimum delay, whichever is longer, and for at least 1 ms.
   */
  lemma ResumeTransition(s: Schedule, delay: real, now: real)
    ensures s.state != TimerState.Suspend ==> Resumed(s, delay, now) == s
    ensures s.state == TimerState.Suspend ==>
      var r := Resumed(s, delay, now);
      && r.state == Run && r.armed
      && r.wait >= s.next - now && r.wait >= delay && r.wait >= 1.0
      && (r.wait == s.next - now || r.wait == delay || r.wait == 1.0)
      && r.next == now + r.wait
      && r.lastPublished == s.lastPublished && r.interval == s.interval
  {
  }

  /** Suspending and resuming before the deadline, with a shorter minimum delay, keeps the original deadline. */
  lemma SuspendResumeKeepsDeadline(s: Schedule, delay: real, now: real)
    requires s.state == Run
    requires delay <= s.next - now && 1.0 <= s.next - now
    ensures Resumed(Suspended(s), delay, now).next == s.next
    ensures Resumed(Suspended(s), delay, now).state == Run
  {
  }

  /**
   * A power Suspend event is Suspend(), a power Resume event is Resume(100 ms);
   * any other mode leaves the schedule alone.
   */
  lemma PowerEventTransition(s: Schedule, mode: PowerModes.PowerMode, now: real)
    ensures mode == PowerModes.Suspend ==> AfterPowerEvent(s, mode, now) == Suspended(s)
    ensures mode == PowerModes.Resume ==> AfterPowerEvent(s, mode, now) == Resumed(s, PowerResumeDelay, now)
    ensures mode != PowerModes.Suspend && mode != PowerModes.Resume ==> AfterPowerEvent(s, mode, now) == s
    ensures mode == PowerModes.Resume && s.state == TimerState.Suspend ==>
      AfterPowerEvent(s, mode, now).state == Run && AfterPowerEvent(s, mode, now).wait >= PowerResumeDelay
  {
  }

  /** Reset moves Next to now + Interval and re-times the wait, without touching State or LastPublished. */
  lemma ResetTransition(s: Schedule, now: real)
    ensures var o := ResetAt(s, now);
      && o.ok == (s.interval > 0.0)
      && o.schedule.next == now + s.interval
      && o.schedule.state == s.state && o.schedule.lastPublished == s.lastPublished
      && o.schedule.armed == s.armed && o.schedule.interval == s.interval
      && (o.ok ==> o.schedule.wait == s.interval)
      && (!o.ok ==> o.schedule.wait == s.wait)
  {
  }

  /** Setting Interval to its current value changes nothing; a new value is stored and the timer reset. */
  lemma IntervalSetterTransition(s: Schedule, value: real, now: real)
    ensures s.interval == value ==> IntervalSet(s, value, now) == Outcome(s, true)
    ensures s.interval != value ==>
      && IntervalSet(s, value, now).schedule.interval == value
      && IntervalSet(s, value, now) == ResetAt(s.(interval := value), now)
  {
  }

  /** Which state an action leaves a running timer in. */
  function StateAfter(e: Effect): TimerState
  {
    match e
    case Completes => Run
    case Throws => Run
    case StopsTimer => TimerState.Stop
    case SuspendsTimer => TimerState.Suspend
  }

  /**
   * A round started while running invokes the actions in order and stops
   * right after the first one that stops, suspends or throws: every action
   * before the last one invoked completed normally, and the round ended early
   * only because the last one invoked did not. Only State and the one-shot
   * timer's Enabled flag can change.
   */
  lemma {:induction false} RoundStopsAtFirstHalt(s: Schedule, effects: seq<Effect>)
    requires s.state == Run
    ensures var r := Round(s, effects);
      && r.invoked <= |effects|
      && (r.invoked == 0 <==> |effects| == 0)
      && (forall i :: 0 <= i < r.invoked - 1 ==> effects[i] == Completes)
      && (0 < r.invoked < |effects| ==> effects[r.invoked - 1] != Completes)
      && (r.failed <==> 0 < r.invoked && effects[r.invoked - 1] == Throws)
      && (0 < r.invoked ==> r.schedule.state == StateAfter(effects[r.invoked - 1]))
      && r.schedule.(state := s.state, armed := s.armed) == s
    decreases |effects|
  {
    if |effects| > 0 {
      var rest := effects[1..];
      match effects[0]
      case Throws =>
      case Completes =>
        RoundStopsAtFirstHalt(s, rest);
        var r := Round(s, rest);
        forall i | 0 <= i < r.invoked ensures effects[i] == Completes {
          if i > 0 {
            assert effects[i] == rest[i - 1];
          }
        }
      case StopsTimer =>
        RoundSkippedUnlessRunning(Stopped(s), rest);
      case SuspendsTimer =>
        RoundSkippedUnlessRunning(Suspended(s), rest);
    }
  }

  lemma RoundSkippedUnlessRunning(s: Schedule, effects: seq<Effect>)
    requires s.state != Run
    ensures Round(s, effects) == RoundResult(s, 0, false)
  {
  }

  /** A tick that finds the timer not running leaves the one-shot timer disabled and changes nothing else. */
  lemma TickSkippedUnlessRunning(s: Schedule, signalTime: real, finishedAt: real, effects: seq<Effect>)
    requires s.state != Run
    ensures Tick(s, signalTime, finishedAt, effects) == RoundResult(s.(armed := false), 0, false)
  {
  }

  /**
   * After every round that was not skipped, however it ended, LastPublished
   * is the signal time and the one-shot timer is re-armed by the drift rule:
   * at least 1 ms, at least a tenth of the interval, and the rest of the
   * interval when that is longer.
   */
  lemma TickRearms(s: Schedule, signalTime: real, finishedAt: real, effects: seq<Effect>)
    requires s.state == Run
    ensures var t := Tick(s, signalTime, finishedAt, effects).schedule;
      && t.armed
      && t.lastPublished == signalTime && t.interval == s.interval
      && t.wait == NextWait(s.interval, finishedAt - signalTime)
      && t.wait >= 1.0 && t.wait >= s.interval / 10.0
      && t.wait >= s.interval - (finishedAt - signalTime)
      && t.next == finishedAt + t.wait
  {
    RoundStopsAtFirstHalt(s.(armed := false, lastPublished := signalTime), effects);
  }

  /**
   * When the round took at most what the drift rule lets it, the next round
   * is due exactly one interval after this one's signal time.
   */
  lemma CadencePreserved(s: Schedule, signalTime: real, finishedAt: real, effects: seq<Effect>)
    requires s.state == Run
    requires s.interval - (finishedAt - signalTime) >= s.interval / 10.0
    requires s.interval - (finishedAt - signalTime) >= 1.0
    ensures Tick(s, signalTime, finishedAt, effects).schedule.next == signalTime + s.interval
  {
    TickRearms(s, signalTime, finishedAt, effects);
  }

  /**
   * A subscriber that stops the timer ends the round, yet the timer is
   * re-armed; the tick that follows is skipped.
   */
  lemma StoppedInRoundIsRearmedThenSkipped(s: Schedule, signalTime: real, finishedAt: real, effects: seq<Effect>, k: nat,
                                           later: real, laterDone: real, laterEffects: seq<Effect>)
    requires s.state == Run && k < |effects|
    requires effects[k] == StopsTimer || effects[k] == SuspendsTimer
    requires forall i :: 0 <= i < k ==> effects[i] == Completes
    ensures var t := Tick(s, signalTime, finishedAt, effects);
      && t.invoked == k + 1 && !t.failed
      && t.schedule.state == StateAfter(effects[k]) && t.schedule.armed
      && Tick(t.schedule, later, laterDone, laterEffects) == RoundResult(t.schedule.(armed := false), 0, false)
  {
    RoundStopsAtFirstHalt(s.(armed := false, lastPublished := signalTime), effects);
  }

  /** The one-shot timer's Interval stays positive through every operation. */
  lemma TransitionsStayHealthy(s: Schedule, delay: real, now: real, mode: PowerModes.PowerMode, value: real,
                               signalTime: real, finishedAt: real, effects: seq<Effect>)
    requires Healthy(s)
    ensures Healthy(Initial(value, now))
    ensures Healthy(Started(s, delay, now)) && Healthy(Stopped(s)) && Healthy(Suspended(s))
    ensures Healthy(Resumed(s, delay, now)) && Healthy(AfterPowerEvent(s, mode, now))
    ensures Healthy(ResetAt(s, now).schedule) && Healthy(IntervalSet(s, value, now).schedule)
    ensures Healthy(Tick(s, signalTime, finishedAt, effects).schedule)
  {
    if s.state == Run {
      TickRearms(s, signalTime, finishedAt, effects);
    }
  }

  /** Every transition that arms the one-shot timer sets Next to a moment after `now`. */
  lemma ArmedDeadlineInFuture(s: Schedule, delay: real, now: real, signalTime: real, effects: seq<Effect>)
    ensures s.state != Run ==> Started(s, delay, now).next > now
    ensures s.state == TimerState.Suspend ==> Resumed(s, delay, now).next > now
    ensures s.state == Run ==> Tick(s, signalTime, now, effects).schedule.next > now
  {
    if s.state == Run {
      TickRearms(s, signalTime, now, effects);
    }
  }

  // ---------------------------------------------------------------------------
  // The discrepancy in Resume (lines 393-409) and its correction.

  /**
   * As written, Start(TimeSpan.Zero) on a suspended timer whose deadline has
   * passed asks the one-shot timer for a wait of zero, which it rejects after
   * State has become Run: the timer is left running but disarmed, and Start
   * can no longer arm it.
   */
  lemma ZeroDelayResumeAsWrittenStalls(s: Schedule, now: real, anyDelay: real)
    requires s.state == TimerState.Suspend && !s.armed && s.next <= now
    ensures var o := ResumedAsWritten(s, 0.0, now);
      && !o.ok
      && o.schedule.state == Run && !o.schedule.armed
      && Started(o.schedule, anyDelay, now) == o.schedule
  {
  }

  /** The corrected Resume always arms a wait the one-shot timer accepts, and schedules Next after `now`. */
  lemma ResumeAlwaysArms(s: Schedule, delay: real, now: real)
    requires s.state == TimerState.Suspend
    ensures var r := Resumed(s, delay, now);
      r.state == Run && r.armed && r.wait >= 1.0 && r.next > now
    ensures ResumedAsWritten(s, delay, now).ok ==> Resumed(s, delay, now).state == ResumedAsWritten(s, delay, now).schedule.state
  {
  }

  /** Where the code as written does not throw, the corrected Resume behaves the same unless the wait was under 1 ms. */
  lemma ResumeCorrectionAgreesOtherwise(s: Schedule, delay: real, now: real)
    requires s.state == TimerState.Suspend
    requires Max(s.next - now, delay) >= 1.0
    ensures ResumedAsWritten(s, delay, now) == Outcome(Resumed(s, delay, now), true)
  {
  }
}
