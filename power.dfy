/**
 * The process-wide power state (Libraries/Power.cs): a PowerModeContext
 * holding the current mode, and the static Power class that listens to the
 * context and re-raises a change of its Mode as the ModeChanged event, to
 * which every WakeableTimer subscribes when it is created.
 *
 * The static class becomes one `Power` object. The context's PropertyChanged
 * subscribers are counted by `handlers`, the number of times Power's
 * WhenChanged handler is attached to that context; ModeChanged's
 * subscribers are the timers in `listeners` plus whatever else the program
 * attached, which `published` stands for: the modes carried by every
 * ModeChanged event raised so far.
 */
module PowerMonitor {
  import opened PowerModes
  import opened Observable
  import Timers

  const ModeName := "Mode"
  const IgnoreName := "IgnoreStatusChanged"

  /**
   * The Mode setter's decision: a StatusChange is dropped while
   * IgnoreStatusChanged holds; any other value goes through SetProperty.
   */
  function ModeAssigned(ignore: bool, mode: PowerMode, value: PowerMode): (r: Assignment<PowerMode>)
    ensures r.changed <==> r.stored != mode
    ensures r.changed <==> value != mode && !(ignore && value == StatusChange)
    ensures r.stored == mode || r.stored == value
  {
    if ignore && value == StatusChange then Assignment(mode, false)
    else Assign(mode, value, DefaultEquals)
  }

  /** Removing a delegate that is not attached leaves the event unchanged. */
  function Detached(handlers: nat): (r: nat)
    ensures handlers == 0 ==> r == 0
    ensures handlers > 0 ==> r + 1 == handlers
  {
    if handlers == 0 then 0 else handlers - 1
  }

  predicate Distinct(timers: seq<Timers.WakeableTimer>)
  {
    forall i, j :: 0 <= i < j < |timers| ==> timers[i] != timers[j]
  }

  class PowerModeContext {
    var mode: PowerMode
    var ignore: bool
    /** The PropertyChanged side of the ObservableProperty base class. */
    const notifier: ObservableValue
    /** How many times Power's WhenChanged handler is attached to PropertyChanged. */
    var handlers: nat

    /**
     * The mode starts at the enum's default and is then assigned through the
     * setter, with IgnoreStatusChanged already true: a context created with
     * StatusChange keeps the default.
     */
    constructor (m: PowerMode)
      ensures mode == ModeAssigned(true, Undefined, m).stored
      ensures ignore && handlers == 0
      ensures fresh(notifier)
      ensures notifier.raised == if ModeAssigned(true, Undefined, m).changed then [ModeName] else []
    {
      mode := Undefined;
      ignore := true;
      notifier := new ObservableValue();
      handlers := 0;
      new;
      var _ := SetMode(m);
    }

    /** The Mode setter. */
    method SetMode(value: PowerMode) returns (changed: bool)
      modifies this, notifier
      ensures Assignment(mode, changed) == ModeAssigned(old(ignore), old(mode), value)
      ensures notifier.raised == old(notifier.raised) + (if changed then [ModeName] else [])
      ensures ignore == old(ignore) && handlers == old(handlers)
    {
      if ignore && value == StatusChange {
        changed := false;
        return;
      }
      mode, changed := notifier.SetProperty(mode, value, ModeName);
    }

    /** The IgnoreStatusChanged setter. */
    method SetIgnoreStatusChanged(value: bool) returns (changed: bool)
      modifies this, notifier
      ensures ignore == value
      ensures changed <==> old(ignore) != value
      ensures notifier.raised == old(notifier.raised) + (if changed then [IgnoreName] else [])
      ensures mode == old(mode) && handlers == old(handlers)
    {
      ignore, changed := notifier.SetProperty(ignore, value, IgnoreName);
    }
  }

  class Power {
    var context: PowerModeContext
    /** The timers subscribed to ModeChanged, in subscription order. */
    var listeners: seq<Timers.WakeableTimer>
    /** The mode carried by each ModeChanged event raised so far. */
    var published: seq<PowerMode>

    /** WhenChanged is attached to the current context exactly once, and no timer is subscribed twice. */
    predicate Valid()
      reads this, context
    {
      context.handlers == 1 && Distinct(listeners)
    }

    /** The static constructor: a context in Resume, with WhenChanged attached after its first assignment. */
    constructor ()
      ensures Valid() && fresh(context) && fresh(context.notifier)
      ensures Mode() == Resume && context.ignore
      ensures listeners == [] && published == []
    {
      var c := new PowerModeContext(Resume);
      c.handlers := c.handlers + 1;
      context := c;
      listeners := [];
      published := [];
    }

    function Mode(): PowerMode
      reads this, context
    {
      context.mode
    }

    /**
     * Configure: detach WhenChanged from the old context, take the new one,
     * detach it there (in case it was attached) and attach it once.
     */
    method Configure(c: PowerModeContext)
      modifies this, context, c
      ensures context == c
      ensures old(context) != c ==> old(context).handlers == Detached(old(context.handlers))
      ensures old(context) != c ==> c.handlers == Detached(old(c.handlers)) + 1
      ensures old(context) == c ==> c.handlers == Detached(Detached(old(c.handlers))) + 1
      ensures old(Valid()) && (old(context) == c || old(c.handlers) <= 1) ==> Valid()
      ensures listeners == old(listeners) && published == old(published)
      ensures c.mode == old(c.mode) && c.ignore == old(c.ignore)
      ensures old(context) != c ==> old(context).mode == old(context.mode) && old(context).ignore == old(context.ignore)
    {
      context.handlers := Detached(context.handlers);
      context := c;
      context.handlers := Detached(context.handlers);
      context.handlers := context.handlers + 1;
    }

    /** The WakeableTimer constructor, which subscribes the new timer to ModeChanged. */
    method NewTimer(interval: real, now: real) returns (t: Timers.WakeableTimer)
      modifies this
      ensures fresh(t) && t.Snapshot() == Timers.Initial(interval, now)
      ensures t.subscriptions == [] && t.modeChanges == []
      ensures listeners == old(listeners) + [t]
      ensures context == old(context) && published == old(published)
      ensures old(Valid()) ==> Valid()
    {
      t := new Timers.WakeableTimer.WithInterval(interval, now);
      listeners := listeners + [t];
    }

    /**
     * WhenChanged: a PropertyChanged for anything but Mode is ignored; for
     * Mode, ModeChanged is raised with the current mode, and every
     * subscribed timer handles it.
     */
    method WhenChanged(name: string, now: real)
      requires Distinct(listeners)
      modifies this, listeners
      ensures context == old(context) && listeners == old(listeners)
      ensures name == ModeName ==> published == old(published) + [Mode()]
      ensures name != ModeName ==> published == old(published)
      ensures forall i :: 0 <= i < |listeners| ==>
        && listeners[i].Snapshot() == (if name == ModeName then Timers.AfterPowerEvent(old(listeners[i].Snapshot()), Mode(), now)
                                       else old(listeners[i].Snapshot()))
        && listeners[i].modeChanges == old(listeners[i].modeChanges) + (if name == ModeName then [Mode()] else [])
        && listeners[i].subscriptions == old(listeners[i].subscriptions)
    {
      if name != ModeName {
        return;
      }
      var m := context.mode;
      published := published + [m];
      var i := 0;
      while i < |listeners|
        invariant 0 <= i <= |listeners|
        invariant context == old(context) && listeners == old(listeners) && published == old(published) + [m]
        invariant forall j :: 0 <= j < i ==>
          && listeners[j].Snapshot() == Timers.AfterPowerEvent(old(listeners[j].Snapshot()), m, now)
          && listeners[j].modeChanges == old(listeners[j].modeChanges) + [m]
          && listeners[j].subscriptions == old(listeners[j].subscriptions)
        invariant forall j :: i <= j < |listeners| ==>
          && listeners[j].Snapshot() == old(listeners[j].Snapshot())
          && listeners[j].modeChanges == old(listeners[j].modeChanges)
          && listeners[j].subscriptions == old(listeners[j].subscriptions)
      {
        listeners[i].OnPowerModeChanged(m, now);
        i := i + 1;
      }
    }

    /**
     * Assigning the context's Mode, as the operating system's PowerModeChanged
     * handler does (and as a program that configured its own context may):
     * a mode change reaches ModeChanged and every timer; an ignored
     * StatusChange or an unchanged mode reaches nothing.
     */
    method SetMode(value: PowerMode, now: real) returns (changed: bool)
      requires Valid()
      modifies this, context, context.notifier, listeners
      ensures Valid() && context == old(context) && listeners == old(listeners)
      ensures changed == ModeAssigned(old(context.ignore), old(Mode()), value).changed
      ensures Mode() == ModeAssigned(old(context.ignore), old(Mode()), value).stored
      ensures context.ignore == old(context.ignore)
      ensures context.notifier.raised == old(context.notifier.raised) + (if changed then [ModeName] else [])
      ensures published == old(published) + (if changed then [Mode()] else [])
      ensures forall i :: 0 <= i < |listeners| ==>
        && listeners[i].Snapshot() == (if changed then Timers.AfterPowerEvent(old(listeners[i].Snapshot()), Mode(), now)
                                       else old(listeners[i].Snapshot()))
        && listeners[i].modeChanges == old(listeners[i].modeChanges) + (if changed then [Mode()] else [])
        && listeners[i].subscriptions == old(listeners[i].subscriptions)
    {
      changed := context.SetMode(value);
      if changed {
        WhenChanged(ModeName, now);
      }
    }

    /** Assigning the context's IgnoreStatusChanged: the PropertyChanged it raises is not about Mode, so nothing else happens. */
    method SetIgnoreStatusChanged(value: bool, now: real)
      requires Valid()
      modifies this, context, context.notifier, listeners
      ensures Valid() && context == old(context) && listeners == old(listeners)
      ensures context.ignore == value && Mode() == old(Mode())
      ensures context.notifier.raised == old(context.notifier.raised) + (if old(context.ignore) != value then [IgnoreName] else [])
      ensures published == old(published)
      ensures forall i :: 0 <= i < |listeners| ==>
        && listeners[i].Snapshot() == old(listeners[i].Snapshot())
        && listeners[i].modeChanges == old(listeners[i].modeChanges)
        && listeners[i].subscriptions == old(listeners[i].subscriptions)
    {
      var changed := context.SetIgnoreStatusChanged(value);
      if changed {
        WhenChanged(IgnoreName, now);
      }
    }
  }

  /** While IgnoreStatusChanged holds, a StatusChange is never stored and never announced. */
  lemma IgnoredStatusChangeIsSilent(mode: PowerMode)
    ensures ModeAssigned(true, mode, StatusChange) == Assignment(mode, false)
  {
  }

  /** Once IgnoreStatusChanged is off, a StatusChange is stored like any other mode. */
  lemma StatusChangeStoredWhenNotIgnored(mode: PowerMode)
    ensures ModeAssigned(false, mode, StatusChange).stored == StatusChange
  {
  }

  /** Assigning the same mode twice announces it at most once. */
  lemma RepeatedModeIsSilent(ignore: bool, mode: PowerMode, value: PowerMode)
    ensures var first := ModeAssigned(ignore, mode, value);
      ModeAssigned(ignore, first.stored, value) == Assignment(first.stored, false)
  {
  }

  /** A context created with StatusChange holds the enum's default; any other mode is stored. */
  lemma InitialContextMode(m: PowerMode)
    ensures m == StatusChange ==> ModeAssigned(true, Undefined, m).stored == Undefined
    ensures m != StatusChange ==> ModeAssigned(true, Undefined, m).stored == m
  {
  }

  /**
   * A power Suspend that changes the mode suspends every running timer; a
   * power Resume that changes it resumes every suspended timer with at least
   * 100 ms to go.
   */
  lemma ModeChangeReachesTimers(s: Timers.Schedule, ignore: bool, mode: PowerMode, value: PowerMode, now: real)
    requires ModeAssigned(ignore, mode, value).changed
    ensures value == Suspend && s.state == Timers.Run ==>
      Timers.AfterPowerEvent(s, ModeAssigned(ignore, mode, value).stored, now).state == Timers.TimerState.Suspend
    ensures value == Resume && s.state == Timers.TimerState.Suspend ==>
      var r := Timers.AfterPowerEvent(s, ModeAssigned(ignore, mode, value).stored, now);
      r.state == Timers.Run && r.wait >= Timers.PowerResumeDelay && r.next == now + r.wait
  {
    Timers.PowerEventTransition(s, ModeAssigned(ignore, mode, value).stored, now);
  }
}
