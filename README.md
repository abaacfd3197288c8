# Cube.Core: wakeable timer, power monitor and small utilities, in Dafny

This project models the logic at the heart of the Cube.Core library:

- **WakeableTimer** (module `Timers`). It is a periodic timer with four states: Run, Stop, Suspend and Unknown.
  - It runs its subscribed actions in order on every tick.
  - It re-arms a one-shot system timer after each round, using a drift rule.
  - It suspends and resumes itself when the machine sleeps and wakes.
  - Its transitions are functions on a `Schedule` value. The class `WakeableTimer` changes its fields in place and proves each method equal to its transition.
- **Power** (module `PowerMonitor`). A `PowerModeContext` holds the current power mode and can be set to ignore `StatusChange`. The static `Power` class forwards changes of that mode to every timer as the ModeChanged event. Its `Configure` can swap in another context.
- **ObservableValue.SetProperty** (module `Observable`). This is the compare, assign, then notify setter. `PowerModeContext` derives from `ObservableProperty`, whose setter the model takes to be the same.
- **LooseArguments** (module `LooseArgs`). A command-line parser that sorts tokens into positional arguments and `-option value` pairs.
- **SoftwareVersion.ToString** (module `SoftwareVersions`). It renders one to four version components, then a suffix.
- **Clamp / LastIndex** (module `Collections`). Index helpers for lists.

Modelling conventions:

- Times are `real` milliseconds counted from `DateTime.MinValue`.
- `now`, a tick's signal time and the moment a round finished are parameters.
- The one-shot `System.Timers.Timer` inside the wakeable timer becomes two fields:
  - `armed` is its `Enabled`.
  - `wait` is its `Interval`.
- A subscriber's behaviour during a round is an `Effect`: it completes, stops the timer, suspends it, or throws.
- A null C# string or list is `Option.None`.

## Model

| member | source | states |
|---|---|---|
| Collections.LastIndex | Libraries/Operations/Collections.cs:151-152 | a null or empty list gives 0; a non-empty list gives Count − 1 |
| Collections.Clamp | Libraries/Operations/Collections.cs:139-140 | the result lies in [0, LastIndex]; an index in [0, Count) is returned unchanged; a negative index gives 0; an index ≥ Count gives LastIndex |
| Collections.ClampIsValidIndex | Libraries/Operations/Collections.cs:139-140 | on a non-empty list the clamped index can be used to index it |
| Collections.ClampIdempotent | Libraries/Operations/Collections.cs:139-140 | clamping twice equals clamping once |
| SoftwareVersions.IntToString | Libraries/SoftwareVersion.cs:140 | an integer's decimal text is non-empty, contains no dot, and starts with '-' exactly when the integer is negative |
| SoftwareVersions.NatToStringRoundTrip | Libraries/SoftwareVersion.cs:140 | reading back the decimal digits of a natural number gives the number |
| SoftwareVersions.IntToStringRoundTrip | Libraries/SoftwareVersion.cs:140 | an integer's text is its decimal digits with no leading zero ("0" for zero), preceded by '-' exactly when it is negative; reading the digits back gives the integer |
| SoftwareVersions.Shown | Libraries/SoftwareVersion.cs:141-149 | the number of components shown is Digit clamped to 1..4 |
| SoftwareVersions.CreateVersion | Libraries/SoftwareVersion.cs:134-151 | the version part is empty exactly when Number is null, and otherwise starts with Major |
| SoftwareVersions.ToString | Libraries/SoftwareVersion.cs:114-119 | the text is the version part followed by the suffix, or by nothing when the suffix is null |
| SoftwareVersions.JoinDots | Libraries/SoftwareVersion.cs:140-150 | k dot-joined numbers hold exactly k − 1 dots |
| SoftwareVersions.CreateVersionIsJoin | Libraries/SoftwareVersion.cs:134-151 | with a Number, the version text is the first min(max(Digit,1),4) components joined by dots |
| SoftwareVersions.VersionDotCount | Libraries/SoftwareVersion.cs:138-150 | with a Number, the version text has min(max(Digit,1),4) − 1 dots |
| SoftwareVersions.VersionByDigit | Libraries/SoftwareVersion.cs:140-150 | Digit ≤ 1 gives "Major", 2 gives "Major.Minor", 3 gives "Major.Minor.Build", ≥ 4 gives all four |
| SoftwareVersions.NullNumberIsSuffixOnly | Libraries/SoftwareVersion.cs:114-137 | without a Number, ToString is the suffix alone |
| SoftwareVersions.SuffixAppended | Libraries/SoftwareVersion.cs:114-119 | the suffix is appended verbatim exactly when it is non-empty |
| SoftwareVersions.DefaultToString | Libraries/SoftwareVersion.cs:77-119 | the defaults (1.0.0.0, Digit 3, empty suffix) render as "1.0.0" |
| Observable.ObservableValue.constructor | Libraries/Settings/ObservableValue.cs:55 | a new object has raised no event |
| Observable.ObservableValue.OnPropertyChanged | Libraries/Settings/ObservableValue.cs:85-86 | raises one PropertyChanged with the given name |
| Observable.ObservableValue.SetPropertyWith | Libraries/Settings/ObservableValue.cs:114-121 | if the comparer finds field equal to value, the field is kept, no event is raised and the result is false; otherwise the field becomes value, exactly one event with the caller's name is raised and the result is true |
| Observable.ObservableValue.SetProperty | Libraries/Settings/ObservableValue.cs:101-103 | with the default comparer: true exactly when the value differs; the field ends equal to value; one event when changed |
| Observable.ChangedIffFieldChanged | Libraries/Settings/ObservableValue.cs:117-120 | with the default comparer, the result is true exactly when the stored field changed |
| Observable.AssignTwice | Libraries/Settings/ObservableValue.cs:114-121 | assigning the same value twice reports a change, and notifies, at most once |
| LooseArgs.Trimmed | Libraries/LooseArguments.cs:180-190 | the key is a suffix of the token; every removed character is the prefix or white space; the key does not start with either |
| LooseArgs.LooseArguments.constructor | Libraries/LooseArguments.cs:54-57 | a new parser holds its prefix (the source defaults it to `DefaultPrefix`, the character `-`), no positional argument and no option |
| LooseArgs.LooseArguments.Parsing | Libraries/LooseArguments.cs:68-72 | the parsing constructor's state is the specification fold over the tokens |
| LooseArgs.LooseArguments.Parse | Libraries/LooseArguments.cs:102-124 | the loop leaves positionals and options equal to the left-to-right fold `Parsed` over the tokens |
| LooseArgs.LooseArguments.Get | Libraries/LooseArguments.cs:140-141 | returns the positional arguments |
| LooseArgs.LooseArguments.Contains | Libraries/LooseArguments.cs:164-165 | true exactly when the key was stored |
| LooseArgs.LooseArguments.GetOption | Libraries/LooseArguments.cs:152-153 | a missing key gives null; a stored key gives its stored value, which may itself be null |
| LooseArgs.LooseArguments.TrimLeft | Libraries/LooseArguments.cs:180-190 | the index loop returns exactly `Trimmed` of the token |
| LooseArgs.LooseArguments.UpdateOption | Libraries/LooseArguments.cs:201-205 | the key is inserted or overwritten with the value; nothing else changes |
| LooseArgs.StepsAppend | Libraries/LooseArguments.cs:106-121 | parsing a + b is parsing b from the state that a leaves |
| LooseArgs.SkipsNullOrEmpty | Libraries/LooseArguments.cs:108 | a null or empty token changes neither the positionals, the options nor the pending option |
| LooseArgs.StepsKeepGoodKeys | Libraries/LooseArguments.cs:110-113 | every stored key and the pending option stay non-empty and trimmed |
| LooseArgs.ParsedKeysAreTrimmed | Libraries/LooseArguments.cs:102-124 | after Parse, no key is empty or starts with the prefix or white space |
| LooseArgs.OptionTakesNextPlainToken | Libraries/LooseArguments.cs:110-119 | an option followed by a plain token takes that token as its value, and the token is not positional |
| LooseArgs.OptionBeforeOptionIsNull | Libraries/LooseArguments.cs:110-113 | a pending option followed by another option token is stored with a null value |
| LooseArgs.OptionAtEndIsNull | Libraries/LooseArguments.cs:123 | a pending option at the end of input is stored with a null value |
| LooseArgs.KeepsKey | Libraries/LooseArguments.cs:106-124 | an option already stored and not pending keeps its value through any tokens that do not open it again |
| LooseArgs.LastValueWins | Libraries/LooseArguments.cs:115-119 | an option token followed by a plain token stores that value under its key, whatever precedes the pair and whatever follows it, as long as no later token opens the same option again: a repeated option keeps its last value |
| LooseArgs.EmptyOptionIsDropped | Libraries/LooseArguments.cs:110-120 | an option token made only of prefix and white space is never stored, and the next plain token becomes positional |
| LooseArgs.PositionalsInInputOrder | Libraries/LooseArguments.cs:106-121 | the positionals added are a subsequence of the input tokens, in input order |
| LooseArgs.PlainTokensArePositional | Libraries/LooseArguments.cs:106-121 | with no pending option, a run of non-prefixed tokens appends exactly its non-empty tokens to the positionals |
| Timers.NextWait | Libraries/WakeableTimer.cs:466-468 | the drift wait is ≥ 1 ms, ≥ a tenth of the interval, ≥ interval − elapsed, and equal to one of the three |
| Timers.RemoveFirst | Libraries/WakeableTimer.cs:283 | removing an absent action changes nothing; removing a present one shortens the list by one |
| Timers.RemoveFirstMultiset | Libraries/WakeableTimer.cs:283 | removal takes exactly one occurrence away |
| Timers.RemoveFirstKeepsOrder | Libraries/WakeableTimer.cs:283 | the remaining actions keep their order |
| Timers.UnsubscribeUndoesSubscribe | Libraries/WakeableTimer.cs:280-284 | for an action not already subscribed, disposing the handle right after subscribing restores the list; with duplicates, RemoveFirstMultiset and RemoveFirstKeepsOrder say which occurrence goes |
| Timers.RoundInvokedBound | Libraries/WakeableTimer.cs:375-382 | a round invokes at most as many actions as are subscribed |
| Timers.WakeableTimer.constructor | Libraries/WakeableTimer.cs:70 | a default timer has a 1 s interval, is stopped, never published, has Next = now and no subscriber |
| Timers.WakeableTimer.WithInterval | Libraries/WakeableTimer.cs:83-90 | the same, with the given interval |
| Timers.WakeableTimer.Start | Libraries/WakeableTimer.cs:220-232 | the new state is `Started` of the old one; from Suspend this goes through the corrected `Resumed` (see Findings) |
| Timers.WakeableTimer.StartNow | Libraries/WakeableTimer.cs:207 | Start() is Start with zero delay |
| Timers.WakeableTimer.Stop | Libraries/WakeableTimer.cs:243-248 | the new state is `Stopped` of the old one |
| Timers.WakeableTimer.Suspend | Libraries/WakeableTimer.cs:259-265 | the new state is `Suspended` of the old one |
| Timers.WakeableTimer.Resume | Libraries/WakeableTimer.cs:393-409 | the new state is the corrected `Resumed` of the old one (see Findings) |
| Timers.WakeableTimer.Subscribe | Libraries/WakeableTimer.cs:280-282 | the action is appended to the subscriptions |
| Timers.WakeableTimer.Unsubscribe | Libraries/WakeableTimer.cs:283 | the first occurrence of the action is removed |
| Timers.WakeableTimer.Reset | Libraries/WakeableTimer.cs:314-318 | the new state and the exception flag are `ResetAt` of the old state |
| Timers.WakeableTimer.SetInterval | Libraries/WakeableTimer.cs:105-113 | the new state is `IntervalSet` of the old one |
| Timers.WakeableTimer.UpdateState | Libraries/WakeableTimer.cs:426-437 | the new state is `AfterPowerEvent` of the old one; a power Resume goes through the corrected `Resumed` (see Findings) |
| Timers.WakeableTimer.OnPowerModeChanged | Libraries/WakeableTimer.cs:188-192 | updates the state as UpdateState does, then re-raises PowerModeChanged with the same mode |
| Timers.WakeableTimer.Publish | Libraries/WakeableTimer.cs:375-382 | the loop runs exactly the actions and leaves exactly the state that the specification `Round` gives; the actions run are a prefix of the subscriptions |
| Timers.WakeableTimer.WhenPublished | Libraries/WakeableTimer.cs:455-474 | the one-shot timer is disabled on firing (AutoReset is false, line 87); the new state is `Tick` of the old one; the actions run are the first `invoked` subscriptions |
| Timers.NewTimerIsStopped | Libraries/WakeableTimer.cs:125-151 | a new timer is in Stop, with LastPublished = MinValue and no armed wait; Start moves it to Run |
| Timers.StartTransition | Libraries/WakeableTimer.cs:220-232 | Start is a no-op in Run and is the corrected Resume from Suspend (see Findings); from Stop or Unknown it arms a wait of max(delay, 1 ms), sets Next = now + wait and keeps LastPublished and Interval |
| Timers.StopTransition | Libraries/WakeableTimer.cs:243-248 | Stop is idempotent, ends in Stop, disarms, and keeps Next, LastPublished and Interval |
| Timers.SuspendTransition | Libraries/WakeableTimer.cs:259-265 | Suspend acts only from Run: it disarms and sets Suspend with Next untouched |
| Timers.ResumeTransition | Libraries/WakeableTimer.cs:393-409 | Resume acts only from Suspend: it sets Run and arms a wait ≥ Next − now and ≥ delay (and ≥ 1 ms, see Findings), with Next = now + wait |
| Timers.SuspendResumeKeepsDeadline | Libraries/WakeableTimer.cs:393-409 | suspending and resuming before the deadline, with a shorter delay, keeps the original Next |
| Timers.PowerEventTransition | Libraries/WakeableTimer.cs:426-437 | power Resume is Resume(100 ms); power Suspend is Suspend(); any other mode changes nothing |
| Timers.ResetTransition | Libraries/WakeableTimer.cs:314-318 | Reset sets Next = now + Interval and wait = Interval; it keeps State, LastPublished and Enabled; it throws exactly when Interval ≤ 0 |
| Timers.IntervalSetterTransition | Libraries/WakeableTimer.cs:105-113 | setting the current value changes nothing; a new value is stored and Reset follows |
| Timers.RoundStopsAtFirstHalt | Libraries/WakeableTimer.cs:375-382 | actions run in order; every one before the last invoked completed; the round ends early only after an action that stopped, suspended or threw; it fails exactly when the last invoked threw; only State and Enabled can change |
| Timers.RoundSkippedUnlessRunning | Libraries/WakeableTimer.cs:379 | a round that finds the timer not running invokes nothing |
| Timers.TickSkippedUnlessRunning | Libraries/WakeableTimer.cs:455-457 | a tick while not running leaves the fired one-shot timer disabled and changes nothing else |
| Timers.TickRearms | Libraries/WakeableTimer.cs:455-474 | after every round that was not skipped, including one ended by an exception, LastPublished is the signal time and the timer is re-armed with the drift wait, Next = finish time + wait |
| Timers.CadencePreserved | Libraries/WakeableTimer.cs:464-470 | a round short enough leaves the next one due exactly one interval after this one's signal time |
| Timers.StoppedInRoundIsRearmedThenSkipped | Libraries/WakeableTimer.cs:455-474 | when subscriber k stops or suspends the timer after k subscribers completed, the round invokes exactly k + 1 actions and ends in Stop or Suspend, the timer is re-armed anyway, and the next tick is skipped and leaves it disabled |
| Timers.TransitionsStayHealthy | Libraries/WakeableTimer.cs:220-232 | every operation keeps the one-shot timer's Interval positive |
| Timers.ArmedDeadlineInFuture | Libraries/WakeableTimer.cs:220-232 | every operation that arms the timer sets Next after `now` |
| Timers.ZeroDelayResumeAsWrittenStalls | Libraries/WakeableTimer.cs:393-409 | as written, Start(0) on a suspended timer past its deadline throws after setting Run; the timer stays disarmed and Start can no longer arm it |
| Timers.ResumedAsWritten | Libraries/WakeableTimer.cs:393-409 | as written: only from Suspend; State becomes Run and Next = now + max(Next − now, delay); the one-shot timer accepts the wait, and is armed, exactly when that wait is positive |
| Timers.ResumeAlwaysArms | Libraries/WakeableTimer.cs:393-409 | the corrected Resume always arms a wait ≥ 1 ms and sets Next after now |
| Timers.ResumeCorrectionAgreesOtherwise | Libraries/WakeableTimer.cs:393-409 | when the written wait is at least 1 ms, the corrected Resume is the written one |
| PowerMonitor.ModeAssigned | Libraries/Power.cs:68-72 | the setter reports a change exactly when the value differs and is not an ignored StatusChange; it stores the value exactly then |
| PowerMonitor.Detached | Libraries/Power.cs:182-184 | removing a handler that is not attached changes nothing; otherwise one attachment goes |
| PowerMonitor.PowerModeContext.constructor | Libraries/Power.cs:47-50 | the mode starts at the enum default and goes through the setter with IgnoreStatusChanged already true |
| PowerMonitor.PowerModeContext.SetMode | Libraries/Power.cs:65-73 | Mode and the event follow `ModeAssigned`; a "Mode" event is raised exactly when Mode changed |
| PowerMonitor.PowerModeContext.SetIgnoreStatusChanged | Libraries/Power.cs:85-89 | the flag takes the value; an "IgnoreStatusChanged" event is raised exactly when it changed |
| PowerMonitor.Power.constructor | Libraries/Power.cs:121-124 | the initial context is in Resume with IgnoreStatusChanged set, WhenChanged is attached once, and nothing has been published |
| PowerMonitor.Power.Mode | Libraries/Power.cs:142 | Power.Mode reads the current context's Mode |
| PowerMonitor.Power.Configure | Libraries/Power.cs:177-187 | the context is replaced, so Power.Mode reads c.Mode; the old one loses its handler; the new one ends with exactly one handler, even if it was configured before; neither context's Mode or IgnoreStatusChanged changes |
| PowerMonitor.Power.NewTimer | Libraries/WakeableTimer.cs:83-90 | a new timer is subscribed to ModeChanged at construction |
| PowerMonitor.Power.WhenChanged | Libraries/Power.cs:203-207 | only a "Mode" change raises ModeChanged, carrying the current Mode, and every subscribed timer handles it |
| PowerMonitor.Power.SetMode | Libraries/Power.cs:65-73 | setting the context's Mode raises one "Mode" event and reaches ModeChanged and every timer exactly when Mode changed; IgnoreStatusChanged and every timer's subscriptions stay as they were |
| PowerMonitor.Power.SetIgnoreStatusChanged | Libraries/Power.cs:85-89 | toggling IgnoreStatusChanged raises its own event but never reaches ModeChanged or any timer, whose state and subscriptions stay as they were |
| PowerMonitor.IgnoredStatusChangeIsSilent | Libraries/Power.cs:70 | while IgnoreStatusChanged holds, a StatusChange is neither stored nor announced |
| PowerMonitor.StatusChangeStoredWhenNotIgnored | Libraries/Power.cs:70-71 | with IgnoreStatusChanged off, a StatusChange is stored |
| PowerMonitor.RepeatedModeIsSilent | Libraries/Power.cs:71 | setting the same mode a second time raises nothing |
| PowerMonitor.InitialContextMode | Libraries/Power.cs:47-73 | a context created with StatusChange keeps the enum default; any other mode is stored |
| PowerMonitor.ModeChangeReachesTimers | Libraries/Power.cs:203-207 | an announced Suspend suspends a running timer; an announced Resume resumes a suspended one with at least 100 ms to go |

## Left out

- Real time is left out. The clock, the one-shot system timer's thread and `async`/`await` are absent; times are parameters. The two `DateTime.Now` reads at the end of a round are one `finishedAt`. `TimeSpan` rounding to whole ticks is not modelled.
- Concurrency is left out: the `lock` in Configure, and subscribers or power events arriving during a round. Each operation runs to completion.
- Dispose, the finalizer and logging are left out. They have no effect on the modelled state.
- The operating system's PowerModeChanged hook (Libraries/Power.cs:126) becomes the call `Power.SetMode`.
- PowerMonitor.PowerModeContext: its base class `ObservableProperty` is not part of this model. The model assumes its SetProperty and OnPropertyChanged behave like Libraries/Settings/ObservableValue.cs:101-121 and deliver PropertyChanged synchronously, so it reuses `ObservableValue`.
- Timers.WakeableTimer.Publish: a subscriber's behaviour is one of four effects. An action that changes the subscription list during the round, which makes `foreach` throw, is not modelled.
- Timers.WakeableTimer.WhenPublished: an exception from a subscriber is only recorded. The `async void` handler rethrows it on the thread pool, and that is not modelled.
- Subscribe(Action), the overload at Libraries/WakeableTimer.cs:299, wraps the action in a task. It is not modelled separately.
- Timers: the one-shot timer also rejects an Interval above Int32.MaxValue ms. Only the "not positive" case is modelled.
- LooseArgs: a null option name passed to Get(string) or Contains throws in .NET. The model has no null key.
- LooseArgs.LooseArguments.GetOption: it returns null also for an option stored with a null value, so a null result does not mean Contains is false; the contract gives null for a missing key and the stored value, possibly null, otherwise.
- Collections: `Diff` and `ToObservable` are not part of this model. They delegate to code that cannot be seen.
- SoftwareVersions: integers are unbounded rather than Int32. Integer formatting is invariant-culture decimal.
- Timers.WakeableTimer.WhenPublished: the re-arm at Libraries/WakeableTimer.cs:464-472 is not guarded by State. So the timer is re-armed after every round that was not skipped, even when a subscriber stopped or suspended it. StoppedInRoundIsRearmedThenSkipped states the consequence.

## Findings

| source | as written | input that shows it | evidently intended | confidence | as-written member | corrected member |
|---|---|---|---|---|---|---|
| Libraries/WakeableTimer.cs:393-409 | Resume arms a wait of max(Next − now, delay) with no lower bound. It assigns State = Run and Next before `_core.Interval`, whose setter throws ArgumentException for a value ≤ 0. | `Start()` (delay 0) on a Suspended timer whose Next is not after now. State becomes Run, the timer is never armed, and every later Start returns at once because State is Run. | The same 1 ms floor Start applies (line 226), so Resume always arms. | not executed | Timers.ResumedAsWritten, Timers.ZeroDelayResumeAsWrittenStalls | Timers.Resumed, Timers.ResumeAlwaysArms |
