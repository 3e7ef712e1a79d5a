/**
 * The date-selection controller of `DatePickerInput`: the component's own
 * state (`internalShowDatePicker`, `tempDate`), the props its handlers read,
 * and the four handlers with the visibility setter they share. Every call
 * the component makes into the host (`onChange`, `onOpenChange`, `onBlur`)
 * is recorded, in order, as a `Call`.
 *
 * Each handler is one atomic transition: React schedules the state updates
 * it requests, and no handler reads back what it has just set, so applying
 * them at once is exact. The handlers are given first as functions from the
 * old state to an `Outcome`; the class `Controller` performs them step by
 * step and is proved to agree with those functions.
 */
module DatePicker {
  import opened Wrappers
  import opened Dates
  import opened DatePickerConfig

  /** The `type` of a native picker change event. */
  datatype EventType = Set | Dismissed | NeutralButtonPressed

  /** One call from the component into its host, with its argument. */
  datatype Call = OnChange(date: Date) | OnOpenChange(open: bool) | OnBlur

  /**
   * The props of the render whose handler runs, as far as handlers read
   * them: the host's `value`, `isOpen` (`None` when undefined), and whether
   * `onOpenChange` and `onBlur` were supplied. `onChange` is required.
   */
  datatype Props = Props(value: Option<Date>, isOpen: Option<bool>, hasOnOpenChange: bool, hasOnBlur: bool)

  /** The component's own state. */
  datatype Local = Local(internalShow: bool, tempDate: Date)

  /** The new own state after a handler, and the calls it made in order. */
  datatype Outcome = Outcome(local: Local, calls: seq<Call>)

  /** `useState(false)` and `useState(value || new Date())` on first render. */
  function Initial(value: Option<Date>, now: Date): (l: Local)
    ensures !l.internalShow
    ensures value.Some? ==> l.tempDate == value.value
    ensures value.None? ==> l.tempDate == now
  {
    Local(false, value.GetOr(now))
  }

  /** `showDatePicker`: the host's `isOpen` when defined, else the own flag. */
  function Shown(p: Props, l: Local): (shown: bool)
    ensures p.isOpen.Some? ==> shown == p.isOpen.value
    ensures p.isOpen.None? ==> shown == l.internalShow
  {
    match p.isOpen
    case Some(open) => open
    case None => l.internalShow
  }

  /** `setShowDatePicker(v)`: notify the host if it listens, else set the own flag. */
  function VisibilityWrite(p: Props, l: Local, v: bool): (o: Outcome)
    ensures o.local.tempDate == l.tempDate
    ensures p.hasOnOpenChange ==> o.local == l && o.calls == [OnOpenChange(v)]
    ensures !p.hasOnOpenChange ==> o.local.internalShow == v && o.calls == []
  {
    if p.hasOnOpenChange then Outcome(l, [OnOpenChange(v)]) else Outcome(l.(internalShow := v), [])
  }

  /** `if (onBlur) onBlur()`. */
  function Blur(p: Props): (calls: seq<Call>)
    ensures p.hasOnBlur <==> calls != []
    ensures forall i :: 0 <= i < |calls| ==> i == 0 && calls[i] == OnBlur
  {
    if p.hasOnBlur then [OnBlur] else []
  }

  /** `handleDateChange(event, date)`. */
  function ChangeTransition(platform: Platform, p: Props, l: Local, kind: EventType, date: Option<Date>): (o: Outcome)
    ensures platform == Android ==> o.local == VisibilityWrite(p, l, false).local
    ensures platform != Android ==> o.calls == [] && o.local == l.(tempDate := date.GetOr(l.tempDate))
  {
    if platform == Android then
      var closed := VisibilityWrite(p, l, false);
      var commit := if kind == Set && date.Some? then [OnChange(date.value)] else [];
      Outcome(closed.local, closed.calls + commit + Blur(p))
    else
      Outcome(if date.Some? then l.(tempDate := date.value) else l, [])
  }

  /** `confirmDateSelection()`. */
  function ConfirmTransition(p: Props, l: Local): (o: Outcome)
    ensures |o.calls| >= 1 && o.calls[0] == OnChange(l.tempDate)
    ensures o.local == VisibilityWrite(p, l, false).local
  {
    var closed := VisibilityWrite(p, l, false);
    Outcome(closed.local, [OnChange(l.tempDate)] + closed.calls + Blur(p))
  }

  /** `cancelDateSelection()`, with `now` standing for `new Date()`. */
  function CancelTransition(p: Props, l: Local, now: Date): (o: Outcome)
    ensures o.local.tempDate == p.value.GetOr(now)
    ensures o.local.internalShow == (if p.hasOnOpenChange then l.internalShow else false)
    ensures forall i :: 0 <= i < |o.calls| ==> !o.calls[i].OnChange?
  {
    var closed := VisibilityWrite(p, l.(tempDate := p.value.GetOr(now)), false);
    Outcome(closed.local, closed.calls + Blur(p))
  }

  /** `toggleDatePicker()`, with `now` standing for `new Date()`. */
  function ToggleTransition(p: Props, l: Local, now: Date): (o: Outcome)
    ensures Shown(p, l) ==> o.local == CancelTransition(p, l, now).local
    ensures !Shown(p, l) ==> o.local.tempDate == p.value.GetOr(now)
    ensures !Shown(p, l) ==> o.calls == (if p.hasOnOpenChange then [OnOpenChange(true)] else [])
    ensures forall i :: 0 <= i < |o.calls| ==> !o.calls[i].OnChange?
  {
    if Shown(p, l) then
      var cancelled := CancelTransition(p, l, now);
      Outcome(cancelled.local, cancelled.calls + Blur(p))
    else
      VisibilityWrite(p, l.(tempDate := p.value.GetOr(now)), true)
  }

  /** What the user or the native picker can do. */
  datatype Event = Change(kind: EventType, date: Option<Date>) | ConfirmPressed | CancelPressed | TogglePressed

  /** One handler invocation: the props of its render, the current moment, the event. */
  datatype Input = Input(props: Props, now: Date, event: Event)

  function Step(platform: Platform, l: Local, input: Input): Outcome {
    match input.event
    case Change(kind, date) => ChangeTransition(platform, input.props, l, kind, date)
    case ConfirmPressed => ConfirmTransition(input.props, l)
    case CancelPressed => CancelTransition(input.props, l, input.now)
    case TogglePressed => ToggleTransition(input.props, l, input.now)
  }

  /** Performs `step` on each input in turn, collecting the calls in order. */
  function RunSteps(step: (Local, Input) -> Outcome, l: Local, inputs: seq<Input>): Outcome
    decreases |inputs|
  {
    if inputs == [] then Outcome(l, [])
    else
      var first := step(l, inputs[0]);
      var rest := RunSteps(step, first.local, inputs[1..]);
      Outcome(rest.local, first.calls + rest.calls)
  }

  /** A sequence of handler invocations; props may differ from one to the next. */
  function Run(platform: Platform, l: Local, inputs: seq<Input>): Outcome {
    RunSteps((s: Local, input: Input) => Step(platform, s, input), l, inputs)
  }

  /** The date a call passes to `onChange`, if it is one. */
  function CommitOf(c: Call): seq<Date> {
    if c.OnChange? then [c.date] else []
  }

  /** The dates passed to `onChange`, in order. */
  function Commits(calls: seq<Call>): seq<Date> {
    if calls == [] then [] else CommitOf(calls[0]) + Commits(calls[1..])
  }

  function BlurOf(c: Call): nat {
    if c == OnBlur then 1 else 0
  }

  /** How many times `onBlur` was called. */
  function BlurCount(calls: seq<Call>): nat {
    if calls == [] then 0 else BlurOf(calls[0]) + BlurCount(calls[1..])
  }

  /** The host's value after it stores every date it is given through `onChange`. */
  function HostValue(value: Option<Date>, calls: seq<Call>): Option<Date> {
    var c := Commits(calls);
    if c == [] then value else Some(c[|c| - 1])
  }

  /** The staged date after a run of change events, starting from `seed`. */
  function StagedDate(inputs: seq<Input>, seed: Date): Date
    decreases |inputs|
  {
    if inputs == [] then seed
    else
      var next := if inputs[0].event.Change? then inputs[0].event.date.GetOr(seed) else seed;
      StagedDate(inputs[1..], next)
  }

  predicate AllChanges(inputs: seq<Input>) {
    forall i :: 0 <= i < |inputs| ==> inputs[i].event.Change?
  }

  /**
   * The component as a stateful object: its two state variables, the
   * platform it was built on, and the trace of calls it has made.
   */
  class Controller {
    const platform: Platform
    var internalShowDatePicker: bool
    var tempDate: Date
    var trace: seq<Call>

    function State(): Local
      reads this
    {
      Local(internalShowDatePicker, tempDate)
    }

    constructor (platform: Platform, value: Option<Date>, now: Date)
      ensures this.platform == platform
      ensures State() == Initial(value, now)
      ensures trace == []
    {
      this.platform := platform;
      internalShowDatePicker := false;
      tempDate := value.GetOr(now);
      trace := [];
    }

    method SetShowDatePicker(p: Props, v: bool)
      modifies this
      ensures State() == VisibilityWrite(p, old(State()), v).local
      ensures trace == old(trace) + VisibilityWrite(p, old(State()), v).calls
    {
      if p.hasOnOpenChange {
        trace := trace + [OnOpenChange(v)];
      } else {
        internalShowDatePicker := v;
      }
    }

    method NotifyBlur(p: Props)
      modifies this
      ensures State() == old(State())
      ensures trace == old(trace) + Blur(p)
    {
      if p.hasOnBlur {
        trace := trace + [OnBlur];
      }
    }

    method HandleDateChange(p: Props, kind: EventType, date: Option<Date>)
      modifies this
      ensures State() == ChangeTransition(platform, p, old(State()), kind, date).local
      ensures trace == old(trace) + ChangeTransition(platform, p, old(State()), kind, date).calls
    {
      if platform == Android {
        SetShowDatePicker(p, false);
        if kind == Set && date.Some? {
          trace := trace + [OnChange(date.value)];
        }
        NotifyBlur(p);
      } else {
        if date.Some? {
          tempDate := date.value;
        }
      }
    }

    method ConfirmDateSelection(p: Props)
      modifies this
      ensures State() == ConfirmTransition(p, old(State())).local
      ensures trace == old(trace) + ConfirmTransition(p, old(State())).calls
    {
      trace := trace + [OnChange(tempDate)];
      SetShowDatePicker(p, false);
      NotifyBlur(p);
    }

    method CancelDateSelection(p: Props, now: Date)
      modifies this
      ensures State() == CancelTransition(p, old(State()), now).local
      ensures trace == old(trace) + CancelTransition(p, old(State()), now).calls
    {
      tempDate := p.value.GetOr(now);
      SetShowDatePicker(p, false);
      NotifyBlur(p);
    }

    method ToggleDatePicker(p: Props, now: Date)
      modifies this
      ensures State() == ToggleTransition(p, old(State()), now).local
      ensures trace == old(trace) + ToggleTransition(p, old(State()), now).calls
    {
      var showDatePicker := if p.isOpen.Some? then p.isOpen.value else internalShowDatePicker;
      if showDatePicker {
        CancelDateSelection(p, now);
        NotifyBlur(p);
      } else {
        tempDate := p.value.GetOr(now);
        SetShowDatePicker(p, true);
      }
    }
  }
}
