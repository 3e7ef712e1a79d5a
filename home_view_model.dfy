/**
 * The home screen's view-model: a greeting, a counter and the date chosen
 * in the date picker. Each action replaces the state by applying an
 * updater `prev => next`; the updaters are the functions below and the
 * class `ViewModel` is the state cell that applies them.
 */
module HomeViewModel {
  import opened Wrappers
  import opened Dates

  datatype HomeState = HomeState(greeting: string, counter: int, selectedDate: Option<Date>)

  const Greeting: string := "¡Bienvenido a Aurora Mobile!"

  /** The state the hook starts from. */
  function InitialHomeState(): (s: HomeState)
    ensures s.greeting == Greeting && s.counter == 0 && s.selectedDate.None?
  {
    HomeState(Greeting, 0, None)
  }

  /** `incrementCounter`'s updater. */
  function Incremented(prev: HomeState): (next: HomeState)
    ensures next.counter == prev.counter + 1
    ensures next.greeting == prev.greeting && next.selectedDate == prev.selectedDate
  {
    prev.(counter := prev.counter + 1)
  }

  /** `decrementCounter`'s updater: there is no lower bound. */
  function Decremented(prev: HomeState): (next: HomeState)
    ensures next.counter == prev.counter - 1
    ensures next.greeting == prev.greeting && next.selectedDate == prev.selectedDate
  {
    prev.(counter := prev.counter - 1)
  }

  /** `resetCounter`'s updater. */
  function CounterReset(prev: HomeState): (next: HomeState)
    ensures next.counter == 0
    ensures next.greeting == prev.greeting && next.selectedDate == prev.selectedDate
  {
    prev.(counter := 0)
  }

  /** `setSelectedDate(date)`'s updater. */
  function WithSelectedDate(prev: HomeState, date: Date): (next: HomeState)
    ensures next.selectedDate == Some(date)
    ensures next.greeting == prev.greeting && next.counter == prev.counter
  {
    prev.(selectedDate := Some(date))
  }

  /** Increment and decrement undo each other. */
  lemma IncrementDecrementCancel(s: HomeState)
    ensures Decremented(Incremented(s)) == s
    ensures Incremented(Decremented(s)) == s
  {
  }

  /** Decrementing the initial state goes below zero. */
  lemma DecrementBelowZero()
    ensures Decremented(InitialHomeState()).counter == -1
  {
  }

  /** Resetting twice is resetting once. */
  lemma ResetIdempotent(s: HomeState)
    ensures CounterReset(CounterReset(s)) == CounterReset(s)
  {
  }

  /** The actions the view can trigger. */
  datatype HomeAction = Increment | Decrement | Reset | SelectDate(date: Date)

  function Apply(s: HomeState, a: HomeAction): HomeState {
    match a
    case Increment => Incremented(s)
    case Decrement => Decremented(s)
    case Reset => CounterReset(s)
    case SelectDate(d) => WithSelectedDate(s, d)
  }

  function ApplyAll(s: HomeState, actions: seq<HomeAction>): HomeState
    decreases |actions|
  {
    if actions == [] then s else ApplyAll(Apply(s, actions[0]), actions[1..])
  }

  /** The net count of increments over decrements. */
  function NetCount(actions: seq<HomeAction>): int
    decreases |actions|
  {
    if actions == [] then 0
    else (match actions[0] case Increment => 1 case Decrement => -1 case _ => 0) + NetCount(actions[1..])
  }

  predicate NoReset(actions: seq<HomeAction>) {
    forall i :: 0 <= i < |actions| ==> !actions[i].Reset?
  }

  /**
   * Along any sequence of actions the greeting never changes, and without a
   * reset the counter moves by exactly the increments minus the decrements.
   */
  lemma {:induction false} CounterTracksActions(s: HomeState, actions: seq<HomeAction>)
    ensures ApplyAll(s, actions).greeting == s.greeting
    ensures NoReset(actions) ==> ApplyAll(s, actions).counter == s.counter + NetCount(actions)
    decreases |actions|
  {
    if actions != [] {
      CounterTracksActions(Apply(s, actions[0]), actions[1..]);
    }
  }

  /** The hook's state cell. */
  class ViewModel {
    var state: HomeState

    constructor ()
      ensures state == InitialHomeState()
    {
      state := InitialHomeState();
    }

    method IncrementCounter()
      modifies this
      ensures state == Incremented(old(state))
    {
      state := Incremented(state);
    }

    method DecrementCounter()
      modifies this
      ensures state == Decremented(old(state))
    {
      state := Decremented(state);
    }

    method ResetCounter()
      modifies this
      ensures state == CounterReset(old(state))
    {
      state := CounterReset(state);
    }

    method SetSelectedDate(date: Date)
      modifies this
      ensures state == WithSelectedDate(old(state), date)
    {
      state := WithSelectedDate(state, date);
    }
  }
}
