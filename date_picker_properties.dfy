/**
 * What the date-picker handlers promise, proved about the transition
 * functions of module DatePicker (and so, through the contracts of
 * `DatePicker.Controller`, about the component object).
 */
module DatePickerProperties {
  import opened Wrappers
  import opened Dates
  import opened DatePickerConfig
  import opened DatePicker

  // ---------------------------------------------------------------------
  // Counting the calls in a trace

  lemma {:induction false} CommitsAppend(a: seq<Call>, b: seq<Call>)
    ensures Commits(a + b) == Commits(a) + Commits(b)
  {
    if a == [] {
      assert a + b == b;
    } else {
      assert (a + b)[0] == a[0];
      assert (a + b)[1..] == a[1..] + b;
      CommitsAppend(a[1..], b);
      var h := CommitOf(a[0]);
      assert Commits(a + b) == h + Commits(a[1..] + b);
      assert h + (Commits(a[1..]) + Commits(b)) == (h + Commits(a[1..])) + Commits(b);
    }
  }

  lemma {:induction false} BlurCountAppend(a: seq<Call>, b: seq<Call>)
    ensures BlurCount(a + b) == BlurCount(a) + BlurCount(b)
  {
    if a == [] {
      assert a + b == b;
    } else {
      assert (a + b)[0] == a[0];
      assert (a + b)[1..] == a[1..] + b;
      BlurCountAppend(a[1..], b);
    }
  }

  /** Small traces, counted once so that the lemmas below can cite them. */
  lemma CountsOfSmallTraces(p: Props, l: Local, v: bool, d: Date)
    ensures Commits(VisibilityWrite(p, l, v).calls) == [] && BlurCount(VisibilityWrite(p, l, v).calls) == 0
    ensures Commits(Blur(p)) == [] && BlurCount(Blur(p)) == (if p.hasOnBlur then 1 else 0)
    ensures Commits([OnChange(d)]) == [d] && BlurCount([OnChange(d)]) == 0
    ensures Commits([]) == [] && BlurCount([]) == 0
  {
    assert [OnChange(d)][1..] == [];
    if p.hasOnOpenChange {
      assert VisibilityWrite(p, l, v).calls[1..] == [];
    }
    if p.hasOnBlur {
      assert Blur(p)[1..] == [];
    }
  }

  // ---------------------------------------------------------------------
  // Visibility

  /**
   * Every visibility write goes to exactly one place: to `onOpenChange`
   * when the host supplied it, leaving the own flag alone, and otherwise to
   * the own flag, with no call at all.
   */
  lemma VisibilityWriteRouting(p: Props, l: Local, v: bool)
    ensures p.hasOnOpenChange ==> VisibilityWrite(p, l, v) == Outcome(l, [OnOpenChange(v)])
    ensures !p.hasOnOpenChange ==> VisibilityWrite(p, l, v) == Outcome(l.(internalShow := v), [])
  {
  }

  /**
   * Whatever the event, a host that supplies `onOpenChange` never sees the
   * own flag change, and a host that does not is never sent `onOpenChange`.
   */
  lemma VisibilityOwnership(platform: Platform, l: Local, input: Input)
    ensures input.props.hasOnOpenChange ==> Step(platform, l, input).local.internalShow == l.internalShow
    ensures !input.props.hasOnOpenChange ==>
      forall i :: 0 <= i < |Step(platform, l, input).calls| ==> !Step(platform, l, input).calls[i].OnOpenChange?
  {
  }

  /** The same along any run of handlers. */
  lemma {:induction false} VisibilityOwnershipRun(platform: Platform, l: Local, inputs: seq<Input>)
    requires forall i :: 0 <= i < |inputs| ==> inputs[i].props.hasOnOpenChange
    ensures Run(platform, l, inputs).local.internalShow == l.internalShow
    decreases |inputs|
  {
    if inputs != [] {
      VisibilityOwnership(platform, l, inputs[0]);
      VisibilityOwnershipRun(platform, Step(platform, l, inputs[0]).local, inputs[1..]);
    }
  }

  // ---------------------------------------------------------------------
  // Android: every change applies and closes at once

  /**
   * On Android a change event first asks to close, then calls `onChange(D)`
   * only for a "set" event that carries a date D, then calls `onBlur` once;
   * a dismissal leaves the host's value untouched.
   */
  lemma AndroidChangeAppliesAndCloses(p: Props, l: Local, kind: EventType, date: Option<Date>)
    ensures var o := ChangeTransition(Android, p, l, kind, date);
      && o.local == VisibilityWrite(p, l, false).local
      && o.local.tempDate == l.tempDate
      && (!p.hasOnOpenChange ==> !o.local.internalShow)
      && (p.hasOnOpenChange ==> o.calls[0] == OnOpenChange(false))
      && Commits(o.calls) == (if kind == Set && date.Some? then [date.value] else [])
      && BlurCount(o.calls) == (if p.hasOnBlur then 1 else 0)
      && (p.hasOnBlur ==> o.calls[|o.calls| - 1] == OnBlur)
      && HostValue(p.value, o.calls) == (if kind == Set && date.Some? then date else p.value)
  {
    var o := ChangeTransition(Android, p, l, kind, date);
    var closed := VisibilityWrite(p, l, false);
    var commit := if kind == Set && date.Some? then [OnChange(date.value)] else [];
    assert o.calls == closed.calls + commit + Blur(p);
    var committed := if kind == Set && date.Some? then [date.value] else [];
    assert Commits(o.calls) == committed by {
      CountsOfSmallTraces(p, l, false, if date.Some? then date.value else l.tempDate);
      CommitsAppend(closed.calls, commit);
      CommitsAppend(closed.calls + commit, Blur(p));
    }
    assert BlurCount(o.calls) == (if p.hasOnBlur then 1 else 0) by {
      CountsOfSmallTraces(p, l, false, if date.Some? then date.value else l.tempDate);
      BlurCountAppend(closed.calls, commit);
      BlurCountAppend(closed.calls + commit, Blur(p));
    }
    if p.hasOnBlur {
      assert o.calls[|o.calls| - 1] == Blur(p)[0];
    }
    if p.hasOnOpenChange {
      assert o.calls[0] == closed.calls[0];
    }
  }

  // ---------------------------------------------------------------------
  // Other platforms: a change only stages

  /** Off Android a change event only stages its date: no call, no visibility change. */
  lemma StagedChangeOnlyStages(platform: Platform, p: Props, l: Local, kind: EventType, date: Option<Date>)
    requires platform != Android
    ensures ChangeTransition(platform, p, l, kind, date) == Outcome(l.(tempDate := date.GetOr(l.tempDate)), [])
  {
  }

  /** Any run of change events off Android makes no call, keeps the flag, and stages the last date given. */
  lemma {:induction false} StagedRun(platform: Platform, l: Local, inputs: seq<Input>)
    requires platform != Android && AllChanges(inputs)
    ensures Run(platform, l, inputs) == Outcome(l.(tempDate := StagedDate(inputs, l.tempDate)), [])
    decreases |inputs|
  {
    if inputs != [] {
      var first := Step(platform, l, inputs[0]);
      assert first.local == l.(tempDate := inputs[0].event.date.GetOr(l.tempDate));
      StagedRun(platform, first.local, inputs[1..]);
    }
  }

  // ---------------------------------------------------------------------
  // Confirm and cancel

  /** Confirm calls `onChange` with the staged date first, then asks to close, then calls `onBlur` once. */
  lemma ConfirmCommitsStaged(p: Props, l: Local)
    ensures var o := ConfirmTransition(p, l);
      && o.calls[0] == OnChange(l.tempDate)
      && (p.hasOnOpenChange ==> o.calls[1] == OnOpenChange(false))
      && Commits(o.calls) == [l.tempDate]
      && BlurCount(o.calls) == (if p.hasOnBlur then 1 else 0)
      && (p.hasOnBlur ==> o.calls[|o.calls| - 1] == OnBlur)
      && HostValue(p.value, o.calls) == Some(l.tempDate)
      && o.local == VisibilityWrite(p, l, false).local
  {
    var closed := VisibilityWrite(p, l, false);
    CountsOfSmallTraces(p, l, false, l.tempDate);
    CommitsAppend([OnChange(l.tempDate)], closed.calls);
    CommitsAppend([OnChange(l.tempDate)] + closed.calls, Blur(p));
    BlurCountAppend([OnChange(l.tempDate)], closed.calls);
    BlurCountAppend([OnChange(l.tempDate)] + closed.calls, Blur(p));
  }

  /**
   * Cancel never calls `onChange`; it resets the staged date to `value ??
   * now`, asks to close, and calls `onBlur` once.
   */
  lemma CancelDiscards(p: Props, l: Local, now: Date)
    ensures var o := CancelTransition(p, l, now);
      && Commits(o.calls) == []
      && HostValue(p.value, o.calls) == p.value
      && o.local.tempDate == p.value.GetOr(now)
      && (!p.hasOnOpenChange ==> !o.local.internalShow)
      && (p.hasOnOpenChange ==> o.calls[0] == OnOpenChange(false) && o.local.internalShow == l.internalShow)
      && BlurCount(o.calls) == (if p.hasOnBlur then 1 else 0)
  {
    var closed := VisibilityWrite(p, l.(tempDate := p.value.GetOr(now)), false);
    CountsOfSmallTraces(p, l.(tempDate := p.value.GetOr(now)), false, now);
    CommitsAppend(closed.calls, Blur(p));
    BlurCountAppend(closed.calls, Blur(p));
  }

  // ---------------------------------------------------------------------
  // Toggle

  /** Toggle while closed stages `value ?? now` (never null) and asks to open, calling nothing else. */
  lemma ToggleWhileClosedOpens(p: Props, l: Local, now: Date)
    requires !Shown(p, l)
    ensures var o := ToggleTransition(p, l, now);
      && o.local.tempDate == p.value.GetOr(now)
      && (p.value.None? ==> o.local.tempDate == now)
      && (p.hasOnOpenChange ==> o.calls == [OnOpenChange(true)] && o.local.internalShow == l.internalShow)
      && (!p.hasOnOpenChange ==> o.calls == [] && o.local.internalShow)
  {
  }

  /**
   * Toggle while open is cancel and never confirm: the same new state, no
   * `onChange`, and `onBlur` twice where cancel calls it once.
   */
  lemma ToggleWhileOpenCancels(p: Props, l: Local, now: Date)
    requires Shown(p, l)
    ensures var o := ToggleTransition(p, l, now);
      && o.local == CancelTransition(p, l, now).local
      && o.calls == CancelTransition(p, l, now).calls + Blur(p)
      && Commits(o.calls) == []
      && HostValue(p.value, o.calls) == p.value
      && BlurCount(o.calls) == (if p.hasOnBlur then 2 else 0)
  {
    var c := CancelTransition(p, l, now);
    CancelDiscards(p, l, now);
    CountsOfSmallTraces(p, l, false, now);
    CommitsAppend(c.calls, Blur(p));
    BlurCountAppend(c.calls, Blur(p));
  }

  // ---------------------------------------------------------------------
  // Whole interactions

  lemma {:induction false} RunStepsAppend(step: (Local, Input) -> Outcome, l: Local, xs: seq<Input>, ys: seq<Input>)
    ensures var a := RunSteps(step, l, xs);
      var b := RunSteps(step, a.local, ys);
      RunSteps(step, l, xs + ys) == Outcome(b.local, a.calls + b.calls)
    decreases |xs|
  {
    if xs == [] {
      assert xs + ys == ys;
    } else {
      var first := step(l, xs[0]);
      var tail := RunSteps(step, first.local, xs[1..]);
      var b := RunSteps(step, tail.local, ys);
      var whole := RunSteps(step, first.local, xs[1..] + ys);
      assert RunSteps(step, l, xs + ys) == Outcome(whole.local, first.calls + whole.calls) by {
        assert (xs + ys)[0] == xs[0];
        assert (xs + ys)[1..] == xs[1..] + ys;
      }
      RunStepsAppend(step, first.local, xs[1..], ys);
      assert first.calls + (tail.calls + b.calls) == (first.calls + tail.calls) + b.calls;
    }
  }

  /** Running two sequences one after the other is running their concatenation. */
  lemma RunAppend(platform: Platform, l: Local, xs: seq<Input>, ys: seq<Input>)
    ensures var a := Run(platform, l, xs);
      var b := Run(platform, a.local, ys);
      Run(platform, l, xs + ys) == Outcome(b.local, a.calls + b.calls)
  {
    RunStepsAppend((s: Local, input: Input) => Step(platform, s, input), l, xs, ys);
  }

  lemma RunSingle(platform: Platform, l: Local, input: Input)
    ensures Run(platform, l, [input]) == Step(platform, l, input)
  {
    var step := (s: Local, x: Input) => Step(platform, s, x);
    assert [input][1..] == [];
    assert RunSteps(step, step(l, input).local, []) == Outcome(step(l, input).local, []);
    assert step(l, input).calls + [] == step(l, input).calls;
  }

  /** A run of one step, then `ys`, then one more step, split into its three parts. */
  lemma RunBracketed(platform: Platform, l: Local, x: Input, ys: seq<Input>, z: Input)
    ensures var a := Step(platform, l, x);
      var b := Run(platform, a.local, ys);
      var c := Step(platform, b.local, z);
      Run(platform, l, [x] + ys + [z]) == Outcome(c.local, a.calls + b.calls + c.calls)
  {
    var a := Step(platform, l, x);
    var b := Run(platform, a.local, ys);
    var c := Step(platform, b.local, z);
    RunSingle(platform, l, x);
    RunAppend(platform, l, [x], ys);
    assert Run(platform, l, [x] + ys) == Outcome(b.local, a.calls + b.calls);
    RunAppend(platform, l, [x] + ys, [z]);
    RunSingle(platform, b.local, z);
  }

  /**
   * Off Android, any number of staged changes followed by cancel never
   * calls `onChange`: the host's value is what it was.
   */
  lemma StagedChangesThenCancel(platform: Platform, l: Local, changes: seq<Input>, cancel: Input)
    requires platform != Android && AllChanges(changes) && cancel.event == CancelPressed
    ensures Commits(Run(platform, l, changes + [cancel]).calls) == []
    ensures forall value :: HostValue(value, Run(platform, l, changes + [cancel]).calls) == value
    ensures Run(platform, l, changes + [cancel]).local.tempDate == cancel.props.value.GetOr(cancel.now)
    ensures !cancel.props.hasOnOpenChange ==> !Run(platform, l, changes + [cancel]).local.internalShow
  {
    StagedRun(platform, l, changes);
    RunAppend(platform, l, changes, [cancel]);
    var staged := Run(platform, l, changes).local;
    RunSingle(platform, staged, cancel);
    CancelDiscards(cancel.props, staged, cancel.now);
    var cancelled := CancelTransition(cancel.props, staged, cancel.now);
    assert Run(platform, l, changes + [cancel]) == Outcome(cancelled.local, [] + cancelled.calls);
    assert [] + cancelled.calls == cancelled.calls;
  }

  /**
   * Off Android, opening, staging any run of changes and confirming calls
   * `onChange` exactly once, with the last date staged (or `value ?? now`
   * when none was given), and calls `onBlur` exactly once.
   */
  lemma OpenStageConfirm(platform: Platform, l: Local, open: Input, changes: seq<Input>, confirm: Input)
    requires platform != Android && AllChanges(changes)
    requires open.event == TogglePressed && !Shown(open.props, l)
    requires confirm.event == ConfirmPressed
    ensures var o := Run(platform, l, [open] + changes + [confirm]);
      var committed := StagedDate(changes, open.props.value.GetOr(open.now));
      && Commits(o.calls) == [committed]
      && HostValue(open.props.value, o.calls) == Some(committed)
      && BlurCount(o.calls) == (if confirm.props.hasOnBlur then 1 else 0)
      && (!confirm.props.hasOnOpenChange ==> !o.local.internalShow)
  {
    var seed := open.props.value.GetOr(open.now);
    var afterOpen := Step(platform, l, open);
    assert Commits(afterOpen.calls) == [] && BlurCount(afterOpen.calls) == 0 by {
      assert afterOpen == VisibilityWrite(open.props, l.(tempDate := seed), true);
      CountsOfSmallTraces(open.props, l.(tempDate := seed), true, open.now);
    }
    assert afterOpen.local.tempDate == seed;
    var staged := Run(platform, afterOpen.local, changes);
    assert staged == Outcome(afterOpen.local.(tempDate := StagedDate(changes, seed)), []) by {
      StagedRun(platform, afterOpen.local, changes);
    }
    var confirmed := Step(platform, staged.local, confirm);
    assert confirmed == ConfirmTransition(confirm.props, staged.local);
    var o := Run(platform, l, [open] + changes + [confirm]);
    assert o == Outcome(confirmed.local, afterOpen.calls + confirmed.calls) by {
      RunBracketed(platform, l, open, changes, confirm);
      assert afterOpen.calls + staged.calls == afterOpen.calls;
    }
    var committed := StagedDate(changes, seed);
    assert Commits(o.calls) == [committed] by {
      ConfirmCommitsStaged(confirm.props, staged.local);
      CommitsAppend(afterOpen.calls, confirmed.calls);
    }
    assert BlurCount(o.calls) == (if confirm.props.hasOnBlur then 1 else 0) by {
      ConfirmCommitsStaged(confirm.props, staged.local);
      BlurCountAppend(afterOpen.calls, confirmed.calls);
    }
    assert !confirm.props.hasOnOpenChange ==> !o.local.internalShow by {
      ConfirmCommitsStaged(confirm.props, staged.local);
    }
  }

  /**
   * On a platform that is neither Android nor iOS the confirm and cancel
   * buttons are not rendered, so only change and toggle events occur; no
   * run of those ever calls `onChange`, so no date is ever committed.
   */
  lemma {:induction false} OtherPlatformNeverCommits(l: Local, inputs: seq<Input>)
    requires forall i :: 0 <= i < |inputs| ==> inputs[i].event.Change? || inputs[i].event == TogglePressed
    ensures Commits(Run(Other, l, inputs).calls) == []
    decreases |inputs|
  {
    if inputs != [] {
      var first := Step(Other, l, inputs[0]);
      assert Commits(first.calls) == [] by {
        if inputs[0].event == TogglePressed {
          var p, now := inputs[0].props, inputs[0].now;
          if Shown(p, l) {
            ToggleWhileOpenCancels(p, l, now);
          } else {
            ToggleWhileClosedOpens(p, l, now);
            CountsOfSmallTraces(p, l, true, now);
            if p.hasOnOpenChange {
              assert first.calls[1..] == [];
            }
          }
        }
      }
      OtherPlatformNeverCommits(first.local, inputs[1..]);
      CommitsAppend(first.calls, Run(Other, first.local, inputs[1..]).calls);
    }
  }

  // ---------------------------------------------------------------------
  // Scenarios

  /** No host `isOpen`, no `onOpenChange`, an `onBlur`, and the given value. */
  function Uncontrolled(value: Option<Date>): Props {
    Props(value, None, false, true)
  }

  /** iOS, no value: open, stage 10 March 2025, confirm: that date is committed and `onBlur` fires once. */
  lemma ScenarioStageAndConfirm(now: Date)
    ensures var l := Initial(None, now);
      var march10 := Date(2025, 2, 10);
      var inputs := [Input(Uncontrolled(None), now, TogglePressed),
                     Input(Uncontrolled(None), now, Change(Set, Some(march10))),
                     Input(Uncontrolled(None), now, ConfirmPressed)];
      var o := Run(IOS, l, inputs);
      && HostValue(None, o.calls) == Some(march10)
      && !o.local.internalShow
      && BlurCount(o.calls) == 1
  {
    var l := Initial(None, now);
    var march10 := Date(2025, 2, 10);
    var open := Input(Uncontrolled(None), now, TogglePressed);
    var change := Input(Uncontrolled(None), now, Change(Set, Some(march10)));
    var confirm := Input(Uncontrolled(None), now, ConfirmPressed);
    assert [open, change, confirm] == [open] + [change] + [confirm];
    assert StagedDate([change], now) == march10 by {
      assert [change][1..] == [];
    }
    OpenStageConfirm(IOS, l, open, [change], confirm);
  }

  /** iOS, value 1 January 2025: open, stage 31 December 2099, cancel: the value stays 1 January 2025. */
  lemma ScenarioStageAndCancel(now: Date)
    ensures var jan1 := Date(2025, 0, 1);
      var p := Uncontrolled(Some(jan1));
      var inputs := [Input(p, now, TogglePressed),
                     Input(p, now, Change(Set, Some(Date(2099, 11, 31)))),
                     Input(p, now, CancelPressed)];
      var o := Run(IOS, Initial(Some(jan1), now), inputs);
      && HostValue(Some(jan1), o.calls) == Some(jan1)
      && !o.local.internalShow
      && o.local.tempDate == jan1
  {
    var jan1 := Date(2025, 0, 1);
    var p := Uncontrolled(Some(jan1));
    var l := Initial(Some(jan1), now);
    var open := Input(p, now, TogglePressed);
    var change := Input(p, now, Change(Set, Some(Date(2099, 11, 31))));
    var cancel := Input(p, now, CancelPressed);
    var afterOpen := Step(IOS, l, open);
    RunSingle(IOS, l, open);
    assert [open, change, cancel] == [open] + ([change] + [cancel]);
    RunAppend(IOS, l, [open], [change] + [cancel]);
    StagedChangesThenCancel(IOS, afterOpen.local, [change], cancel);
    RunAppend(IOS, afterOpen.local, [change], [cancel]);
    RunSingle(IOS, Run(IOS, afterOpen.local, [change]).local, cancel);
    CommitsAppend(afterOpen.calls, Run(IOS, afterOpen.local, [change] + [cancel]).calls);
    assert afterOpen.calls == [];
  }
}
