/** The onboarding tour: ten steps walked with Next and Back buttons, step
    dots, and the arrow, Enter and Escape keys. Next and Back do not change
    the step at once: they start the fade-out and queue the step change on a
    150 ms timer, and the timers go off in the order they were started. The
    tour's state is the step shown, the fade flag, the queue of step changes
    still waiting for their timer, and whether the application shows the
    tour at all. */
module OnboardingTour {
  import opened Base

  /** The tour's steps, by id. */
  const StepIds: seq<string> := ["welcome", "dashboard", "sidebar", "content-database", "pipeline",
                                 "team", "analytics", "add-content", "notifications", "complete"]
  const StepCount := |StepIds|
  const LastStep := StepCount - 1

  datatype TourState = TourState(step: int, animating: bool, pending: seq<int>, isOpen: bool)

  /** The state the tour can be in: the step shown names one of the ten
      steps, and every queued change moves one step forward or back. */
  predicate Valid(st: TourState)
  {
    && 0 <= st.step < StepCount
    && forall i :: 0 <= i < |st.pending| ==> st.pending[i] == 1 || st.pending[i] == -1
  }

  /** The Next button, Enter or the right arrow. On the last step it hands
      control back to the application, which closes the tour; elsewhere it
      starts the fade and queues one step forward. The test looks at the step
      shown, not at the changes still queued. */
  function Next(st: TourState): TourState
  {
    if st.step == LastStep then st.(isOpen := false)
    else st.(animating := true, pending := st.pending + [1])
  }

  /** The Back button or the left arrow: nothing on the first step, otherwise
      the fade and one step back queued. */
  function Prev(st: TourState): TourState
  {
    if st.step == 0 then st
    else st.(animating := true, pending := st.pending + [-1])
  }

  /** The Skip button, the close button or Escape: the application closes the
      tour. */
  function Skip(st: TourState): TourState
  {
    st.(isOpen := false)
  }

  /** A step dot jumps to its step at once; queued changes stay queued. */
  function Dot(st: TourState, index: int): TourState
    requires 0 <= index < StepCount
  {
    st.(step := index)
  }

  /** The application's "start tour" entry re-opens the tour where it was:
      the step is not reset. */
  function Start(st: TourState): TourState
  {
    st.(isOpen := true)
  }

  /** The updater as written: the queued change is added to the step, with
      no bound. */
  function FireAsWritten(st: TourState): TourState
    requires st.pending != []
  {
    st.(step := st.step + st.pending[0], animating := false, pending := st.pending[1..])
  }

  /** `s` held within the step range. */
  function ClampStep(s: int): (r: int)
    ensures 0 <= r < StepCount
    ensures 0 <= s < StepCount ==> r == s
  {
    if s < 0 then 0 else if s > LastStep then LastStep else s
  }

  /** The oldest timer goes off: the queued change is applied to the step
      shown at that moment, held within the step range, and the fade ends. */
  function Fire(st: TourState): TourState
    requires st.pending != []
  {
    st.(step := ClampStep(st.step + st.pending[0]), animating := false, pending := st.pending[1..])
  }

  /** The actions a key can trigger. */
  datatype TourAction = NextAction | PrevAction | SkipAction

  function KeyAction(key: string): (r: Option<TourAction>)
    ensures r == Some(NextAction) <==> key == "ArrowRight" || key == "Enter"
    ensures r == Some(PrevAction) <==> key == "ArrowLeft"
    ensures r == Some(SkipAction) <==> key == "Escape"
  {
    if key == "ArrowRight" || key == "Enter" then Some(NextAction)
    else if key == "ArrowLeft" then Some(PrevAction)
    else if key == "Escape" then Some(SkipAction)
    else None
  }

  /** A key press: ignored while the tour is closed, otherwise dispatched to
      the matching button's action. */
  function Key(st: TourState, key: string): TourState
  {
    if !st.isOpen then st
    else match KeyAction(key)
      case Some(NextAction) => Next(st)
      case Some(PrevAction) => Prev(st)
      case Some(SkipAction) => Skip(st)
      case None => st
  }

  /** Keys do nothing while the tour is closed, and the other keys do nothing
      at all. */
  lemma KeySpec(st: TourState, key: string)
    ensures !st.isOpen ==> Key(st, key) == st
    ensures st.isOpen && (key == "ArrowRight" || key == "Enter") ==> Key(st, key) == Next(st)
    ensures st.isOpen && key == "ArrowLeft" ==> Key(st, key) == Prev(st)
    ensures st.isOpen && key == "Escape" ==> Key(st, key) == Skip(st)
    ensures KeyAction(key).None? ==> Key(st, key) == st
  {
  }

  /** Next away from the last step, once its timer has gone off, shows the
      following step and ends the fade; on the last step it closes the tour
      and leaves the step alone. */
  lemma NextSpec(st: TourState)
    requires Valid(st) && st.pending == []
    ensures st.step < LastStep ==> Fire(Next(st)) == st.(step := st.step + 1, animating := false)
    ensures st.step == LastStep ==> Next(st).step == st.step && !Next(st).isOpen && Next(st).pending == []
  {
  }

  /** Back does nothing on the first step, and elsewhere, once its timer has
      gone off, shows the previous step. */
  lemma PrevSpec(st: TourState)
    requires Valid(st) && st.pending == []
    ensures st.step == 0 ==> Prev(st) == st
    ensures st.step > 0 ==> Fire(Prev(st)) == st.(step := st.step - 1, animating := false)
  {
  }

  /** Every action keeps the tour in a valid state. */
  lemma ValidPreserved(st: TourState, index: int, key: string)
    requires Valid(st)
    ensures Valid(Next(st)) && Valid(Prev(st)) && Valid(Skip(st)) && Valid(Start(st))
    ensures Valid(Key(st, key))
    ensures 0 <= index < StepCount ==> Valid(Dot(st, index))
    ensures st.pending != [] ==> Valid(Fire(st))
  {
    var n := Next(st).pending;
    assert forall i :: 0 <= i < |n| ==> n[i] == 1 || n[i] == -1;
    var p := Prev(st).pending;
    assert forall i :: 0 <= i < |p| ==> p[i] == 1 || p[i] == -1;
  }

  /** Without a race the bound never bites: with one change queued on a
      valid state, the updater as written and the bounded one agree. */
  lemma FireAgreesWhenSettled(st: TourState)
    requires Valid(st) && |st.pending| == 1
    requires st.pending[0] == 1 ==> st.step < LastStep
    requires st.pending[0] == -1 ==> st.step > 0
    ensures FireAsWritten(st) == Fire(st)
  {
  }

  /** Two presses of Next on the second-to-last step, faster than the fade,
      both pass the last-step test, because the step shown is still the
      second-to-last; the unbounded updater then leaves the step one past
      the last, where no step exists. The bounded updater stops on the last
      step. */
  lemma DoubleNextOverflows()
    ensures var s := Next(Next(TourState(8, false, [], true)));
      && FireAsWritten(FireAsWritten(s)).step == StepCount
      && !Valid(FireAsWritten(FireAsWritten(s)))
      && Fire(Fire(s)).step == LastStep
  {
  }

  /** The same race on Back from the second step leaves the step at -1 as
      written, and on the first step with the bound. */
  lemma DoublePrevUnderflows()
    ensures var s := Prev(Prev(TourState(1, false, [], true)));
      && FireAsWritten(FireAsWritten(s)).step == -1
      && Fire(Fire(s)).step == 0
  {
  }

  /** A dot pressed while a Next is still queued: jumping to the last step
      and then letting the timer go off leaves the step past the end as
      written. */
  lemma DotDuringFade()
    ensures var s := Dot(Next(TourState(0, false, [], true)), LastStep);
      && FireAsWritten(s).step == StepCount
      && Fire(s).step == LastStep
  {
  }

  /** Re-opening the tour after finishing it shows the last step again. */
  lemma RestartAfterFinish(st: TourState)
    requires Valid(st) && st.step == LastStep
    ensures Start(Next(st)).step == LastStep && Start(Next(st)).isOpen
  {
  }

  class Tour {
    var step: int
    var animating: bool
    var pending: seq<int>
    var isOpen: bool

    function State(): TourState
      reads this
    {
      TourState(step, animating, pending, isOpen)
    }

    /** The tour opens on the first step, shown when the visitor has not seen
        it before. */
    constructor (show: bool)
      ensures State() == TourState(0, false, [], show) && Valid(State())
    {
      step := 0;
      animating := false;
      pending := [];
      isOpen := show;
    }

    method HandleNext()
      modifies this
      ensures State() == Next(old(State()))
    {
      if step == LastStep {
        isOpen := false;
      } else {
        animating := true;
        pending := pending + [1];
      }
    }

    method HandlePrev()
      modifies this
      ensures State() == Prev(old(State()))
    {
      if step != 0 {
        animating := true;
        pending := pending + [-1];
      }
    }

    method HandleSkip()
      modifies this
      ensures State() == Skip(old(State()))
    {
      isOpen := false;
    }

    method ClickDot(index: int)
      requires 0 <= index < StepCount
      modifies this
      ensures State() == Dot(old(State()), index)
    {
      step := index;
    }

    method StartTour()
      modifies this
      ensures State() == Start(old(State()))
    {
      isOpen := true;
    }

    /** The oldest queued timer goes off. */
    method TimerFired()
      requires pending != []
      modifies this
      ensures State() == Fire(old(State()))
    {
      var next := step + pending[0];
      step := ClampStep(next);
      animating := false;
      pending := pending[1..];
    }

    method HandleKeyDown(key: string)
      modifies this
      ensures State() == Key(old(State()), key)
    {
      if !isOpen {
        return;
      }
      if key == "ArrowRight" || key == "Enter" {
        HandleNext();
      } else if key == "ArrowLeft" {
        HandlePrev();
      } else if key == "Escape" {
        HandleSkip();
      }
    }
  }
}
