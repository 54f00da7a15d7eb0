/** The `highlight` controller (chart.js:29-54): a closure over `fadeout` (the pending
    fade-out timer) and `highlighted` (the selected region), driven by hover and click
    selections and by the 2-second fade-out timer firing. */
module Highlight {
  import opened Wrappers

  type Region = string

  /** The side effects the controller performs, recorded in order. */
  datatype Effect =
    | FillPopup(region: Region)               // fillPopup(state)
    | HighlightTrail(target: Option<Region>)  // highlightTrail(..)
    | StartFade                               // fadeout = setTimeout(.., 2000)
    | CancelFade                              // clearTimeout(fadeout)
    | FadeOut                                 // the timer's callback runs

  /** `highlighted`, whether `fadeout` holds a live timer, and whether the document body
      has class `show`. */
  datatype State = State(highlighted: Option<Region>, fadePending: bool, bodyShow: bool)

  datatype Outcome = Outcome(next: State, effects: seq<Effect>)

  /** Nothing selected, no timer, body class cleared. */
  const Initial := State(None, false, false)

  /** The invariant the controller keeps: a fade is pending only while a region is
      highlighted, and the body shows the popup exactly while one is. */
  predicate Consistent(st: State) {
    (st.fadePending ==> st.highlighted.Some?) && (st.bodyShow <==> st.highlighted.Some?)
  }

  /** `highlight(state)`; `None` stands for `null`/`undefined` (both equal under `!=`). */
  function OnSelect(st: State, sel: Option<Region>): Outcome {
    var cancel := sel.Some? && st.fadePending;
    var pending := st.fadePending && !cancel;
    var pre := if cancel then [CancelFade] else [];
    if st.highlighted == sel then
      Outcome(State(st.highlighted, pending, st.bodyShow), pre)
    else if st.highlighted.Some? then
      if sel.Some? then
        Outcome(State(sel, pending, st.bodyShow), pre + [FillPopup(sel.value), HighlightTrail(sel)])
      else if !pending then
        Outcome(State(st.highlighted, true, st.bodyShow), pre + [StartFade])
      else
        Outcome(State(st.highlighted, pending, st.bodyShow), pre)
    else
      Outcome(State(sel, pending, true), pre + [FillPopup(sel.value), HighlightTrail(sel)])
  }

  /** The fade-out timer fires: body class cleared, nothing highlighted. A timer that was
      cancelled or never started does not fire. */
  function OnTimeout(st: State): Outcome {
    if st.fadePending then Outcome(State(None, false, false), [FadeOut, HighlightTrail(None)])
    else Outcome(st, [])
  }

  datatype Event = Select(sel: Option<Region>) | Timeout

  function OnEvent(st: State, ev: Event): Outcome {
    match ev
    case Select(sel) => OnSelect(st, sel)
    case Timeout => OnTimeout(st)
  }

  /** A run: the events handled one after another, effects concatenated. */
  function Run(st: State, evs: seq<Event>): Outcome
    decreases |evs|
  {
    if evs == [] then Outcome(st, [])
    else
      var first := OnEvent(st, evs[0]);
      var rest := Run(first.next, evs[1..]);
      Outcome(rest.next, first.effects + rest.effects)
  }

  // ---------------------------------------------------------------------------
  // The transitions

  /** Selecting R while idle: popup and trail for R, body shown. */
  lemma SelectFromIdle(st: State, r: Region)
    requires Consistent(st) && st.highlighted.None?
    ensures OnSelect(st, Some(r)) == Outcome(State(Some(r), false, true), [FillPopup(r), HighlightTrail(Some(r))])
  {
  }

  /** Selecting the highlighted region again only cancels a pending fade. */
  lemma Reselect(st: State, r: Region)
    requires st.highlighted == Some(r)
    ensures OnSelect(st, Some(r)).next == State(Some(r), false, st.bodyShow)
    ensures OnSelect(st, Some(r)).effects == if st.fadePending then [CancelFade] else []
  {
  }

  /** Selecting another region swaps popup and trail directly, cancelling any pending fade
      and leaving the body class alone. */
  lemma Swap(st: State, r: Region, s: Region)
    requires st.highlighted == Some(r) && s != r
    ensures OnSelect(st, Some(s)).next == State(Some(s), false, st.bodyShow)
    ensures OnSelect(st, Some(s)).effects
      == (if st.fadePending then [CancelFade] else []) + [FillPopup(s), HighlightTrail(Some(s))]
  {
  }

  /** Deselecting while highlighted starts a fade unless one is already pending. */
  lemma Deselect(st: State)
    requires st.highlighted.Some?
    ensures OnSelect(st, None).next == State(st.highlighted, true, st.bodyShow)
    ensures OnSelect(st, None).effects == if st.fadePending then [] else [StartFade]
  {
  }

  /** Deselecting while idle does nothing. */
  lemma DeselectIdle(st: State)
    requires Consistent(st) && st.highlighted.None?
    ensures OnSelect(st, None) == Outcome(st, [])
  {
  }

  /** Every step keeps the invariant. */
  lemma StepConsistent(st: State, ev: Event)
    requires Consistent(st)
    ensures Consistent(OnEvent(st, ev).next)
  {
  }

  /** Handling the same selection twice in a row: the second changes nothing and does
      nothing (in particular the popup is not rebuilt). */
  lemma SelectIdempotent(st: State, sel: Option<Region>)
    requires Consistent(st)
    ensures var mid := OnSelect(st, sel).next; OnSelect(mid, sel) == Outcome(mid, [])
  {
  }

  /** Leaving a highlighted region and coming back before the timer fires: the fade is
      cancelled, the region stays highlighted throughout, and the popup is not rebuilt. */
  lemma LeaveAndReturn(st: State, r: Region)
    requires Consistent(st) && st.highlighted == Some(r)
    ensures OnSelect(st, None).next.highlighted == Some(r)
    ensures Run(st, [Select(None), Select(Some(r))])
      == Outcome(State(Some(r), false, true), if st.fadePending then [CancelFade] else [StartFade, CancelFade])
  {
    var evs := [Select(None), Select(Some(r))];
    var mid := OnSelect(st, None);
    var last := OnSelect(mid.next, Some(r));
    assert evs[1..] == [Select(Some(r))] && evs[1..][1..] == [];
    assert Run(mid.next, evs[1..]) == Outcome(last.next, last.effects + []);
    assert Run(st, evs) == Outcome(last.next, mid.effects + (last.effects + []));
  }

  // ---------------------------------------------------------------------------
  // Whole runs

  /** Every run from a consistent state ends in a consistent state. */
  lemma {:induction false} RunConsistent(st: State, evs: seq<Event>)
    requires Consistent(st)
    ensures Consistent(Run(st, evs).next)
    decreases |evs|
  {
    if evs != [] {
      StepConsistent(st, evs[0]);
      RunConsistent(OnEvent(st, evs[0]).next, evs[1..]);
    }
  }

  /** Timers started, minus timers cancelled, minus timers fired. */
  function LiveTimers(effects: seq<Effect>): int {
    var m := multiset(effects);
    m[StartFade] as int - m[CancelFade] as int - m[FadeOut] as int
  }

  function Pending(st: State): int {
    if st.fadePending then 1 else 0
  }

  /** One step starts a timer only when none is live and cancels or fires one only when
      one is live; its timer effects net out to the change in `fadePending`. */
  lemma StepTimers(st: State, ev: Event)
    ensures StartFade in OnEvent(st, ev).effects ==> !st.fadePending
    ensures CancelFade in OnEvent(st, ev).effects ==> st.fadePending
    ensures FadeOut in OnEvent(st, ev).effects ==> st.fadePending
    ensures LiveTimers(OnEvent(st, ev).effects) == Pending(OnEvent(st, ev).next) - Pending(st)
  {
    match ev
    case Timeout =>
    case Select(sel) =>
      var o := OnSelect(st, sel);
      if sel.None? {
        assert o.effects == if st.highlighted.Some? && !st.fadePending then [StartFade] else [];
      } else if st.highlighted == sel {
        assert o.effects == if st.fadePending then [CancelFade] else [];
      } else {
        var popup := [FillPopup(sel.value), HighlightTrail(sel)];
        assert multiset(popup)[StartFade] == 0 && multiset(popup)[CancelFade] == 0 && multiset(popup)[FadeOut] == 0;
        if st.fadePending {
          assert o.effects == [CancelFade] + popup;
          assert multiset(o.effects) == multiset{CancelFade} + multiset(popup);
        } else {
          assert o.effects == [] + popup;
        }
      }
  }

  /** The timer effects of a run account exactly for the change of `fadePending`. */
  lemma {:induction false} RunTimers(st: State, evs: seq<Event>)
    ensures LiveTimers(Run(st, evs).effects) == Pending(Run(st, evs).next) - Pending(st)
    decreases |evs|
  {
    if evs != [] {
      var first := OnEvent(st, evs[0]);
      var rest := Run(first.next, evs[1..]);
      StepTimers(st, evs[0]);
      RunTimers(first.next, evs[1..]);
      assert multiset(first.effects + rest.effects) == multiset(first.effects) + multiset(rest.effects);
    }
  }

  /** From the start, at most one fade-out timer is ever live, and one is live exactly
      when `fadePending` says so. */
  lemma AtMostOneTimer(evs: seq<Event>)
    ensures LiveTimers(Run(Initial, evs).effects) == Pending(Run(Initial, evs).next)
    ensures 0 <= LiveTimers(Run(Initial, evs).effects) <= 1
    ensures Consistent(Run(Initial, evs).next)
  {
    RunTimers(Initial, evs);
    RunConsistent(Initial, evs);
  }

  // ---------------------------------------------------------------------------
  // The closure as an object

  /** The closure's captured variables and the body class, with the effects it has
      performed so far. */
  class Controller {
    var highlighted: Option<Region>
    var fadePending: bool
    var bodyShow: bool
    var effects: seq<Effect>

    function Current(): State
      reads this
    {
      State(highlighted, fadePending, bodyShow)
    }

    constructor ()
      ensures Current() == Initial && effects == []
    {
      highlighted, fadePending, bodyShow := None, false, false;
      effects := [];
    }

    /** `highlight(state)` (chart.js:30-53). */
    method Select(sel: Option<Region>)
      modifies this
      ensures Current() == OnSelect(old(Current()), sel).next
      ensures effects == old(effects) + OnSelect(old(Current()), sel).effects
    {
      if sel.Some? && fadePending {
        effects := effects + [CancelFade];
        fadePending := false;
      }
      if highlighted != sel {
        if highlighted.Some? {
          if sel.Some? {
            effects := effects + [FillPopup(sel.value)];
            highlighted := sel;
            effects := effects + [HighlightTrail(sel)];
          } else if !fadePending {
            fadePending := true;
            effects := effects + [StartFade];
          }
        } else {
          effects := effects + [FillPopup(sel.value)];
          highlighted := sel;
          effects := effects + [HighlightTrail(sel)];
          bodyShow := true;
        }
      }
    }

    /** The callback passed to `setTimeout` (chart.js:42-45). */
    method Timeout()
      modifies this
      ensures Current() == OnTimeout(old(Current())).next
      ensures effects == old(effects) + OnTimeout(old(Current())).effects
    {
      if fadePending {
        effects := effects + [FadeOut];
        bodyShow := false;
        highlighted, fadePending := None, false;
        effects := effects + [HighlightTrail(None)];
      }
    }
  }
}
