/** The replica's view state (core/internal/viewstate/view-state.go): the view it is in and the view it
    expects.  The lock makes each operation atomic, so a concurrent use is a sequence of operations.  When the
    first may exceed the second is a matter of the messages handled: see modules Steadiness and Pacing. */
module ViewStates {

  datatype Views = Views(current: nat, expected: nat)

  datatype Advance = Expected(view: nat) | Current(view: nat)

  function Advanced(s: Views, a: Advance): Views {
    match a
    case Expected(v) => if s.expected < v then s.(expected := v) else s
    case Current(v) => if s.current < v then s.(current := v) else s
  }

  /** The boolean that the operation returns. */
  predicate Succeeds(s: Views, a: Advance) {
    match a
    case Expected(v) => s.expected < v
    case Current(v) => s.current < v
  }

  function After(run: seq<Advance>): Views {
    if run == [] then Views(0, 0) else Advanced(After(run[..|run| - 1]), run[|run| - 1])
  }

  lemma {:induction false} NeverBack(run: seq<Advance>, k: nat)
    requires k <= |run|
    ensures After(run[..k]).current <= After(run).current && After(run[..k]).expected <= After(run).expected
    decreases |run| - k
  {
    if k < |run| {
      assert run[..k + 1][..k] == run[..k];
      NeverBack(run, k + 1);
    } else {
      assert run[..k] == run;
    }
  }

  /** Over every run: views are only ever advanced, and a view is entered, or expected, at most once --
      whatever is done under the lock after a successful advance is done once per view, in view order. */
  lemma AdvancesIncrease(run: seq<Advance>, i: nat, j: nat)
    requires i < j < |run| && run[i].Expected? == run[j].Expected?
    requires Succeeds(After(run[..i]), run[i]) && Succeeds(After(run[..j]), run[j])
    ensures run[i].view < run[j].view
  {
    assert run[..i + 1][..i] == run[..i];
    assert run[..j][..i + 1] == run[..i + 1];
    NeverBack(run[..j], i + 1);
  }

  class ViewState {
    var currentView: nat
    var expectedView: nat

    constructor ()
      ensures View() == After([])
    {
      currentView, expectedView := 0, 0;
    }

    ghost function View(): Views
      reads this
    {
      Views(currentView, expectedView)
    }

    method AdvanceExpectedView(view: nat) returns (ok: bool)
      modifies this
      ensures View() == Advanced(old(View()), Expected(view)) && ok == Succeeds(old(View()), Expected(view))
    {
      ok := expectedView < view;
      if ok {
        expectedView := view;
      }
    }

    /** Also returns the expected view, zero on failure. */
    method AdvanceCurrentView(view: nat) returns (ok: bool, expected: nat)
      modifies this
      ensures View() == Advanced(old(View()), Current(view)) && ok == Succeeds(old(View()), Current(view))
      ensures expected == if ok then expectedView else 0
    {
      if currentView < view {
        currentView := view;
        return true, expectedView;
      }
      return false, 0;
    }
  }
}
