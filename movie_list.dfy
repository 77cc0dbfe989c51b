/** The list of movie presenters that supplies the `changeMode` callback: it resets
    every presenter of the list, so that opening one detail panel closes any other.
    The caller that wires this up is not part of the modelled sources; this module
    states what that wiring guarantees: at most one presenter is in `DETAILS`.

    In `CardClick` the list runs `changeMode` before the clicked presenter's own
    handler, which then records the `ChangeMode` call in its trace. An entry that was
    open therefore shows the effects of the reset (`Remove`, `UnlockBody`,
    `UnbindEscape`) before its `ChangeMode` step: the trace orders each presenter's
    own steps, not the steps of different presenters. */
module List {
  import opened Js
  import opened Presenter

  /** At most one presenter of the list has its panel open. */
  ghost predicate AtMostOneOpen(presenters: seq<MoviePresenter>)
    reads presenters
  {
    forall i, j :: 0 <= i < |presenters| && 0 <= j < |presenters| && presenters[i].mode == DETAILS && presenters[j].mode == DETAILS ==> i == j
  }

  /** No presenter appears twice in the list. */
  predicate Distinct(presenters: seq<MoviePresenter>)
  {
    forall i, j :: 0 <= i < j < |presenters| ==> presenters[i] != presenters[j]
  }

  class MovieList {
    const presenters: seq<MoviePresenter>

    ghost predicate Valid()
      reads this, presenters
    {
      && Distinct(presenters)
      && (forall i :: 0 <= i < |presenters| ==> presenters[i].Valid() && presenters[i].Shown())
      && AtMostOneOpen(presenters)
    }

    constructor (entries: seq<MoviePresenter>)
      requires Distinct(entries)
      requires forall i :: 0 <= i < |entries| ==> entries[i].Valid() && entries[i].Shown() && entries[i].mode == DEFAULT
      ensures presenters == entries && Valid()
    {
      presenters := entries;
    }

    /** `changeMode`: `resetView` on every presenter of the list, in list order. */
    method ChangeMode()
      requires Valid()
      modifies set i | 0 <= i < |presenters| :: presenters[i]
      ensures Valid()
      ensures forall i :: 0 <= i < |presenters| ==> presenters[i].mode == DEFAULT
      ensures forall i :: 0 <= i < |presenters| && old(presenters[i].mode) == DEFAULT ==> unchanged(presenters[i])
      ensures forall i :: 0 <= i < |presenters| ==> presenters[i].card == old(presenters[i].card)
    {
      var n := 0;
      while n < |presenters|
        invariant 0 <= n <= |presenters|
        invariant forall i :: 0 <= i < |presenters| ==> presenters[i].Valid() && presenters[i].Shown()
        invariant forall i :: 0 <= i < n ==> presenters[i].mode == DEFAULT
        invariant forall i :: n <= i < |presenters| ==> unchanged(presenters[i])
        invariant forall i :: 0 <= i < n && old(presenters[i].mode) == DEFAULT ==> unchanged(presenters[i])
        invariant forall i :: 0 <= i < n ==> presenters[i].card == old(presenters[i].card)
      {
        presenters[n].ResetView();
        n := n + 1;
      }
    }

    /** A click on the card of entry `k`: the presenter's `changeMode` call resets the
        whole list before entry `k` opens its panel, so afterwards entry `k` is the only
        open one. */
    method CardClick(k: nat)
      requires Valid()
      requires k < |presenters| && presenters[k].card.Some?
      modifies set i | 0 <= i < |presenters| :: presenters[i]
      ensures Valid()
      ensures presenters[k].mode == DETAILS
      ensures forall i :: 0 <= i < |presenters| && i != k ==> presenters[i].mode == DEFAULT
    {
      ChangeMode();
      presenters[k].OnMovieCardClick();
    }

    /** The close button of entry `k`'s panel. */
    method Close(k: nat)
      requires Valid()
      requires k < |presenters|
      modifies presenters[k]
      ensures Valid()
      ensures presenters[k].mode == DEFAULT
    {
      presenters[k].OnCloseDetailsView();
    }

    /** A key press reaching entry `k`'s Escape listener. */
    method EscapeKey(k: nat, isEscape: bool)
      requires Valid()
      requires k < |presenters|
      modifies presenters[k]
      ensures Valid()
      ensures isEscape ==> presenters[k].mode == DEFAULT
      ensures !isEscape ==> unchanged(presenters[k])
    {
      var _ := presenters[k].OnEscapeKeyDown(isEscape);
    }

    /** Entry `k` re-initialised with a changed movie (after the model notifies a change),
        through the corrected `init`: it succeeds and keeps every mode. */
    method Refresh(k: nat, movie: Record, comments: seq<Value>) returns (outcome: Outcome)
      requires Valid()
      requires k < |presenters|
      modifies presenters[k]
      ensures Valid()
      ensures outcome == Done
      ensures presenters[k].mode == old(presenters[k].mode)
      ensures presenters[k].movie == Some(movie)
    {
      outcome := presenters[k].InitCorrected(movie, comments);
    }
  }
}
