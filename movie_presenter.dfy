/** One list entry's presenter (`MoviePresenter`): it owns a card component and a
    details component for one movie, switches between the `DEFAULT` mode (card only)
    and the `DETAILS` mode (detail panel open, page scroll locked, Escape listener on
    the document), and forwards flag toggles to the `changeMovie` callback.

    Components are identified by `View` values; `mounted` is the set of components
    whose element is in the document. The mount primitives behave as the framework
    documents them: `render` attaches, `remove` detaches (a no-op on a detached
    component), and `replace` swaps a mounted component for a new one but fails
    on a component that is not mounted. `trace` lists the calls the presenter makes
    to the framework, to the document and to its callbacks, in order. */
module Presenter {
  import opened Js
  import CardTemplate

  datatype Mode = DEFAULT | DETAILS

  /** A component created by `init`; `serial` numbers the `init` call that created it. */
  datatype View = CardView(serial: nat) | PanelView(serial: nat)

  datatype Step =
    | Render(view: View)
    | Replace(newView: View, oldView: View)
    | Remove(view: View)
    | ChangeMode
    | ChangeMovie(movie: Record, comments: seq<Value>)
    | LockBody      // `hide-overflow` added to the body's classes
    | UnlockBody    // `hide-overflow` removed from the body's classes
    | BindEscape    // the `keydown` listener added to the document
    | UnbindEscape  // the `keydown` listener removed from the document

  /** How `init` ended: normally, or by `replace` throwing because `oldView` is not in
      the document. */
  datatype Outcome = Done | ReplaceOfDetached(oldView: View)

  const WATCHLIST := "watchlist"
  const ALREADY_WATCHED := "alreadyWatched"
  const FAVORITE := "favorite"

  predicate HasUserDetails(movie: Record)
  {
    "userDetails" in movie && movie["userDetails"].Obj?
  }

  /** `movie.userDetails[flag] = !movie.userDetails[flag]`: negates one flag of the user
      details and changes nothing else of the movie. */
  function ToggleFlag(movie: Record, flag: string): (toggled: Record)
    requires HasUserDetails(movie)
    ensures HasUserDetails(toggled)
    ensures toggled.Keys == movie.Keys
    ensures forall k :: k in movie && k != "userDetails" ==> toggled[k] == movie[k]
    ensures var before, after := movie["userDetails"].fields, toggled["userDetails"].fields;
      && after.Keys == before.Keys + {flag}
      && after[flag] == Bool(!Truthy(Get(before, flag)))
      && (forall k :: k in before && k != flag ==> after[k] == before[k])
  {
    var details := movie["userDetails"].fields;
    movie["userDetails" := Obj(details[flag := Bool(!Truthy(Get(details, flag)))])]
  }

  /** Toggling a boolean flag twice gives back the movie. */
  lemma ToggleTwice(movie: Record, flag: string)
    requires HasUserDetails(movie)
    requires flag in movie["userDetails"].fields && movie["userDetails"].fields[flag].Bool?
    ensures ToggleFlag(ToggleFlag(movie, flag), flag) == movie
  {
    var details := movie["userDetails"].fields;
    var twice := ToggleFlag(ToggleFlag(movie, flag), flag);
    assert twice["userDetails"].fields == details;
    assert twice["userDetails"] == movie["userDetails"];
  }

  /** Toggling one flag leaves the other two flags as they were. */
  lemma ToggleKeepsOtherFlags(movie: Record, flag: string, other: string)
    requires HasUserDetails(movie)
    requires other != flag
    ensures Field(ToggleFlag(movie, flag)["userDetails"], other) == Field(movie["userDetails"], other)
  {
  }

  /** A card shown for a movie whose watchlist flag is `false` gets the active class for
      that control once the flag is toggled. */
  lemma ToggledWatchlistShowsActive(movie: Record, humanize: Value -> string)
    requires CardTemplate.HasCardShape(movie)
    requires Field(movie["userDetails"], WATCHLIST) == Bool(false)
    ensures CardTemplate.HasCardShape(ToggleFlag(movie, WATCHLIST))
    ensures CardTemplate.CardOf(movie, humanize).watchlist.activeClass == ""
    ensures CardTemplate.CardOf(ToggleFlag(movie, WATCHLIST), humanize).watchlist.activeClass
            == CardTemplate.ACTIVE_CLASS
  {
  }

  class MoviePresenter {
    var mode: Mode
    /** The movie and comments of the last `init`; `None` before the first one. */
    var movie: Option<Record>
    var comments: seq<Value>
    var card: Option<View>
    var details: Option<View>
    /** Serial for the components of the next `init`. */
    var serial: nat
    var mounted: set<View>
    /** Whether this presenter's `hide-overflow` class is on the body. */
    var bodyLocked: bool
    /** Whether this presenter's Escape listener is on the document. */
    var escapeBound: bool
    var trace: seq<Step>

    /** The presenter's invariant: both components exist from the first `init` on and are
        the newest ones, nothing newer is mounted, and the page lock and the Escape
        listener are held exactly while the mode is `DETAILS`. */
    ghost predicate Valid()
      reads this
    {
      && (card.Some? <==> details.Some?)
      && (card.Some? ==> movie.Some? && 0 < serial && card == Some(CardView(serial - 1)) && details == Some(PanelView(serial - 1)))
      && (forall v :: v in mounted ==> v.serial < serial)
      && (mode == DETAILS ==> card.Some?)
      && bodyLocked == (mode == DETAILS)
      && escapeBound == (mode == DETAILS)
    }

    /** The display matches the mode: the card is in the document and the panel is in
        the document exactly in `DETAILS`. Every operation but `Destroy` keeps this. */
    ghost predicate Shown()
      reads this
    {
      card.Some? && details.Some? ==> card.value in mounted && (details.value in mounted <==> mode == DETAILS)
    }

    constructor ()
      ensures Valid() && Shown()
      ensures mode == DEFAULT && movie == None && card == None && details == None
      ensures serial == 0 && mounted == {} && !bodyLocked && !escapeBound && trace == []
    {
      mode := DEFAULT;
      movie := None;
      comments := [];
      card := None;
      details := None;
      serial := 0;
      mounted := {};
      bodyLocked := false;
      escapeBound := false;
      trace := [];
    }

    /** `render(view, container)` */
    method Mount(view: View)
      modifies this`mounted, this`trace
      ensures mounted == old(mounted) + {view}
      ensures trace == old(trace) + [Render(view)]
    {
      mounted := mounted + {view};
      trace := trace + [Render(view)];
    }

    /** `replace(newView, oldView)`: fails, changing nothing, when `oldView` is detached. */
    method Swap(newView: View, oldView: View) returns (ok: bool)
      modifies this`mounted, this`trace
      ensures ok == (oldView in old(mounted))
      ensures ok ==> mounted == old(mounted) - {oldView} + {newView} && trace == old(trace) + [Replace(newView, oldView)]
      ensures !ok ==> mounted == old(mounted) && trace == old(trace)
    {
      ok := oldView in mounted;
      if ok {
        mounted := mounted - {oldView} + {newView};
        trace := trace + [Replace(newView, oldView)];
      }
    }

    /** `remove(view)`: detaches the component's element if it is attached; `remove(null)`
        does nothing. */
    method Unmount(view: Option<View>)
      modifies this`mounted, this`trace
      ensures view.Some? ==> mounted == old(mounted) - {view.value} && trace == old(trace) + [Remove(view.value)]
      ensures view.None? ==> mounted == old(mounted) && trace == old(trace)
    {
      if view.Some? {
        mounted := mounted - {view.value};
        trace := trace + [Remove(view.value)];
      }
    }

    /** The second half of `init`: `replace` the previous card by the new one, then (when
        `withDetails`) the previous details component by the new one, then `remove` both
        previous components. Stops at the first `replace` that throws. */
    method ReplaceComponents(newCard: View, newDetails: View, prevCard: View, prevDetails: View, withDetails: bool)
      returns (outcome: Outcome)
      requires newCard.CardView? && newDetails.PanelView? && prevCard.CardView? && prevDetails.PanelView?
      requires newCard != prevCard && newDetails != prevDetails
      modifies this`mounted, this`trace
      ensures prevCard !in old(mounted) ==>
        outcome == ReplaceOfDetached(prevCard) && mounted == old(mounted) && trace == old(trace)
      ensures prevCard in old(mounted) && withDetails && prevDetails !in old(mounted) ==>
        && outcome == ReplaceOfDetached(prevDetails)
        && mounted == old(mounted) - {prevCard} + {newCard}
        && trace == old(trace) + [Replace(newCard, prevCard)]
      ensures prevCard in old(mounted) && withDetails && prevDetails in old(mounted) ==>
        && outcome == Done
        && mounted == old(mounted) - {prevCard, prevDetails} + {newCard, newDetails}
        && trace == old(trace) + [Replace(newCard, prevCard), Replace(newDetails, prevDetails), Remove(prevCard), Remove(prevDetails)]
      ensures prevCard in old(mounted) && !withDetails ==>
        && outcome == Done
        && mounted == old(mounted) - {prevCard, prevDetails} + {newCard}
        && trace == old(trace) + [Replace(newCard, prevCard), Remove(prevCard), Remove(prevDetails)]
    {
      var ok := Swap(newCard, prevCard);
      if !ok {
        return ReplaceOfDetached(prevCard);
      }
      if withDetails {
        ok := Swap(newDetails, prevDetails);
        if !ok {
          return ReplaceOfDetached(prevDetails);
        }
      }
      Unmount(Some(prevCard));
      Unmount(Some(prevDetails));
      outcome := Done;
    }

    /** `init(movie, comments)` as written: creates a new card and a new details
        component; on the first call renders the card; on later calls replaces the
        previous card, then the previous details component, then removes both. The
        details replacement throws whenever the panel is closed, because the previous
        details component is then not in the document. */
    method Init(m: Record, cs: seq<Value>) returns (outcome: Outcome)
      requires Valid()
      modifies this
      ensures Valid()
      ensures movie == Some(m) && comments == cs
      ensures serial == old(serial) + 1
      ensures card == Some(CardView(old(serial))) && details == Some(PanelView(old(serial)))
      ensures mode == old(mode) && bodyLocked == old(bodyLocked) && escapeBound == old(escapeBound)
      ensures old(card).None? ==>
        && outcome == Done
        && mounted == old(mounted) + {card.value}
        && trace == old(trace) + [Render(card.value)]
      ensures old(card).Some? && old(card).value !in old(mounted) ==>
        && outcome == ReplaceOfDetached(old(card).value)
        && mounted == old(mounted) && trace == old(trace)
      ensures old(card).Some? && old(card).value in old(mounted) && old(details).value !in old(mounted) ==>
        && outcome == ReplaceOfDetached(old(details).value)
        && mounted == old(mounted) - {old(card).value} + {card.value}
        && trace == old(trace) + [Replace(card.value, old(card).value)]
      ensures old(card).Some? && old(card).value in old(mounted) && old(details).value in old(mounted) ==>
        && outcome == Done
        && mounted == old(mounted) - {old(card).value, old(details).value} + {card.value, details.value}
        && trace == old(trace) + [Replace(card.value, old(card).value), Replace(details.value, old(details).value),
                                  Remove(old(card).value), Remove(old(details).value)]
      ensures old(Shown()) && old(card).Some? && old(mode) == DEFAULT ==> outcome == ReplaceOfDetached(old(details).value)
      ensures old(Shown()) && (old(card).None? || old(mode) == DETAILS) ==> outcome == Done && Shown()
    {
      movie, comments := Some(m), cs;
      var prevCard, prevDetails := card, details;
      card, details := Some(CardView(serial)), Some(PanelView(serial));
      serial := serial + 1;
      if prevCard.None? || prevDetails.None? {
        Mount(card.value);
        return Done;
      }
      outcome := ReplaceComponents(card.value, details.value, prevCard.value, prevDetails.value, true);
    }

    /** `init` as evidently intended: the details component is replaced only while the
        panel is open (and merely removed otherwise), so re-initialising a presenter whose
        display matches its mode never throws and keeps the mode and the display. */
    method InitCorrected(m: Record, cs: seq<Value>) returns (outcome: Outcome)
      requires Valid()
      modifies this
      ensures Valid()
      ensures movie == Some(m) && comments == cs
      ensures serial == old(serial) + 1
      ensures card == Some(CardView(old(serial))) && details == Some(PanelView(old(serial)))
      ensures mode == old(mode) && bodyLocked == old(bodyLocked) && escapeBound == old(escapeBound)
      ensures old(card).None? ==>
        && outcome == Done
        && mounted == old(mounted) + {card.value}
        && trace == old(trace) + [Render(card.value)]
      ensures old(card).Some? && old(Shown()) && mode == DEFAULT ==>
        && mounted == old(mounted) - {old(card).value} + {card.value}
        && trace == old(trace) + [Replace(card.value, old(card).value), Remove(old(card).value), Remove(old(details).value)]
      ensures old(card).Some? && old(Shown()) && mode == DETAILS ==>
        && mounted == old(mounted) - {old(card).value, old(details).value} + {card.value, details.value}
        && trace == old(trace) + [Replace(card.value, old(card).value), Replace(details.value, old(details).value),
                                  Remove(old(card).value), Remove(old(details).value)]
      ensures old(Shown()) ==> outcome == Done && Shown()
    {
      movie, comments := Some(m), cs;
      var prevCard, prevDetails := card, details;
      card, details := Some(CardView(serial)), Some(PanelView(serial));
      serial := serial + 1;
      if prevCard.None? || prevDetails.None? {
        Mount(card.value);
        return Done;
      }
      outcome := ReplaceComponents(card.value, details.value, prevCard.value, prevDetails.value, mode == DETAILS);
    }

    /** `destroy`: removes both components; the mode, the page lock and the Escape
        listener are left as they are. */
    method Destroy()
      requires Valid()
      modifies this
      ensures Valid()
      ensures card.Some? ==> mounted == old(mounted) - {card.value, details.value}
      ensures card.Some? ==> trace == old(trace) + [Remove(card.value), Remove(details.value)]
      ensures card.None? ==> mounted == old(mounted) && trace == old(trace)
      ensures mode == old(mode) && bodyLocked == old(bodyLocked) && escapeBound == old(escapeBound)
      ensures movie == old(movie) && comments == old(comments) && card == old(card) && details == old(details)
      ensures serial == old(serial)
    {
      Unmount(card);
      Unmount(details);
    }

    /** `#onCloseDetailsView`: removes the panel, unlocks the page, removes the Escape
        listener and returns to `DEFAULT`. A second call finds nothing left to undo. */
    method OnCloseDetailsView()
      requires Valid()
      modifies this
      ensures Valid()
      ensures mode == DEFAULT && !bodyLocked && !escapeBound
      ensures details.Some? ==> mounted == old(mounted) - {details.value}
      ensures details.Some? ==> trace == old(trace) + [Remove(details.value), UnlockBody, UnbindEscape]
      ensures details.None? ==> mounted == old(mounted) && trace == old(trace) + [UnlockBody, UnbindEscape]
      ensures movie == old(movie) && comments == old(comments) && card == old(card) && details == old(details)
      ensures serial == old(serial)
      ensures old(Shown()) ==> Shown()
    {
      Unmount(details);
      bodyLocked := false;
      escapeBound := false;
      trace := trace + [UnlockBody, UnbindEscape];
      mode := DEFAULT;
    }

    /** `resetView`: closes the panel when it is open, and does nothing otherwise. */
    method ResetView()
      requires Valid()
      modifies this
      ensures Valid()
      ensures mode == DEFAULT
      ensures old(mode) == DEFAULT ==> unchanged(this)
      ensures old(mode) == DETAILS ==>
        && details.Some?
        && mounted == old(mounted) - {details.value}
        && trace == old(trace) + [Remove(details.value), UnlockBody, UnbindEscape]
      ensures movie == old(movie) && comments == old(comments) && card == old(card) && details == old(details)
      ensures serial == old(serial)
      ensures old(Shown()) ==> Shown()
    {
      if mode == DETAILS {
        OnCloseDetailsView();
      }
    }

    /** `#onEscapeKeyDown`: on the Escape key (`isEscape`, the result of `isEscapeKey`)
        prevents the default action and closes the panel; any other key changes nothing. */
    method OnEscapeKeyDown(isEscape: bool) returns (defaultPrevented: bool)
      requires Valid()
      modifies this
      ensures Valid()
      ensures defaultPrevented == isEscape
      ensures !isEscape ==> unchanged(this)
      ensures isEscape ==> mode == DEFAULT && !bodyLocked && !escapeBound
      ensures isEscape && details.Some? ==>
        && mounted == old(mounted) - {details.value}
        && trace == old(trace) + [Remove(details.value), UnlockBody, UnbindEscape]
      ensures isEscape && details.None? ==>
        mounted == old(mounted) && trace == old(trace) + [UnlockBody, UnbindEscape]
      ensures movie == old(movie) && comments == old(comments) && card == old(card) && details == old(details)
      ensures serial == old(serial)
      ensures old(Shown()) ==> Shown()
    {
      defaultPrevented := isEscape;
      if isEscape {
        OnCloseDetailsView();
      }
    }

    /** `#onMovieCardClick`: calls `changeMode` first, then renders the panel, switches to
        `DETAILS`, locks the page and adds the Escape listener. The card's click handler
        exists only once `init` has created the components. */
    method OnMovieCardClick()
      requires Valid() && card.Some?
      modifies this
      ensures Valid()
      ensures mode == DETAILS && bodyLocked && escapeBound
      ensures mounted == old(mounted) + {details.value}
      ensures trace == old(trace) + [ChangeMode, Render(details.value), LockBody, BindEscape]
      ensures movie == old(movie) && comments == old(comments) && card == old(card) && details == old(details)
      ensures serial == old(serial)
      ensures old(Shown()) ==> Shown()
    {
      trace := trace + [ChangeMode];
      Mount(details.value);
      mode := DETAILS;
      bodyLocked := true;
      trace := trace + [LockBody];
      escapeBound := true;
      trace := trace + [BindEscape];
    }

    /** The common body of the three toggle handlers: negate one flag of the movie in
        place, then pass copies of the movie and the comments to `changeMovie`. */
    method ToggleAndChange(flag: string)
      requires Valid() && movie.Some? && HasUserDetails(movie.value)
      modifies this
      ensures Valid()
      ensures movie == Some(ToggleFlag(old(movie).value, flag))
      ensures trace == old(trace) + [ChangeMovie(movie.value, comments)]
      ensures mode == old(mode) && bodyLocked == old(bodyLocked) && escapeBound == old(escapeBound)
      ensures comments == old(comments) && card == old(card) && details == old(details)
      ensures mounted == old(mounted) && serial == old(serial)
    {
      movie := Some(ToggleFlag(movie.value, flag));
      trace := trace + [ChangeMovie(movie.value, comments)];
    }

    /** `#onWatchlistClick` */
    method OnWatchlistClick()
      requires Valid() && movie.Some? && HasUserDetails(movie.value)
      modifies this
      ensures Valid()
      ensures movie == Some(ToggleFlag(old(movie).value, WATCHLIST))
      ensures trace == old(trace) + [ChangeMovie(movie.value, comments)]
      ensures mode == old(mode) && bodyLocked == old(bodyLocked) && escapeBound == old(escapeBound)
      ensures comments == old(comments) && card == old(card) && details == old(details)
      ensures mounted == old(mounted) && serial == old(serial)
    {
      ToggleAndChange(WATCHLIST);
    }

    /** `#onAlreadyWatchedClick` */
    method OnAlreadyWatchedClick()
      requires Valid() && movie.Some? && HasUserDetails(movie.value)
      modifies this
      ensures Valid()
      ensures movie == Some(ToggleFlag(old(movie).value, ALREADY_WATCHED))
      ensures trace == old(trace) + [ChangeMovie(movie.value, comments)]
      ensures mode == old(mode) && bodyLocked == old(bodyLocked) && escapeBound == old(escapeBound)
      ensures comments == old(comments) && card == old(card) && details == old(details)
      ensures mounted == old(mounted) && serial == old(serial)
    {
      ToggleAndChange(ALREADY_WATCHED);
    }

    /** `#onFavoriteClick` */
    method OnFavoriteClick()
      requires Valid() && movie.Some? && HasUserDetails(movie.value)
      modifies this
      ensures Valid()
      ensures movie == Some(ToggleFlag(old(movie).value, FAVORITE))
      ensures trace == old(trace) + [ChangeMovie(movie.value, comments)]
      ensures mode == old(mode) && bodyLocked == old(bodyLocked) && escapeBound == old(escapeBound)
      ensures comments == old(comments) && card == old(card) && details == old(details)
      ensures mounted == old(mounted) && serial == old(serial)
    {
      ToggleAndChange(FAVORITE);
    }
  }

  /** A presenter initialised once and initialised again with its panel closed (what
      happens when a toggle on the card leads the list to refresh it) throws from
      `init`: the details component it replaces was never rendered. */
  method RefreshWithPanelClosedThrows(m: Record) returns (outcome: Outcome)
    ensures outcome == ReplaceOfDetached(PanelView(0))
  {
    var presenter := new MoviePresenter();
    var first := presenter.Init(m, []);
    assert presenter.mounted == {CardView(0)};
    outcome := presenter.Init(m, []);
  }

  /** The corrected `init` refreshes the same presenter without error, with the panel
      closed or open. */
  method RefreshCorrectedSucceeds(m: Record) returns (closed: Outcome, open: Outcome)
    ensures closed == Done && open == Done
  {
    var presenter := new MoviePresenter();
    var first := presenter.InitCorrected(m, []);
    closed := presenter.InitCorrected(m, []);
    presenter.OnMovieCardClick();
    open := presenter.InitCorrected(m, []);
  }
}
