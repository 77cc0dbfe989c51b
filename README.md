# cinemaddict: a Dafny model of the movie catalogue's data handling

This project models the logic underneath the DOM code of the cinemaddict catalogue, a
browser UI that lists movies. Users can toggle three flags per movie (watchlist,
watched, favourite), open a detail panel, and write comments. It proves properties of
that model. Five pieces are modelled:

- **`Model`** (`movies_model.dfy`) is the canonical movie collection, `MoviesModel`. It
  is a class holding the ordered list of movie objects. `updateMovie`, `addMovie` and
  `deleteMovie` each reassign the list and then notify the observers. A notification
  log stands in for `_notify`, and each entry records the list the observers see.
  Update and delete throw on an unknown id and leave the list unchanged.
- **`Presenter`** (`movie_presenter.dfy`) is the per-movie presenter, `MoviePresenter`.
  It is a class with the `DEFAULT`/`DETAILS` mode, the current card and details
  components, and the set of components in the document. It also holds the body's
  `hide-overflow` lock and the document's Escape listener as flags. A trace records
  every call the presenter makes, in order:
  - to the mount primitives (`render`, `replace`, `remove`);
  - to its callbacks (`changeMode`, `changeMovie`);
  - to the document.

  The mount primitives behave as the framework documents them: `replace` fails when
  the component it replaces is not in the document.
- **`List`** (`movie_list.dfy`) is the list that supplies `changeMode`. It resets every
  presenter, so at most one panel is open at any time. The repository does not include
  this caller; the module states what such a caller guarantees.
- **`DetailsView`** (`movie_details_view.dfy`) covers the detail panel,
  `MovieDetailsView`:
  - the pure converters between a movie and the panel state, which adds three
    transient keys;
  - the round trips between the two, in both directions;
  - the handlers that update the comment draft;
  - the guard that submits a comment.
- **`CardTemplate`** (`movie_card_template.dfy`) covers the values the card template
  computes: the shortened description, the year, the first genre, the comment count,
  and each button's active class and `disabled` attribute.
- **`ServerAdapter`** (`server_adapter.dfy`) is `#adaptMovieToServer`. It renames
  camelCase keys to snake_case, removes the old keys and serialises dates.

`Js` (`js.dfy`) holds the JavaScript values these pieces work on. A plain object is a
`map<string, Value>`. Object spread is map union, with later keys winning. `delete` is
key removal. Truthiness follows JavaScript's rules.

Where the code and the design description disagree, the model follows the code:

- The design says submitting a comment needs non-empty text. The code only checks
  that an emoji is chosen, and sends `''` for an empty draft (`EmptyTextDoesNotBlock`).
- The design says a re-render keeps whichever mode was active. As written, `init`
  throws when called again while the panel is closed (see Findings).
- `reset` goes through `updateElement`, which merges the patch into the state. So the
  new state is the old state overwritten by the movie's state, not the movie's state
  alone (`ResetShowsMovie` says when the two are equal).

## Model

| member | source | states |
|---|---|---|
| `Model.FindIndex` | src/model/movies-model.js:14 | `findIndex` by id: the result is -1 iff no movie has the id, and otherwise the first position holding it |
| `Model.ReplaceAt` | src/model/movies-model.js:20-24 | the spliced list has the same length, holds the update at the index, and every other position is unchanged |
| `Model.RemoveAt` | src/model/movies-model.js:45-48 | the spliced list is one shorter; positions before the index are kept and later ones move down by one, so relative order is preserved |
| `Model.MoviesModel.constructor` | src/model/movies-model.js:4-7 | the collection starts from a generated list of 30 movies and with no notifications |
| `Model.MoviesModel.Movies` | src/model/movies-model.js:9-11 | the getter returns the current list and changes nothing |
| `Model.MoviesModel.UpdateMovie` | src/model/movies-model.js:13-27 | on an unknown id it throws "Can't update unexisting movie" and changes neither the list nor the log; otherwise it replaces the first match and then notifies `(updateType, update)` once, with observers seeing the new list |
| `Model.MoviesModel.AddMovie` | src/model/movies-model.js:29-36 | prepends the movie with no id check and notifies `(updateType, update)` with the new list |
| `Model.MoviesModel.DeleteMovie` | src/model/movies-model.js:38-51 | on an unknown id it throws "Can't delete unexisting movie" and changes nothing; otherwise it removes the first match and notifies `updateType` with no payload |
| `Model.UpdateKeepsIds` | src/model/movies-model.js:13-24 | an update leaves the list's id sequence exactly as it was |
| `Model.UpdateThenFind` | src/model/movies-model.js:14-24 | after an update, looking the id up finds the new movie at the old position |
| `Model.UpdateOnDistinctIds` | src/model/movies-model.js:13-24 | an update keeps the list's ids distinct |
| `Model.DeleteRemovesOne` | src/model/movies-model.js:38-48 | delete removes exactly one element, the first match: the old multiset equals the new one plus that element |
| `Model.DeleteOnDistinctIds` | src/model/movies-model.js:38-48 | on a list with distinct ids, the deleted id is gone afterwards and the ids stay distinct |
| `Model.AddMayDuplicateId` | src/model/movies-model.js:29-33 | adding a movie whose id is already present breaks id uniqueness, and later lookups find the added movie |
| `Presenter.ToggleFlag` | src/presenter/movie-presenter.js:101-114 | a toggle negates one `userDetails` flag (by truthiness) and leaves every other key of the movie and of `userDetails` unchanged |
| `Presenter.ToggleTwice` | src/presenter/movie-presenter.js:101-102 | toggling a boolean flag twice gives back the movie |
| `Presenter.ToggleKeepsOtherFlags` | src/presenter/movie-presenter.js:101-114 | toggling one flag leaves each other flag as it was |
| `Presenter.ToggledWatchlistShowsActive` | src/presenter/movie-presenter.js:101-104 | for a movie whose watchlist flag is false, the card shows no active class before the toggle and shows it after |
| `Presenter.MoviePresenter.constructor` | src/presenter/movie-presenter.js:12-26 | a new presenter is in `DEFAULT` mode with no components, nothing mounted, no body lock and no Escape listener |
| `Presenter.MoviePresenter.Mount` | src/presenter/movie-presenter.js:48 | `render` attaches the component and records the call |
| `Presenter.MoviePresenter.Swap` | src/presenter/movie-presenter.js:52-53 | `replace` succeeds iff the old component is mounted; it then swaps old for new, and otherwise changes nothing |
| `Presenter.MoviePresenter.Unmount` | src/presenter/movie-presenter.js:55-56 | `remove` detaches the component, and `remove(null)` does nothing |
| `Presenter.MoviePresenter.ReplaceComponents` | src/presenter/movie-presenter.js:52-56 | replaces the card, then the details component when asked, then removes both old components; it stops at the first `replace` that throws, and the result states the mounted set and the call order |
| `Presenter.MoviePresenter.Init` | src/presenter/movie-presenter.js:28-57 | creates a new pair of components; the first call renders only the card; later calls replace both old components and then remove them; when the panel is closed the call throws after replacing the card |
| `Presenter.MoviePresenter.InitCorrected` | src/presenter/movie-presenter.js:28-57 | the corrected `init` replaces the details component only in `DETAILS`; when the display matches the mode it never throws, and mode and display still match afterwards |
| `Presenter.MoviePresenter.Destroy` | src/presenter/movie-presenter.js:59-62 | removes both components and leaves the mode, the body lock and the Escape listener as they were |
| `Presenter.MoviePresenter.OnCloseDetailsView` | src/presenter/movie-presenter.js:70-75 | removes the panel, unlocks the body, unbinds Escape and sets `DEFAULT`, in that order; after a repeat the mode, body lock, Escape listener and mounted set are as after the first call, and only the recorded remove, unlock and unbind calls are added again |
| `Presenter.MoviePresenter.ResetView` | src/presenter/movie-presenter.js:64-68 | changes nothing in `DEFAULT` and closes the panel in `DETAILS`, so the mode is always `DEFAULT` afterwards |
| `Presenter.MoviePresenter.OnEscapeKeyDown` | src/presenter/movie-presenter.js:77-82 | on Escape it prevents the default and closes the panel (recording the unlock and unbind calls even when no panel exists); any other key changes nothing |
| `Presenter.MoviePresenter.OnMovieCardClick` | src/presenter/movie-presenter.js:92-99 | calls `changeMode` first, then renders the panel, enters `DETAILS`, locks the body and binds Escape, in that order |
| `Presenter.MoviePresenter.ToggleAndChange` | src/presenter/movie-presenter.js:101-114 | negates one flag of the working movie, then calls `changeMovie` once with copies of the movie and the comments; nothing else changes |
| `Presenter.MoviePresenter.OnWatchlistClick` | src/presenter/movie-presenter.js:101-104 | negates `watchlist` alone and calls `changeMovie` once |
| `Presenter.MoviePresenter.OnAlreadyWatchedClick` | src/presenter/movie-presenter.js:106-109 | negates `alreadyWatched` alone and calls `changeMovie` once |
| `Presenter.MoviePresenter.OnFavoriteClick` | src/presenter/movie-presenter.js:111-114 | negates `favorite` alone and calls `changeMovie` once |
| `Presenter.RefreshWithPanelClosedThrows` | src/presenter/movie-presenter.js:47-53 | counterexample: a second `init` on a presenter whose panel was never opened throws from replacing details component 0 |
| `Presenter.RefreshCorrectedSucceeds` | src/presenter/movie-presenter.js:47-56 | the corrected `init` re-initialises the same presenter without error, with the panel closed and with it open |
| `List.MovieList.constructor` | src/presenter/movie-presenter.js:22-26 | a list of distinct presenters, all closed, satisfies the list invariant |
| `List.MovieList.ChangeMode` | src/presenter/movie-presenter.js:64-68 | `resetView` on every presenter leaves all of them in `DEFAULT`; closed presenters are untouched and the invariant is kept |
| `List.MovieList.CardClick` | src/presenter/movie-presenter.js:92-99 | after a card click the clicked entry is the only one in `DETAILS` |
| `List.MovieList.Close` | src/presenter/movie-presenter.js:70-75 | closing an entry keeps the invariant that at most one panel is open |
| `List.MovieList.EscapeKey` | src/presenter/movie-presenter.js:77-82 | an Escape key closes the entry; any other key leaves it unchanged; the invariant is kept |
| `List.MovieList.Refresh` | src/presenter/movie-presenter.js:28-57 | re-initialising an entry through the corrected `init` succeeds, keeps its mode and keeps the invariant |
| `DetailsView.ConvertMovieToState` | src/view/movie-details-view.js:27-32 | the state has every key of the movie plus the three transient keys; transient keys are `null` and every other key keeps the movie's value |
| `DetailsView.ConvertStateToMovie` | src/view/movie-details-view.js:34-42 | the movie has exactly the state's keys minus the three transient ones, each with the state's value |
| `DetailsView.MovieRoundTrip` | src/view/movie-details-view.js:27-42 | a movie comes back unchanged from state and back iff it has none of the transient keys |
| `DetailsView.StateRoundTrip` | src/view/movie-details-view.js:27-42 | a state comes back unchanged from movie and back iff its three transient keys are present and `null` |
| `DetailsView.SetState` | src/view/movie-details-view.js:116-121 | `_setState` merges: the patch's keys take the patch's values, and every other key keeps its value |
| `DetailsView.ResetShowsMovie` | src/view/movie-details-view.js:21-25 | after `reset` the draft fields are `null` and every movie key shows the movie's value; the state equals the movie's state when the old state had no other keys |
| `DetailsView.CommentBody` | src/view/movie-details-view.js:150 | the submitted text is the draft text when that is truthy, and `''` otherwise |
| `DetailsView.EmptyTextDoesNotBlock` | src/view/movie-details-view.js:146-150 | with an emoji chosen and an empty draft, Ctrl+Enter still submits a comment whose text is `''` |
| `DetailsView.CommentIdMayCollide` | src/view/movie-details-view.js:148 | a panel with an emoji chosen, given the two comments 1 and 3 that remain after comment 2 was deleted, submits a comment whose id 3 is already taken |
| `DetailsView.MovieDetailsView.constructor` | src/view/movie-details-view.js:9-15 | the panel starts with the movie's state |
| `DetailsView.MovieDetailsView.Reset` | src/view/movie-details-view.js:21-25 | merges the movie's state into the state and re-renders once |
| `DetailsView.MovieDetailsView.EmojiChange` | src/view/movie-details-view.js:103-114 | from an emoji input it records the emoji and scroll offset and re-renders; otherwise the state is unchanged; the draft text never changes; the comments re-render and the scroll offset is restored from the state |
| `DetailsView.MovieDetailsView.CommentInput` | src/view/movie-details-view.js:116-123 | records the draft text and scroll offset without re-rendering, keeps the chosen emoji and restores the offset |
| `DetailsView.MovieDetailsView.CommentAdd` | src/view/movie-details-view.js:145-155 | submits iff (Ctrl or Meta) and keyCode 13 and an emoji is chosen; the comment has id `length + 1`, author "This User", the draft text or `''`, the given date and the chosen emoji |
| `CardTemplate.TakeDescription` | src/templates/movie-card-template.js:37-45 | a falsy description gives `''`; a string over 140 characters gives its first 139 plus "..." (142 characters); anything else is unchanged |
| `CardTemplate.DescriptionBound` | src/templates/movie-card-template.js:37-45 | a shown description is at most 142 characters, and a description of at most 140 is shown as it is |
| `CardTemplate.TakeDescriptionIdempotent` | src/templates/movie-card-template.js:37-45 | shortening an already shown description changes nothing |
| `CardTemplate.YearText` | src/templates/movie-card-template.js:28-33 | a falsy release date gives `''`, and a truthy one its formatted year |
| `CardTemplate.GenreText` | src/templates/movie-card-template.js:55 | the genre shown is `genre[0]` when that is truthy, and `''` otherwise, including for an empty list |
| `CardTemplate.CardOf` | src/templates/movie-card-template.js:3-67 | each control gets the active class iff its flag is truthy; all three buttons are `disabled` iff `isDisabled`; the comment count is `comments.length`; year, genre and description come from the helpers |
| `ServerAdapter.IsoOrNull` | src/api.js:39 | a `Date` becomes its ISO string, and anything else `null` |
| `ServerAdapter.AdaptFilmInfo` | src/api.js:33-42 | `film_info` has the keys of `filmInfo` minus the three camelCase ones, plus the three snake_case ones and `release`; renamed values are copied, other keys pass through unchanged, and `release` is exactly `{date, release_country}` |
| `ServerAdapter.AdaptUserDetails` | src/api.js:43-47 | `user_details` has the keys of `userDetails` minus `alreadyWatched`/`watchingDate`, plus `already_watched`/`watching_date`; other keys pass through unchanged |
| `ServerAdapter.AdaptMovieToServer` | src/api.js:29-57 | the server object has exactly `id`, `comments`, `film_info` and `user_details`; `id` and `comments` are copied unchanged |
| `ServerAdapter.AdaptKeepsUserFlags` | src/api.js:43-54 | `watchlist` and `favorite` keep their values, `already_watched` takes `alreadyWatched`, and the camelCase keys are gone |
| `ServerAdapter.AdaptLeavesNoClientKeys` | src/api.js:50-54 | none of the five renamed camelCase keys survives, and `release` holds exactly two keys |
| `ServerAdapter.AdaptDates` | src/api.js:38-46 | each serialised date is a string iff the client held a `Date`, and `null` iff it did not |

## Findings

| source | as written | input that shows it | evidently intended | confidence | as-written member | corrected member |
|---|---|---|---|---|---|---|
| src/presenter/movie-presenter.js:47-53 | after the first `init`, every later `init` calls `replace(newDetails, prevDetails)` whether or not the panel is open; `replace` fails on a component that is not in the document | `init(m, cs)` twice with the panel never opened, for example a refresh after a watchlist toggle on the card: the second call throws after the card was already replaced | replace the details component only while the mode is `DETAILS` (otherwise only remove it), so a refresh keeps the current mode | medium; not executed; depends on `replace` failing on a detached component, as the framework documents | `Presenter.MoviePresenter.Init`, `Presenter.RefreshWithPanelClosedThrows` | `Presenter.MoviePresenter.InitCorrected`, `Presenter.RefreshCorrectedSucceeds` |

## Left out

- The framework's `Observable`, `AbstractView`, `AbstractStatefulView` and mount primitives are not part of the modelled sources. They appear only as the behaviour the presenter and panel rely on: a notification log, a set of mounted components, and merge semantics for `_setState`/`updateElement`.
- Markup: the template strings, the diffing of rendered markup, and DOM handler (re)binding (`setXxxHandler`, `_restoreHandlers`, `querySelector`, `addEventListener` on sub-elements) are not modelled.
- Foreign helpers are parameters of the members that call them: `toISOString`, `humanizeYearDate`, `isEscapeKey`, `generateDate`, `getCommentsLength` and the element's live `scrollTop`. `getTimeFromMins` and the runtime text are not modelled.
- The network methods of `Api` (`movies`, `updateMovie`, `getComments`, `addComment`, `deleteComment`) are asynchronous HTTP I/O and are not modelled. Neither is the `JSON.stringify` that drops `undefined` values from the adapted object.
- `films-presenter.js` only renders views from mock data and is not modelled. `movies-amount-pesenter.js` is a thin render/replace wrapper; its re-registration of the observer on every `init` is not modelled.
- `MovieDetailsView`'s callbacks `renderComments` and `getCommentsLength` are abstract: a render counter and a number parameter. The presenter builds the panel with `comments` where the panel expects those two callbacks; that call is not reproduced.
- Numbers are integers and objects compare by value. The id comparison `===` is value equality, which matches JavaScript for the numeric ids the collection holds.
- Model.MoviesModel.Movies: returns the list as a value; in the source the caller receives the live array and could mutate it.
- Presenter.MoviePresenter.OnWatchlistClick: toggles the working copy as a value. In the source the flag is flipped in place on the object that `init` received, and `{ ...movie }` shares `userDetails` with it. The caller's movie and the copy passed to `changeMovie` therefore alias the flipped flag; this aliasing is not captured. The same holds for `OnAlreadyWatchedClick` and `OnFavoriteClick`.
- Presenter.MoviePresenter.ToggleAndChange: requires the working movie to have a `userDetails` object; on any other movie the source throws a `TypeError`.
- ServerAdapter.IsoOrNull: an Invalid Date (a `Date` whose time is NaN, such as `new Date('x')`) passes `instanceof Date`, and its `toISOString()` throws `RangeError`, so `#adaptMovieToServer` throws; `Js.Value` has no such date and `toISO` is total, so this throw is not modelled.
- Presenter.MoviePresenter.OnMovieCardClick: requires the components to exist. The card's click handler is attached only by `init`, and `render(null)` is not modelled. The effects of the `changeMode` callback are supplied by `List.MovieList.CardClick`, which runs them before the presenter's own steps.
- The body lock and the Escape listener are per-presenter flags (`bodyLocked`, `escapeBound`). In the source the body's class list and the document's listeners are shared by the page, and the list invariant keeps at most one presenter holding them.
- ServerAdapter.AdaptMovieToServer: requires `filmInfo`, `filmInfo.release` and `userDetails` to be objects; otherwise the source throws a `TypeError` or spreads a primitive.
- CardTemplate.TakeDescription: a truthy non-string description is returned unchanged. An array longer than 140 elements, on which `substring` would throw, is not distinguished. Lengths count characters, not UTF-16 code units.
- CardTemplate.CardOf: requires the shape the template destructures. A missing `filmInfo`, `release`, `userDetails`, `genre` or `comments` makes the source throw.
- The design's requirement that a failed comment submission keeps the draft concerns the comment collaborator, which the panel reaches only through its `commentAdd` callback. It is not modelled.
