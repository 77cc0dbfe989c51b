/** The values `createMovieCardTemplate` computes for a movie card: the shortened
    description, the release year, the first genre, the comment count, and per control
    button its active class and `disabled` attribute. The markup around them is not
    modelled. */
module CardTemplate {
  import opened Js

  const MAX_DESCRIPTION_LENGTH := 140
  const ELLIPSIS := "..."
  const ACTIVE_CLASS := "film-card__controls-item--active"
  const DISABLED_ATTRIBUTE := " disabled"

  /** `takeDescription`: `''` for a falsy description, the first 139 characters and an
      ellipsis for a string longer than 140, otherwise the description itself. */
  function TakeDescription(description: Value): (shown: Value)
    ensures !Truthy(description) ==> shown == Str("")
    ensures description.Str? && |description.s| > MAX_DESCRIPTION_LENGTH ==>
      && shown.Str?
      && |shown.s| == MAX_DESCRIPTION_LENGTH + 2
      && shown.s == description.s[..MAX_DESCRIPTION_LENGTH - 1] + ELLIPSIS
    ensures Truthy(description) && !(description.Str? && |description.s| > MAX_DESCRIPTION_LENGTH) ==>
      shown == description
  {
    if !Truthy(description) then Str("")
    else if description.Str? && |description.s| > MAX_DESCRIPTION_LENGTH then
      Str(description.s[..MAX_DESCRIPTION_LENGTH - 1] + ELLIPSIS)
    else description
  }

  /** A shown description string is at most 142 characters long, equals the description
      when that has at most 140, and starts with the description's own first characters. */
  lemma DescriptionBound(description: Value)
    requires description.Str?
    ensures TakeDescription(description).Str?
    ensures |TakeDescription(description).s| <= MAX_DESCRIPTION_LENGTH + 2
    ensures |description.s| <= MAX_DESCRIPTION_LENGTH ==> TakeDescription(description) == description
    ensures var shown := TakeDescription(description).s;
      forall i :: 0 <= i < |shown| && i < MAX_DESCRIPTION_LENGTH - 1 ==> shown[i] == description.s[i]
  {
  }

  /** Shortening a shown description again changes nothing: an already shortened one is
      142 characters long and keeps the same first 139. */
  lemma TakeDescriptionIdempotent(description: Value)
    ensures TakeDescription(TakeDescription(description)) == TakeDescription(description)
  {
  }

  /** `getHumanizeYearDate`: the formatted year of a truthy date, `''` otherwise.
      `humanize` stands for the `humanizeYearDate` helper. */
  function YearText(date: Value, humanize: Value -> string): (year: string)
    ensures !Truthy(date) ==> year == ""
    ensures Truthy(date) ==> year == humanize(date)
  {
    if Truthy(date) then humanize(date) else ""
  }

  /** `genre[0] || ''` */
  function GenreText(genre: seq<Value>): (shown: Value)
    ensures |genre| > 0 && Truthy(genre[0]) ==> shown == genre[0]
    ensures |genre| == 0 || !Truthy(genre[0]) ==> shown == Str("")
  {
    if |genre| > 0 && Truthy(genre[0]) then genre[0] else Str("")
  }

  /** One control button of the card. */
  datatype Button = Button(activeClass: string, disabledAttribute: string)

  /** The computed parts of a card. */
  datatype Card = Card(
    year: string,
    genre: Value,
    description: Value,
    commentCount: nat,
    watchlist: Button,
    alreadyWatched: Button,
    favorite: Button)

  /** A button whose flag and `isDisabled` are the given values. */
  function ButtonFor(flag: Value, isDisabled: Value): Button
  {
    Button(if Truthy(flag) then ACTIVE_CLASS else "", if Truthy(isDisabled) then DISABLED_ATTRIBUTE else "")
  }

  /** The properties `createMovieCardTemplate` destructures, with the types it uses them
      at: `comments` and `filmInfo.genre` are arrays, `filmInfo`, `filmInfo.release`
      and `userDetails` objects. */
  predicate HasCardShape(state: Record)
  {
    && "comments" in state && state["comments"].Arr?
    && "filmInfo" in state && state["filmInfo"].Obj?
    && HasObject(state["filmInfo"], "release")
    && "genre" in state["filmInfo"].fields && state["filmInfo"].fields["genre"].Arr?
    && "userDetails" in state && state["userDetails"].Obj?
  }

  /** The card parts computed from a movie state. */
  function CardOf(state: Record, humanize: Value -> string): (card: Card)
    requires HasCardShape(state)
    ensures var info := state["filmInfo"].fields;
      && card.year == YearText(Field(info["release"], "date"), humanize)
      && card.genre == GenreText(info["genre"].items)
      && card.description == TakeDescription(Get(info, "description"))
      && card.commentCount == |state["comments"].items|
    ensures var details := state["userDetails"];
      && (card.watchlist.activeClass == ACTIVE_CLASS <==> Truthy(Field(details, "watchlist")))
      && (card.alreadyWatched.activeClass == ACTIVE_CLASS <==> Truthy(Field(details, "alreadyWatched")))
      && (card.favorite.activeClass == ACTIVE_CLASS <==> Truthy(Field(details, "favorite")))
    ensures
      && (card.watchlist.activeClass == ACTIVE_CLASS || card.watchlist.activeClass == "")
      && (card.alreadyWatched.activeClass == ACTIVE_CLASS || card.alreadyWatched.activeClass == "")
      && (card.favorite.activeClass == ACTIVE_CLASS || card.favorite.activeClass == "")
    ensures Truthy(Get(state, "isDisabled")) ==>
      && card.watchlist.disabledAttribute == DISABLED_ATTRIBUTE
      && card.alreadyWatched.disabledAttribute == DISABLED_ATTRIBUTE
      && card.favorite.disabledAttribute == DISABLED_ATTRIBUTE
    ensures !Truthy(Get(state, "isDisabled")) ==>
      && card.watchlist.disabledAttribute == ""
      && card.alreadyWatched.disabledAttribute == ""
      && card.favorite.disabledAttribute == ""
  {
    var info := state["filmInfo"].fields;
    var details := state["userDetails"];
    var isDisabled := Get(state, "isDisabled");
    Card(
      YearText(Field(info["release"], "date"), humanize),
      GenreText(info["genre"].items),
      TakeDescription(Get(info, "description")),
      |state["comments"].items|,
      ButtonFor(Field(details, "watchlist"), isDisabled),
      ButtonFor(Field(details, "alreadyWatched"), isDisabled),
      ButtonFor(Field(details, "favorite"), isDisabled))
  }
}
