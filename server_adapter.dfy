/** `#adaptMovieToServer`: the movie object the client holds, renamed into the server's
    snake_case shape before it is sent. Dates become ISO strings or `null`. */
module ServerAdapter {
  import opened Js

  /** The `filmInfo` keys renamed in `film_info`, and the names they get. */
  const FILM_CLIENT_KEYS: set<string> := {"alternativeTitle", "totalRating", "ageRating"}
  const FILM_SERVER_KEYS: set<string> := {"alternative_title", "total_rating", "age_rating", "release"}

  /** The `userDetails` keys renamed in `user_details`, and the names they get. */
  const USER_CLIENT_KEYS: set<string> := {"alreadyWatched", "watchingDate"}
  const USER_SERVER_KEYS: set<string> := {"already_watched", "watching_date"}

  /** What the adapter dereferences: `filmInfo`, `filmInfo.release` and `userDetails`
      are objects. */
  predicate IsClientMovie(movie: Record)
  {
    && "filmInfo" in movie && movie["filmInfo"].Obj?
    && HasObject(movie["filmInfo"], "release")
    && "userDetails" in movie && movie["userDetails"].Obj?
  }

  /** `v instanceof Date ? v.toISOString() : null`; `toISO` stands for `toISOString`. */
  function IsoOrNull(v: Value, toISO: Timestamp -> string): (r: Value)
    ensures v.Date? ==> r == Str(toISO(v.t))
    ensures !v.Date? ==> r == Null
  {
    if v.Date? then Str(toISO(v.t)) else Null
  }

  /** The `film_info` object: spread of `filmInfo`, the three renamed keys and the new
      `release`, then the camelCase keys deleted. */
  function AdaptFilmInfo(info: Record, toISO: Timestamp -> string): (out: Record)
    requires "release" in info && info["release"].Obj?
    ensures out.Keys == (info.Keys - FILM_CLIENT_KEYS) + FILM_SERVER_KEYS
    ensures forall k :: k in info && k !in FILM_CLIENT_KEYS && k !in FILM_SERVER_KEYS ==> out[k] == info[k]
    ensures out["alternative_title"] == Get(info, "alternativeTitle")
    ensures out["total_rating"] == Get(info, "totalRating")
    ensures out["age_rating"] == Get(info, "ageRating")
    ensures var release := info["release"].fields;
      out["release"] == Obj(map[
        "date" := IsoOrNull(Get(release, "date"), toISO),
        "release_country" := Get(release, "releaseCountry")])
  {
    var release := info["release"].fields;
    var spread := info + map[
      "alternative_title" := Get(info, "alternativeTitle"),
      "total_rating" := Get(info, "totalRating"),
      "age_rating" := Get(info, "ageRating"),
      "release" := Obj(map[
        "date" := IsoOrNull(Get(release, "date"), toISO),
        "release_country" := Get(release, "releaseCountry")])];
    spread - FILM_CLIENT_KEYS
  }

  /** The `user_details` object: spread of `userDetails`, the two renamed keys, then the
      camelCase keys deleted. */
  function AdaptUserDetails(details: Record, toISO: Timestamp -> string): (out: Record)
    ensures out.Keys == (details.Keys - USER_CLIENT_KEYS) + USER_SERVER_KEYS
    ensures forall k :: k in details && k !in USER_CLIENT_KEYS && k !in USER_SERVER_KEYS ==> out[k] == details[k]
    ensures out["already_watched"] == Get(details, "alreadyWatched")
    ensures out["watching_date"] == IsoOrNull(Get(details, "watchingDate"), toISO)
  {
    var spread := details + map[
      "already_watched" := Get(details, "alreadyWatched"),
      "watching_date" := IsoOrNull(Get(details, "watchingDate"), toISO)];
    spread - USER_CLIENT_KEYS
  }

  /** `#adaptMovieToServer(movie)`: `id` and `comments` copied, `film_info` and
      `user_details` adapted, no other key. */
  function AdaptMovieToServer(movie: Record, toISO: Timestamp -> string): (server: Record)
    requires IsClientMovie(movie)
    ensures server.Keys == {"id", "comments", "film_info", "user_details"}
    ensures server["id"] == Get(movie, "id")
    ensures server["comments"] == Get(movie, "comments")
    ensures server["film_info"] == Obj(AdaptFilmInfo(movie["filmInfo"].fields, toISO))
    ensures server["user_details"] == Obj(AdaptUserDetails(movie["userDetails"].fields, toISO))
  {
    map[
      "id" := Get(movie, "id"),
      "comments" := Get(movie, "comments"),
      "film_info" := Obj(AdaptFilmInfo(movie["filmInfo"].fields, toISO)),
      "user_details" := Obj(AdaptUserDetails(movie["userDetails"].fields, toISO))]
  }

  /** The server object keeps the three user flags of the movie: `watchlist` and
      `favorite` under their own names, `alreadyWatched` as `already_watched`. */
  lemma AdaptKeepsUserFlags(movie: Record, toISO: Timestamp -> string)
    requires IsClientMovie(movie)
    ensures var client := movie["userDetails"].fields;
      var server := AdaptMovieToServer(movie, toISO)["user_details"].fields;
      && server["already_watched"] == Get(client, "alreadyWatched")
      && ("watchlist" in client ==> "watchlist" in server && server["watchlist"] == client["watchlist"])
      && ("favorite" in client ==> "favorite" in server && server["favorite"] == client["favorite"])
      && "alreadyWatched" !in server && "watchingDate" !in server
  {
  }

  /** No camelCase key the adapter renames survives in the server object, and the
      release object holds exactly `date` and `release_country`. */
  lemma AdaptLeavesNoClientKeys(movie: Record, toISO: Timestamp -> string)
    requires IsClientMovie(movie)
    ensures var server := AdaptMovieToServer(movie, toISO);
      && server["film_info"].fields.Keys !! FILM_CLIENT_KEYS
      && server["user_details"].fields.Keys !! USER_CLIENT_KEYS
      && server["film_info"].fields["release"].Obj?
      && server["film_info"].fields["release"].fields.Keys == {"date", "release_country"}
  {
  }

  /** The serialised dates are ISO strings exactly for `Date` values: the release date and
      the watching date of the server object are strings iff the client held dates. */
  lemma AdaptDates(movie: Record, toISO: Timestamp -> string)
    requires IsClientMovie(movie)
    ensures var server := AdaptMovieToServer(movie, toISO);
      var date := server["film_info"].fields["release"].fields["date"];
      var watching := server["user_details"].fields["watching_date"];
      && (date.Str? <==> Get(movie["filmInfo"].fields["release"].fields, "date").Date?)
      && (date == Null <==> !Get(movie["filmInfo"].fields["release"].fields, "date").Date?)
      && (watching.Str? <==> Get(movie["userDetails"].fields, "watchingDate").Date?)
      && (watching == Null <==> !Get(movie["userDetails"].fields, "watchingDate").Date?)
  {
  }
}
