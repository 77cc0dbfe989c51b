/** The canonical movie collection (`MoviesModel`): an ordered list of movie objects
    keyed by their `id`, with update, add and delete operations, each of which
    reassigns the list and then notifies the observers. */
module Model {
  import opened Js

  /** Length of the generated list the collection starts from. */
  const MOCK_MOVIES_AMOUNT := 30

  const UPDATE_MISSING := "Can't update unexisting movie"
  const DELETE_MISSING := "Can't delete unexisting movie"

  /** The event kind passed through to the observers; the collection never inspects it. */
  type UpdateType = string

  /** One `_notify` call: the event kind, the payload if one was passed, and the list
      the observers read from the collection while they are being notified. */
  datatype Notification = Notification(updateType: UpdateType, payload: Option<Record>, seen: seq<Record>)

  /** How a mutation ended: normally, or by throwing an `Error` with this message. */
  datatype Outcome = Done | Thrown(message: string)

  function IdOf(movie: Record): Value
  {
    Get(movie, "id")
  }

  /** `movies.findIndex((movie) => movie.id === id)`: the first position whose `id`
      equals `id`, or -1 when there is none. */
  function FindIndex(movies: seq<Record>, id: Value): (r: int)
    ensures -1 <= r < |movies|
    ensures r == -1 <==> forall j :: 0 <= j < |movies| ==> IdOf(movies[j]) != id
    ensures 0 <= r ==> IdOf(movies[r]) == id
    ensures forall j :: 0 <= j < r ==> IdOf(movies[j]) != id
  {
    if |movies| == 0 then -1
    else if IdOf(movies[0]) == id then 0
    else
      var k := FindIndex(movies[1..], id);
      if k == -1 then -1 else k + 1
  }

  /** `[...s.slice(0, i), x, ...s.slice(i + 1)]` */
  function ReplaceAt(s: seq<Record>, i: nat, x: Record): (r: seq<Record>)
    requires i < |s|
    ensures |r| == |s|
    ensures r[i] == x
    ensures forall j :: 0 <= j < |s| && j != i ==> r[j] == s[j]
  {
    s[..i] + [x] + s[i + 1..]
  }

  /** `[...s.slice(0, i), ...s.slice(i + 1)]` */
  function RemoveAt(s: seq<Record>, i: nat): (r: seq<Record>)
    requires i < |s|
    ensures |r| == |s| - 1
    ensures forall j :: 0 <= j < i ==> r[j] == s[j]
    ensures forall j :: i <= j < |r| ==> r[j] == s[j + 1]
  {
    s[..i] + s[i + 1..]
  }

  /** The ids of a list of movies, in list order. */
  function Ids(movies: seq<Record>): (ids: seq<Value>)
    ensures |ids| == |movies|
    ensures forall j :: 0 <= j < |movies| ==> ids[j] == IdOf(movies[j])
  {
    seq(|movies|, j requires 0 <= j < |movies| => IdOf(movies[j]))
  }

  /** No two movies of the list share an id. */
  predicate DistinctIds(movies: seq<Record>)
  {
    forall i, j :: 0 <= i < j < |movies| ==> IdOf(movies[i]) != IdOf(movies[j])
  }

  class MoviesModel {
    var movies: seq<Record>
    var notifications: seq<Notification>

    /** The collection starts from a list of generated movies; the generator is not
        part of this model, so its output is a parameter. */
    constructor (generated: seq<Record>)
      requires |generated| == MOCK_MOVIES_AMOUNT
      ensures movies == generated && notifications == []
    {
      movies := generated;
      notifications := [];
    }

    /** The `movies` getter: the current list, unchanged. */
    method Movies() returns (current: seq<Record>)
      ensures current == movies
    {
      current := movies;
    }

    /** `updateMovie`: replaces the first movie whose id is `update.id` by `update` and
        notifies `(updateType, update)`; throws, changing nothing, when no movie has that id. */
    method UpdateMovie(updateType: UpdateType, update: Record) returns (outcome: Outcome)
      modifies this
      ensures var i := FindIndex(old(movies), IdOf(update));
        if i == -1 then
          outcome == Thrown(UPDATE_MISSING) && movies == old(movies) && notifications == old(notifications)
        else
          && outcome == Done
          && movies == ReplaceAt(old(movies), i, update)
          && notifications == old(notifications) + [Notification(updateType, Some(update), movies)]
    {
      var index := FindIndex(movies, IdOf(update));
      if index == -1 {
        return Thrown(UPDATE_MISSING);
      }
      movies := movies[..index] + [update] + movies[index + 1..];
      notifications := notifications + [Notification(updateType, Some(update), movies)];
      outcome := Done;
    }

    /** `addMovie`: puts `update` in front of the list, without looking at its id, and
        notifies `(updateType, update)`. */
    method AddMovie(updateType: UpdateType, update: Record)
      modifies this
      ensures movies == [update] + old(movies)
      ensures notifications == old(notifications) + [Notification(updateType, Some(update), movies)]
    {
      movies := [update] + movies;
      notifications := notifications + [Notification(updateType, Some(update), movies)];
    }

    /** `deleteMovie`: removes the first movie whose id is `update.id` and notifies
        `updateType` alone; throws, changing nothing, when no movie has that id. */
    method DeleteMovie(updateType: UpdateType, update: Record) returns (outcome: Outcome)
      modifies this
      ensures var i := FindIndex(old(movies), IdOf(update));
        if i == -1 then
          outcome == Thrown(DELETE_MISSING) && movies == old(movies) && notifications == old(notifications)
        else
          && outcome == Done
          && movies == RemoveAt(old(movies), i)
          && notifications == old(notifications) + [Notification(updateType, None, movies)]
    {
      var index := FindIndex(movies, IdOf(update));
      if index == -1 {
        return Thrown(DELETE_MISSING);
      }
      movies := movies[..index] + movies[index + 1..];
      notifications := notifications + [Notification(updateType, None, movies)];
      outcome := Done;
    }
  }

  /** After an update, the id sequence of the list is what it was: an update never
      moves, adds or drops an id. */
  lemma UpdateKeepsIds(movies: seq<Record>, update: Record)
    requires FindIndex(movies, IdOf(update)) != -1
    ensures Ids(ReplaceAt(movies, FindIndex(movies, IdOf(update)), update)) == Ids(movies)
  {
  }

  /** After an update, looking the id up again finds the new movie at the same place. */
  lemma UpdateThenFind(movies: seq<Record>, update: Record)
    requires FindIndex(movies, IdOf(update)) != -1
    ensures var i := FindIndex(movies, IdOf(update));
      FindIndex(ReplaceAt(movies, i, update), IdOf(update)) == i
  {
  }

  /** Deleting removes exactly the first movie with the id: the multiset of movies
      loses that one element and nothing else. */
  lemma DeleteRemovesOne(movies: seq<Record>, id: Value)
    requires FindIndex(movies, id) != -1
    ensures var i := FindIndex(movies, id);
      multiset(RemoveAt(movies, i)) + multiset{movies[i]} == multiset(movies)
  {
    var i := FindIndex(movies, id);
    var before, after := movies[..i], movies[i + 1..];
    assert movies == before + [movies[i]] + after;
    assert RemoveAt(movies, i) == before + after;
    calc {
      multiset(movies);
      multiset(before) + multiset{movies[i]} + multiset(after);
      multiset(before + after) + multiset{movies[i]};
    }
  }

  /** On a list whose ids are distinct, a deleted id is gone from the list afterwards,
      and the list keeps distinct ids. */
  lemma DeleteOnDistinctIds(movies: seq<Record>, id: Value)
    requires DistinctIds(movies)
    requires FindIndex(movies, id) != -1
    ensures var after := RemoveAt(movies, FindIndex(movies, id));
      FindIndex(after, id) == -1 && DistinctIds(after)
  {
  }

  /** An update keeps the ids of a list distinct. */
  lemma UpdateOnDistinctIds(movies: seq<Record>, update: Record)
    requires DistinctIds(movies)
    requires FindIndex(movies, IdOf(update)) != -1
    ensures DistinctIds(ReplaceAt(movies, FindIndex(movies, IdOf(update)), update))
  {
  }

  /** `addMovie` makes no id check: adding a movie whose id is already present yields a
      list where the id is no longer unique, and later lookups find the added movie. */
  lemma AddMayDuplicateId(movies: seq<Record>, added: Record)
    requires FindIndex(movies, IdOf(added)) != -1
    ensures !DistinctIds([added] + movies)
    ensures FindIndex([added] + movies, IdOf(added)) == 0
  {
    var i := FindIndex(movies, IdOf(added));
    var after := [added] + movies;
    assert after[0] == added && after[i + 1] == movies[i];
    assert IdOf(after[0]) == IdOf(after[i + 1]);
  }
}
