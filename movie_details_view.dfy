/** The expanded detail panel of one movie (`MovieDetailsView`): its state is the movie
    plus three transient keys for the comment draft and the scroll offset, converted
    to and from the movie by a pair of pure functions, and updated by the panel's
    input handlers. */
module DetailsView {
  import opened Js

  const CHECKED_EMOJI := "checkedEmoji"
  const COMMENT_TEXT := "commentText"
  const SCROLL_TOP := "scrollTop"

  /** The keys that exist only in the panel's state, never in the movie. */
  const TRANSIENT_KEYS: set<string> := {CHECKED_EMOJI, COMMENT_TEXT, SCROLL_TOP}

  /** `keyCode` of the Enter key. */
  const ENTER_KEY_CODE := 13

  /** Author written into every comment the panel submits. */
  const COMMENT_AUTHOR := "This User"

  /** `convertMovieToState`: every property of the movie, then the three transient
      keys set to `null`. */
  function ConvertMovieToState(movie: Record): (state: Record)
    ensures state.Keys == movie.Keys + TRANSIENT_KEYS
    ensures forall k :: k in movie && k !in TRANSIENT_KEYS ==> state[k] == movie[k]
    ensures forall k :: k in TRANSIENT_KEYS ==> state[k] == Null
  {
    movie + map[CHECKED_EMOJI := Null, COMMENT_TEXT := Null, SCROLL_TOP := Null]
  }

  /** `convertStateToMovie`: a copy of the state without the three transient keys. */
  function ConvertStateToMovie(state: Record): (movie: Record)
    ensures movie.Keys == state.Keys - TRANSIENT_KEYS
    ensures forall k :: k in movie ==> movie[k] == state[k]
  {
    state - TRANSIENT_KEYS
  }

  /** A movie survives the trip through the panel state exactly when it has none of the
      transient keys (a movie that has one loses it on the way back). */
  lemma MovieRoundTrip(movie: Record)
    ensures ConvertStateToMovie(ConvertMovieToState(movie)) == movie <==> movie.Keys !! TRANSIENT_KEYS
  {
  }

  /** The other direction: a state comes back unchanged from the movie it holds exactly
      when its draft is empty, that is, all three transient keys are present and `null`. */
  lemma StateRoundTrip(state: Record)
    ensures ConvertMovieToState(ConvertStateToMovie(state)) == state
        <==> forall k :: k in TRANSIENT_KEYS ==> k in state && state[k] == Null
  {
  }

  /** `_setState(patch)` (and the state part of `updateElement(patch)`): the patch's
      properties overwrite the state's, all others stay. */
  function SetState(state: Record, patch: Record): (merged: Record)
    ensures merged.Keys == state.Keys + patch.Keys
    ensures forall k :: k in patch ==> merged[k] == patch[k]
    ensures forall k :: k in state && k !in patch ==> merged[k] == state[k]
  {
    state + patch
  }

  /** After `reset(movie)` the draft is empty and every property of the movie is shown;
      when the old state held no property beyond the movie's and the transient ones,
      the new state is exactly the movie's state. */
  lemma ResetShowsMovie(state: Record, movie: Record)
    ensures var after := SetState(state, ConvertMovieToState(movie));
      && (forall k :: k in TRANSIENT_KEYS ==> after[k] == Null)
      && (forall k :: k in movie && k !in TRANSIENT_KEYS ==> after[k] == movie[k])
      && (state.Keys <= movie.Keys + TRANSIENT_KEYS ==> after == ConvertMovieToState(movie))
  {
  }

  /** The comment object handed to the `commentAdd` callback. */
  datatype NewComment = NewComment(id: int, author: string, comment: Value, commentDate: Timestamp, emotion: Value)

  /** The guard of `#commentAddHandler`: Ctrl or Meta held, Enter pressed, and an emoji
      chosen. The draft text is not looked at. */
  predicate SubmitsComment(ctrlKey: bool, metaKey: bool, keyCode: int, state: Record)
  {
    (ctrlKey || metaKey) && keyCode == ENTER_KEY_CODE && Truthy(Get(state, CHECKED_EMOJI))
  }

  /** An empty draft text does not stop a submission once an emoji is chosen, and the
      submitted comment then carries the empty string. */
  lemma EmptyTextDoesNotBlock(state: Record, emoji: string)
    requires emoji != ""
    ensures var draft := state[CHECKED_EMOJI := Str(emoji)][COMMENT_TEXT := Str("")];
      SubmitsComment(true, false, ENTER_KEY_CODE, draft) && CommentBody(draft) == Str("")
  {
  }

  /** `this._state.commentText ? this._state.commentText : ''` */
  function CommentBody(state: Record): (body: Value)
    ensures Truthy(Get(state, COMMENT_TEXT)) ==> body == Get(state, COMMENT_TEXT)
    ensures !Truthy(Get(state, COMMENT_TEXT)) ==> body == Str("")
  {
    var text := Get(state, COMMENT_TEXT);
    if Truthy(text) then text else Str("")
  }

  class MovieDetailsView {
    /** `this._state` */
    var state: Record
    /** How many times `updateElement` rebuilt the panel's element from the template. */
    var rerenders: nat
    /** How many times the panel called its `renderComments` callback. */
    var commentListRenders: nat
    /** The value `#restorePosition` last wrote to the element's `scrollTop`. */
    var restoredScroll: Value

    constructor (movie: Record)
      ensures state == ConvertMovieToState(movie)
      ensures rerenders == 0 && commentListRenders == 0 && restoredScroll == Undefined
    {
      state := ConvertMovieToState(movie);
      rerenders := 0;
      commentListRenders := 0;
      restoredScroll := Undefined;
    }

    /** `reset(movie)`: merges the movie's fresh state into the state and re-renders. */
    method Reset(movie: Record)
      modifies this
      ensures state == SetState(old(state), ConvertMovieToState(movie))
      ensures rerenders == old(rerenders) + 1
      ensures commentListRenders == old(commentListRenders) && restoredScroll == old(restoredScroll)
    {
      state := SetState(state, ConvertMovieToState(movie));
      rerenders := rerenders + 1;
    }

    /** `#emojiChangeHandler`: when the event came from an emoji input, records its value
        and the element's current scroll offset `scrolled` and re-renders; in every case
        re-renders the comment list and restores the scroll offset from the state. */
    method EmojiChange(emojiItem: Option<string>, scrolled: int)
      modifies this
      ensures emojiItem.Some? ==>
        && state == SetState(old(state), map[CHECKED_EMOJI := Str(emojiItem.value), SCROLL_TOP := Num(scrolled)])
        && rerenders == old(rerenders) + 1
      ensures emojiItem.None? ==> state == old(state) && rerenders == old(rerenders)
      ensures Get(state, COMMENT_TEXT) == Get(old(state), COMMENT_TEXT)
      ensures commentListRenders == old(commentListRenders) + 1
      ensures restoredScroll == Get(state, SCROLL_TOP)
    {
      if emojiItem.Some? {
        state := SetState(state, map[CHECKED_EMOJI := Str(emojiItem.value), SCROLL_TOP := Num(scrolled)]);
        rerenders := rerenders + 1;
      }
      commentListRenders := commentListRenders + 1;
      restoredScroll := Get(state, SCROLL_TOP);
    }

    /** `#commentInputHandler`: records the draft text and the scroll offset without
        re-rendering, then restores the scroll offset. */
    method CommentInput(text: string, scrolled: int)
      modifies this
      ensures state == SetState(old(state), map[COMMENT_TEXT := Str(text), SCROLL_TOP := Num(scrolled)])
      ensures Get(state, CHECKED_EMOJI) == Get(old(state), CHECKED_EMOJI)
      ensures rerenders == old(rerenders) && commentListRenders == old(commentListRenders)
      ensures restoredScroll == Num(scrolled)
    {
      state := SetState(state, map[COMMENT_TEXT := Str(text), SCROLL_TOP := Num(scrolled)]);
      restoredScroll := Get(state, SCROLL_TOP);
    }

    /** `#commentAddHandler`: the comment passed to the `commentAdd` callback, if the key
        event submits one. `commentsLength` is what `getCommentsLength()` returns and
        `now` what `generateDate()` returns. The state is not changed. */
    method CommentAdd(ctrlKey: bool, metaKey: bool, keyCode: int, commentsLength: int, now: Timestamp)
      returns (submitted: Option<NewComment>)
      ensures submitted.Some? <==> SubmitsComment(ctrlKey, metaKey, keyCode, state)
      ensures submitted.Some? ==>
        && submitted.value.id == commentsLength + 1
        && submitted.value.author == COMMENT_AUTHOR
        && submitted.value.comment == CommentBody(state)
        && submitted.value.commentDate == now
        && submitted.value.emotion == Get(state, CHECKED_EMOJI)
        && Truthy(submitted.value.emotion)
    {
      if SubmitsComment(ctrlKey, metaKey, keyCode, state) {
        submitted := Some(NewComment(commentsLength + 1, COMMENT_AUTHOR, CommentBody(state), now, Get(state, CHECKED_EMOJI)));
      } else {
        submitted := None;
      }
    }
  }

  /** Ids are `commentsLength + 1`, so after a deletion the id can already be taken:
      of comments 1, 2 and 3, comment 2 is deleted; a panel whose draft has an emoji
      then submits a comment with id 3, which comment 3 still holds. */
  method CommentIdMayCollide(movie: Record, now: Timestamp) returns (submitted: Option<NewComment>, remaining: seq<int>)
    ensures remaining == [1, 3]
    ensures submitted.Some? && submitted.value.id in remaining
    ensures submitted.value.comment == Str("") && submitted.value.emotion == Str("smile")
  {
    remaining := [1, 3];
    var panel := new MovieDetailsView(movie);
    panel.EmojiChange(Some("smile"), 0);
    submitted := panel.CommentAdd(true, false, ENTER_KEY_CODE, |remaining|, now);
  }
}
