/**
 The like/dislike buttons of a movie, per (movie, user) pair.

 Each pair is in one of three states: no button lit, Like lit, or Dislike
 lit. Pressing the lit button turns it off; pressing the other button (or
 any button when none is lit) lights that one and turns the other off.
 The `POST :id/like` endpoint presses Like, `POST :id/dislike` presses
 Dislike; both go through one toggle with an `isLike` flag.

 The store keeps one row per pair that has a reaction, holding `isLike`;
 a missing row means no button is lit.
 */
module Reactions {

  /** The buttons of one (movie, user) pair. Both lit is not representable. */
  datatype Reaction = Neither | Liked | Disliked {
    predicate LikeLit() { this == Liked }
    predicate DislikeLit() { this == Disliked }
  }

  /** The state a press lights: Like when `isLike`, Dislike otherwise. */
  function Lit(isLike: bool): (r: Reaction)
    ensures r.LikeLit() == isLike
    ensures r.DislikeLit() == !isLike
  {
    if isLike then Liked else Disliked
  }

  /** One press of the Like (`isLike`) or Dislike (`!isLike`) button. */
  function Press(state: Reaction, isLike: bool): (r: Reaction)
    // the pressed button ends up lit exactly when it was not lit before
    ensures r.LikeLit() <==> isLike && !state.LikeLit()
    ensures r.DislikeLit() <==> !isLike && !state.DislikeLit()
  {
    if state == Lit(isLike) then Neither else Lit(isLike)
  }

  /** `POST :id/like`: the toggle with `isLike` set. */
  function PressLike(state: Reaction): (r: Reaction)
    ensures r.LikeLit() <==> !state.LikeLit()
    ensures !r.DislikeLit()
  {
    Press(state, true)
  }

  /** `POST :id/dislike`: the toggle with `isLike` cleared. */
  function PressDislike(state: Reaction): (r: Reaction)
    ensures r.DislikeLit() <==> !state.DislikeLit()
    ensures !r.LikeLit()
  {
    Press(state, false)
  }

  /** The state after pressing the buttons `presses` in order, from `state`. */
  function PressAll(state: Reaction, presses: seq<bool>): Reaction
  {
    if presses == [] then state
    else Press(PressAll(state, presses[..|presses| - 1]), presses[|presses| - 1])
  }

  /** The number of equal presses at the end of `presses`. */
  function TrailingRun(presses: seq<bool>): (n: nat)
    requires presses != []
    ensures 1 <= n <= |presses|
  {
    var k := |presses|;
    if k == 1 || presses[k - 2] != presses[k - 1] then 1
    else 1 + TrailingRun(presses[..k - 1])
  }

  /** The walk-through of the buttons: from nothing lit, Like on, Like off,
      Dislike on, Dislike off, Like on, then Dislike turns Like off and
      Dislike on. */
  lemma DocumentedWalkThrough()
    ensures PressAll(Neither, [true]) == Liked
    ensures PressAll(Neither, [true, true]) == Neither
    ensures PressAll(Neither, [true, true, false]) == Disliked
    ensures PressAll(Neither, [true, true, false, false]) == Neither
    ensures PressAll(Neither, [true, true, false, false, true]) == Liked
    ensures PressAll(Neither, [true, true, false, false, true, false]) == Disliked
  {
  }

  /** Pressing the same button twice cancels out, except when the other
      button was lit: the first press switched to this one, the second
      turned it off. */
  lemma PressSameTwice(state: Reaction, isLike: bool)
    ensures Press(Press(state, isLike), isLike) ==
            if state == Lit(!isLike) then Neither else state
  {
  }

  /** Pressing a button while the other one is lit switches to it. */
  lemma OtherButtonSwitches(isLike: bool)
    ensures Press(Lit(!isLike), isLike) == Lit(isLike)
  {
  }

  /** After any non-empty sequence of presses, only the button pressed last
      can be lit: Like and Dislike are never lit together. */
  lemma OnlyLastButtonLit(state: Reaction, presses: seq<bool>)
    requires presses != []
    ensures PressAll(state, presses) == Neither ||
            PressAll(state, presses) == Lit(presses[|presses| - 1])
  {
  }

  /** The state after a sequence of presses, in closed form: the last button
      is lit exactly when the run of equal presses at the end has odd length,
      flipped when that run is the whole sequence and started on that
      button already lit. */
  lemma {:induction false} PressAllByTrailingRun(state: Reaction, presses: seq<bool>)
    requires presses != []
    ensures var last := presses[|presses| - 1];
            var selfStart := TrailingRun(presses) == |presses| && state == Lit(last);
            PressAll(state, presses) ==
              if (TrailingRun(presses) % 2 == 1) != selfStart then Lit(last) else Neither
  {
    var k := |presses|;
    var last := presses[k - 1];
    var prefix := presses[..k - 1];
    if k == 1 {
      assert prefix == [];
    } else if presses[k - 2] != last {
      PressAllByTrailingRun(state, prefix);
      assert prefix[k - 2] == presses[k - 2];
    } else {
      PressAllByTrailingRun(state, prefix);
      assert prefix[k - 2] == last;
    }
  }

  /** The stored reactions: one row per (movie id, user id) pair that has a
      reaction, holding its `isLike` flag. A map holds at most one row per
      key, so a pair can never have two reactions. */
  class MovieUserLikes {
    var rows: map<(string, string), bool>

    /** The buttons of `userId` on `movieId`, read from the rows. */
    function ReactionOf(movieId: string, userId: string): (r: Reaction)
      reads this
      ensures r == Neither <==> (movieId, userId) !in rows
      ensures r.LikeLit() <==> (movieId, userId) in rows && rows[(movieId, userId)]
    {
      var key := (movieId, userId);
      if key !in rows then Neither else Lit(rows[key])
    }

    constructor ()
      ensures rows == map[]
    {
      rows := map[];
    }

    /** The toggle: read the pair's state, press the button, and create,
        update or delete its row so that it holds the new state. */
    method Toggle(movieId: string, userId: string, isLike: bool) returns (next: Reaction)
      modifies this
      ensures next == Press(old(ReactionOf(movieId, userId)), isLike)
      ensures ReactionOf(movieId, userId) == next
      ensures (movieId, userId) in rows <==> next != Neither
      ensures rows - {(movieId, userId)} == old(rows) - {(movieId, userId)}
    {
      var key := (movieId, userId);
      next := Press(ReactionOf(movieId, userId), isLike);
      if next == Neither {
        rows := rows - {key};
      } else {
        rows := rows[key := next == Liked];
      }
    }

    /** `POST :id/like` for `userId`. */
    method CreateMovieLike(movieId: string, userId: string) returns (next: Reaction)
      modifies this
      ensures next == PressLike(old(ReactionOf(movieId, userId)))
      ensures ReactionOf(movieId, userId) == next
      ensures rows - {(movieId, userId)} == old(rows) - {(movieId, userId)}
    {
      next := Toggle(movieId, userId, true);
    }

    /** `POST :id/dislike` for `userId`. */
    method CreateMovieDislike(movieId: string, userId: string) returns (next: Reaction)
      modifies this
      ensures next == PressDislike(old(ReactionOf(movieId, userId)))
      ensures ReactionOf(movieId, userId) == next
      ensures rows - {(movieId, userId)} == old(rows) - {(movieId, userId)}
    {
      next := Toggle(movieId, userId, false);
    }
  }
}
