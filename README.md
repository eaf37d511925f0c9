# Movie controller: view counter and like/dislike toggle

A model of the two pieces of behaviour in the movie controller of a movie
catalog backend (`src/movie/movie.controller.ts`):

- **Session view counter** (`ViewCounter`, `view_counter.dfy`). For ids that
  do not name inherited JavaScript object members, `GET movie/:id` reads the
  session's `movieCount` map, treating a missing map as empty. It writes back
  a copy in which the entry for the requested id is one more than before, or 1
  when that entry was missing or zero. Only then does it ask the
  movie service for the movie. The session is a `Session` object whose
  `movieCount` field (`None` until the first view) the method `GetMovie`
  replaces. The map written back is the function `Recorded`. The movie
  service's `findOne` becomes a lookup in a catalog map passed in as a
  parameter (`FindOne`).
- **Like/dislike toggle** (`Reactions`, `reactions.dfy`). The controller's doc
  comment defines three states per (movie, user): nothing lit, Like lit,
  Dislike lit. Pressing the lit button turns it off. Pressing the other button
  switches to it. The `like` endpoint passes `isLike = true` to the toggle and
  the `dislike` endpoint passes `false`. `Press` is the transition. `PressAll`
  applies a sequence of presses. `MovieUserLikes` keeps the stored rows, one
  `isLike` flag per (movie id, user id) pair that has a reaction, and its
  `Toggle` method creates, updates or deletes the pair's row according to
  `Press`.

## Model

| member | source | states |
|---|---|---|
| ViewCounter.Recorded | src/movie/movie.controller.ts:73-78 | the new map has the old keys plus `id`; the count for `id` is one more than before (an absent or falsy entry counts as 0, so it becomes 1); every other entry is unchanged |
| ViewCounter.Session.Counts | src/movie/movie.controller.ts:73 | a session with no `movieCount` reads as the empty map, otherwise as its stored map |
| ViewCounter.FindOne | src/movie/movie.controller.ts:80 | the lookup finds a movie exactly when the id is in the catalog, and then that movie |
| ViewCounter.GetMovie | src/movie/movie.controller.ts:67-81 | the session's `movieCount` becomes `Recorded(old counts, id)`: `id` goes up by one, other entries are kept. This happens whether or not the movie exists. The result is the lookup's answer. Only the given session is modified |
| ViewCounter.FirstView | src/movie/movie.controller.ts:73-78 | on a session with no counter, one view leaves exactly `{id: 1}` |
| ViewCounter.RecordAllCounts | src/movie/movie.controller.ts:73-78 | after any sequence of views, each id's count has grown by the number of its occurrences, and the keys are the old ones plus the viewed ids |
| ViewCounter.RepeatedViews | src/movie/movie.controller.ts:73-77 | `k` views of the same id add exactly `k` to its count (so `k` on a fresh session) |
| ViewCounter.TwoMovies | src/movie/movie.controller.ts:73-78 | three views of "5" and one of "6" on a fresh session give `{"5": 3, "6": 1}` |
| Reactions.Lit | src/movie/movie.controller.ts:149-157 | `isLike` lights Like and not Dislike; `!isLike` lights Dislike and not Like |
| Reactions.Press | src/movie/movie.controller.ts:120-143 | after a press, the pressed button is lit exactly when it was not lit before, and the other button is off |
| Reactions.PressLike | src/movie/movie.controller.ts:144-150 | the like endpoint toggles Like and leaves Dislike off |
| Reactions.PressDislike | src/movie/movie.controller.ts:152-158 | the dislike endpoint toggles Dislike and leaves Like off |
| Reactions.DocumentedWalkThrough | src/movie/movie.controller.ts:123-142 | the documented walk-through: Like on, Like off, Dislike on, Dislike off, Like on, then Dislike turns Like off and Dislike on |
| Reactions.PressSameTwice | src/movie/movie.controller.ts:126-136 | pressing one button twice restores the state, unless the other button was lit, in which case nothing is lit |
| Reactions.OtherButtonSwitches | src/movie/movie.controller.ts:138-142 | pressing a button while the other is lit turns the other off and this one on, in both directions |
| Reactions.OnlyLastButtonLit | src/movie/movie.controller.ts:120-143 | after any non-empty sequence of presses, nothing or only the last-pressed button is lit, so Like and Dislike are never both lit |
| Reactions.PressAllByTrailingRun | src/movie/movie.controller.ts:120-143 | closed form of any sequence of presses. The last button is lit exactly when the run of equal presses at the end has odd length. This is flipped when the run is the whole sequence and that button was lit at the start |
| Reactions.MovieUserLikes.ReactionOf | src/movie/movie.controller.ts:120-124 | a pair with no row has nothing lit. Like is lit exactly when the row exists with `isLike` set |
| Reactions.MovieUserLikes.Toggle | src/movie/movie.controller.ts:120-143 | the pair's new state is `Press(old state, isLike)` and is returned. The row exists exactly when something is lit. Every other pair's row is unchanged |
| Reactions.MovieUserLikes.CreateMovieLike | src/movie/movie.controller.ts:144-150 | `POST :id/like` is the toggle with `isLike = true` for that movie and user; other pairs are unchanged |
| Reactions.MovieUserLikes.CreateMovieDislike | src/movie/movie.controller.ts:152-158 | `POST :id/dislike` is the toggle with `isLike = false`; other pairs are unchanged |

Sessions are separate objects. `GetMovie` modifies only the session it is
given, so two sessions viewing the same movie do not affect each other's
counts.

## Left out

- Recorded: ids that name a member inherited from JavaScript's `Object.prototype` (`constructor`, `toString`, `valueOf`, `hasOwnProperty`, `__proto__` and the like) are outside the model. For such an id that is not yet in the map, the source reads the inherited member, which is truthy. It then stores a concatenated string such as `"function Object() { [native code] }1"` instead of a count, and later views keep appending `"1"`. The model treats the counter as a plain map and gives 1. The same limit applies to `GetMovie` and `FirstView`.
- Toggle: the service's existence checks are not modelled. The service is expected to fail with NotFound for an unknown movie, and an unknown or unauthenticated user is rejected before the controller runs. `Toggle`, `CreateMovieLike` and `CreateMovieDislike` accept every (movie id, user id) pair and update its row.
- The toggle's persistence (`toggleMovieLike`) is in `movie.service.ts`, which is not part of this model. `Toggle` follows the transition that the controller's doc comment describes. It returns the new state rather than the service's response, and it does not compute per-movie like and dislike counts.
- The other endpoints (`getMovies`, `getMoviesRecent`, `postMovie`, `patchMovie`, `deleteMovie`) only delegate to the movie service, which is not part of this model.
- Decorators (authentication and role checks, throttling, caching, Swagger documentation, validation pipes) are framework configuration with no logic here.
- `src/movie/movie.module.ts` only registers dependencies and entities. Its upload file name logic is commented out.
- Concurrency: the atomicity of the toggle's read-decide-write and of session writes belongs to the database and the session store. Every operation here is modelled as one sequential step.
- The session is modelled as an object holding an optional `movieCount` map. The untyped session bag and its transport over HTTP are not modelled. Counts are natural numbers, so a JavaScript number's precision limit is not modelled.
- `findOne` is modelled as a lookup in a catalog map. Its database access and how it turns the string id into a key are not modelled.
