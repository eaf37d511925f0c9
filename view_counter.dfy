/**
 The per-session view counter of `GET movie/:id`.

 A session may hold a `movieCount` map from movie id (a string) to the
 number of times this session fetched that movie's detail. Each detail
 request first writes back that map with the requested id's entry raised
 by one (the map counts as empty when the session has none yet), and only
 then asks the movie service for the movie. The counter is kept whether
 or not the movie exists.
 */
module ViewCounter {

  datatype Option<T> = None | Some(value: T)

  /** What the movie service's lookup by id answers. */
  datatype FindResult<M> = Found(movie: M) | NotFound

  /** The views recorded for `id` in `counts`; an absent id has none. */
  function Count(counts: map<string, nat>, id: string): nat
  {
    if id in counts then counts[id] else 0
  }

  /** The map written back after one view of `id`: a copy of `counts` whose
      entry for `id` becomes one more than before when it was truthy (present
      and non-zero), and 1 otherwise. */
  function Recorded(counts: map<string, nat>, id: string): (r: map<string, nat>)
    ensures r.Keys == counts.Keys + {id}
    ensures Count(r, id) == Count(counts, id) + 1
    ensures forall k :: k in counts && k != id ==> k in r && r[k] == counts[k]
  {
    counts[id := if id in counts && counts[id] != 0 then counts[id] + 1 else 1]
  }

  /** The counter after views of `ids`, in order. */
  function RecordAll(counts: map<string, nat>, ids: seq<string>): map<string, nat>
  {
    if ids == [] then counts
    else Recorded(RecordAll(counts, ids[..|ids| - 1]), ids[|ids| - 1])
  }

  /** The movie service's `findOne`, on a catalog standing in for the store. */
  function FindOne<M>(catalog: map<string, M>, id: string): (r: FindResult<M>)
    ensures r.Found? <==> id in catalog
    ensures r.Found? ==> r.movie == catalog[id]
  {
    if id in catalog then Found(catalog[id]) else NotFound
  }

  /** A client session; `movieCount` is `None` until the first detail view. */
  class Session {
    var movieCount: Option<map<string, nat>>

    /** The session's counter, the empty map when it has none. */
    function Counts(): (m: map<string, nat>)
      reads this
      ensures movieCount.None? ==> m == map[]
      ensures movieCount.Some? ==> m == movieCount.value
    {
      match movieCount
      case None => map[]
      case Some(counts) => counts
    }

    constructor ()
      ensures movieCount == None
    {
      movieCount := None;
    }
  }

  /** `GET movie/:id`: record the view in `session`, then look the movie up.
      Only `session` changes; every other session keeps its counts. */
  method GetMovie<M>(id: string, session: Session, catalog: map<string, M>)
    returns (r: FindResult<M>)
    modifies session
    ensures session.movieCount == Some(Recorded(old(session.Counts()), id))
    ensures Count(session.Counts(), id) == Count(old(session.Counts()), id) + 1
    ensures forall k :: k in old(session.Counts()) && k != id ==>
              k in session.Counts() && session.Counts()[k] == old(session.Counts())[k]
    ensures r == FindOne(catalog, id)
  {
    var movieCount := session.Counts();
    session.movieCount := Some(Recorded(movieCount, id));
    r := FindOne(catalog, id);
  }

  /** A session's first view of `id` leaves exactly `{id: 1}`. */
  lemma FirstView(id: string)
    ensures Recorded(map[], id) == map[id := 1]
  {
  }

  /** After the views `ids`, every id's count has grown by the number of
      times it occurs in `ids`, and the keys are the old ones plus `ids`. */
  lemma {:induction false} RecordAllCounts(counts: map<string, nat>, ids: seq<string>)
    ensures RecordAll(counts, ids).Keys == counts.Keys + set i | i in ids
    ensures forall k :: Count(RecordAll(counts, ids), k) == Count(counts, k) + multiset(ids)[k]
  {
    if ids != [] {
      var prefix, last := ids[..|ids| - 1], ids[|ids| - 1];
      RecordAllCounts(counts, prefix);
      assert ids == prefix + [last];
      assert multiset(ids) == multiset(prefix) + multiset{last};
      assert (set i | i in ids) == (set i | i in prefix) + {last};
    }
  }

  /** `k` views of one id on one session add exactly `k` to its count. */
  lemma {:induction false} RepeatedViews(counts: map<string, nat>, id: string, k: nat)
    ensures Count(RecordAll(counts, seq(k, _ => id)), id) == Count(counts, id) + k
  {
    if k > 0 {
      var views := seq(k, _ => id);
      assert views[..k - 1] == seq(k - 1, _ => id);
      RepeatedViews(counts, id, k - 1);
    }
  }

  /** Three views of "5" and one of "6" on a fresh session give
      `{"5": 3, "6": 1}`. */
  lemma TwoMovies()
    ensures RecordAll(map[], ["5", "5", "5", "6"]) == map["5" := 3, "6" := 1]
  {
    assert ["5", "5", "5", "6"][..3] == ["5", "5", "5"];
    assert ["5", "5", "5"][..2] == ["5", "5"];
    assert ["5", "5"][..1] == ["5"];
    assert ["5"][..0] == [];
  }
}
