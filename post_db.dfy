/** The post log `post_db` (main.py:39-42) and POST /post (main.py:50-58). */
module PostsStore {
  import opened Models

  /** The two entries the log starts with. */
  const SeedPosts: seq<Timestamp> := [Timestamp(0, 12), Timestamp(1, 10)]

  /** Each entry's id is its position in the log. */
  ghost predicate IdsArePositions(log: seq<Timestamp>)
  {
    forall i :: 0 <= i < |log| ==> log[i].id == i
  }

  ghost predicate IdsIncrease(log: seq<Timestamp>)
  {
    forall i, j :: 0 <= i < j < |log| ==> log[i].id < log[j].id
  }

  /** The id `post` gives the next entry: one more than the last entry's id,
      or 0 for an empty log. On a log whose ids are positions, that is the
      log's length, which is above every id already used. */
  function NextId(log: seq<Timestamp>): (r: int)
    ensures log == [] ==> r == 0
    ensures IdsArePositions(log) ==> r == |log|
    ensures IdsIncrease(log) ==> forall i :: 0 <= i < |log| ==> log[i].id < r
  {
    if |log| > 0 then log[|log| - 1].id + 1 else 0
  }

  /** Ids that are positions strictly increase in append order (timestamps
      need not: the seed has 12 before 10). */
  lemma PositionsIncrease(log: seq<Timestamp>)
    requires IdsArePositions(log)
    ensures IdsIncrease(log)
  {
  }

  /** Appending the entry `post` keeps increasing ids increasing. */
  lemma AppendKeepsIncrease(log: seq<Timestamp>, now: int)
    requires IdsIncrease(log)
    ensures IdsIncrease(log + [Timestamp(NextId(log), now)])
  {
  }

  class PostLog {
    var entries: seq<Timestamp>

    ghost predicate Valid()
      reads this
    {
      IdsArePositions(entries)
    }

    /** The seeded log of main.py:39-42. */
    constructor ()
      ensures Valid()
      ensures entries == SeedPosts
    {
      entries := SeedPosts;
    }

    /** POST /post with the clock reading `now`: appends exactly one entry,
        whose id is `NextId` of the log before, and returns it. */
    method Post(now: int) returns (t: Timestamp)
      modifies this
      ensures t == Timestamp(NextId(old(entries)), now)
      ensures entries == old(entries) + [t]
      ensures old(Valid()) ==> Valid() && t.id == old(|entries|)
      ensures old(IdsIncrease(entries)) ==> IdsIncrease(entries)
    {
      ghost var before := entries;
      if |entries| > 0 {
        var lastPostId := entries[|entries| - 1].id;
        t := Timestamp(lastPostId + 1, now);
      } else {
        t := Timestamp(0, now);
      }
      entries := entries + [t];
      if IdsIncrease(before) {
        AppendKeepsIncrease(before, now);
      }
    }
  }
}
