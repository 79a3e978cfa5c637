/** Request sequences against freshly seeded stores, as a client of the
    endpoints sees them. */
module Scenarios {
  import opened Models
  import opened DogsStore
  import opened PostsStore

  /** The bulldogs of the seed, in insertion order. */
  lemma SeedBulldogs()
    ensures DogLists.FilterKind(SeedDogs, Bulldog) == [SeedDogs[1], SeedDogs[5], SeedDogs[6]]
  {
  }

  /** GET /dog on the seed: all seven dogs without a filter, the three
      bulldogs for "bulldog", and an error at "kind" for "poodle". */
  method ListSeed() returns (all: Outcome<seq<Dog>>, bulldogs: Outcome<seq<Dog>>, poodles: Outcome<seq<Dog>>)
    ensures all == Ok(SeedDogs) && |all.value| == 7
    ensures bulldogs == Ok([SeedDogs[1], SeedDogs[5], SeedDogs[6]])
    ensures poodles == Err("kind")
  {
    var db := new DogsDb();
    all := db.GetDog(None);
    bulldogs := db.GetDog(Some("bulldog"));
    SeedBulldogs();
    poodles := db.GetDog(Some("poodle"));
  }

  /** POST /dog on the seed. A payload with pk 0 clashes with a key. One
      with pk 100 is accepted but stored under key 7, the table's size, so
      GET /dog/100 still fails while GET /dog/7 returns it. */
  method CreateOnSeed() returns (clash: Outcome<Dog>, created: Outcome<Dog>, byPk: Outcome<Dog>, bySlot: Outcome<Dog>)
    ensures clash == Err("pk")
    ensures created == Ok(Dog("Lassie", 100, Terrier))
    ensures byPk == Err("pk")
    ensures bySlot == Ok(Dog("Lassie", 100, Terrier))
  {
    var db := new DogsDb();
    clash := db.CreateDog(Dog("Clash", 0, Bulldog));
    var lassie := Dog("Lassie", 100, Terrier);
    created := db.CreateDog(lassie);
    byPk := db.GetDogByPk(100);
    bySlot := db.GetDogByPk(7);
  }

  /** PATCH /dog/{pk} on the seed: a missing key is an error at "pk"; an
      existing one returns the replacement, which GET then reflects. */
  method UpdateOnSeed() returns (missing: Outcome<Dog>, updated: Outcome<Dog>, fetched: Outcome<Dog>)
    ensures missing == Err("pk")
    ensures updated == Ok(Dog("Rex II", 9, Terrier))
    ensures fetched == Ok(Dog("Rex II", 9, Terrier))
  {
    var db := new DogsDb();
    missing := db.UpdateDog(42, Dog("Ghost", 42, Bulldog));
    updated := db.UpdateDog(3, Dog("Rex II", 9, Terrier));
    fetched := db.GetDogByPk(3);
  }

  /** POST /post twice on the seed: the ids continue after the seeded 0
      and 1, whatever the clock says. */
  method PostOnSeed(now1: int, now2: int) returns (first: Timestamp, second: Timestamp)
    ensures first == Timestamp(2, now1)
    ensures second == Timestamp(3, now2)
  {
    var log := new PostLog();
    first := log.Post(now1);
    second := log.Post(now2);
  }
}
