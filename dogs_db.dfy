/** The dog table `dogs_db` (main.py:29-37) and its four endpoints
    (main.py:61-106). The table is a Python dict: `keys` lists its keys in
    insertion order and `rows` maps each key to its dog. */
module DogsStore {
  import opened Models
  import opened DogLists

  /** The seven dogs the table starts with, in insertion order; dog i is stored under key i. */
  const SeedDogs: seq<Dog> := [
    Dog("Bob", 0, Terrier),
    Dog("Marli", 1, Bulldog),
    Dog("Snoopy", 2, Dalmatian),
    Dog("Rex", 3, Dalmatian),
    Dog("Pongo", 4, Dalmatian),
    Dog("Tillman", 5, Bulldog),
    Dog("Uga", 6, Bulldog)
  ]

  class DogsDb {
    var keys: seq<int>
    var rows: map<int, Dog>

    /** A well-formed insertion-ordered dict: the key list holds each key of the map once. */
    ghost predicate WellFormed()
      reads this
    {
      && (forall i :: 0 <= i < |keys| ==> keys[i] in rows)
      && (forall k :: k in rows ==> k in keys)
      && (forall i, j :: 0 <= i < j < |keys| ==> keys[i] != keys[j])
    }

    /** The invariant every endpoint keeps: the table is never empty and its
        keys, in insertion order, are exactly 0, 1, ..., n-1. */
    ghost predicate Valid()
      reads this
    {
      && WellFormed()
      && |keys| > 0
      && (forall i :: 0 <= i < |keys| ==> keys[i] == i)
    }

    /** `list(dogs_db.values())`. */
    function Values(): seq<Dog>
      reads this
      requires WellFormed()
    {
      ValuesOf(keys, rows)
    }

    /** The seeded table of main.py:29-37. */
    constructor ()
      ensures Valid()
      ensures Values() == SeedDogs
    {
      keys := [0, 1, 2, 3, 4, 5, 6];
      rows := map[
        0 := SeedDogs[0], 1 := SeedDogs[1], 2 := SeedDogs[2], 3 := SeedDogs[3],
        4 := SeedDogs[4], 5 := SeedDogs[5], 6 := SeedDogs[6]];
      new;
      assert forall k :: k in rows ==> k in keys by {
        assert rows.Keys == {0, 1, 2, 3, 4, 5, 6};
      }
    }

    /** `dogs_db[k] = d`: a present key keeps its place and takes the new
        value; an absent key is added at the end. */
    method Put(k: int, d: Dog)
      requires WellFormed()
      modifies this
      ensures WellFormed()
      ensures rows == old(rows)[k := d]
      ensures keys == if k in old(rows) then old(keys) else old(keys) + [k]
    {
      if k !in rows {
        keys := keys + [k];
      }
      rows := rows[k := d];
    }

    /** GET /dog: every dog, or those of the breed the query names, in
        insertion order; an unknown breed name is an error at "kind". */
    function GetDog(kind: Option<string>): (r: Outcome<seq<Dog>>)
      reads this
      requires Valid()
      ensures kind.None? ==> r == Ok(Values())
      ensures kind.Some? ==> (r.Ok? <==> kind.value in MemberNames)
      ensures r.Err? ==> r.loc == "kind"
      ensures kind.Some? && r.Ok? ==>
        forall d :: d in r.value <==> d in Values() && Name(d.kind) == kind.value
      ensures kind.Some? && r.Ok? ==>
        forall j :: 0 <= j < |r.value| ==> Name(r.value[j].kind) == kind.value
      ensures kind.Some? && r.Ok? ==> r.value == FilterKind(Values(), ParseKind(kind.value).value)
    {
      match kind
      case None => Ok(Values())
      case Some(s) =>
        match ParseKind(s)
        case None => Err("kind")
        case Some(k) =>
          FilterMembers(Values(), k);
          Ok(FilterKind(Values(), k))
    }

    /** GET /dog/{pk}: the dog stored under key `pk`, which is the dog
        inserted in position `pk`; any other key is an error at "pk". */
    function GetDogByPk(pk: int): (r: Outcome<Dog>)
      reads this
      requires Valid()
      ensures r.Ok? <==> 0 <= pk < |Values()|
      ensures r.Ok? ==> r.value == Values()[pk]
      ensures r.Err? ==> r.loc == "pk"
    {
      assert 0 <= pk < |keys| ==> keys[pk] == pk && keys[pk] in rows;
      if pk in rows then Ok(rows[pk]) else Err("pk")
    }

    /** POST /dog. A `dog.pk` that is already a key is an error at "pk" and
        changes nothing. Otherwise the dog is stored under the last key plus
        one, which is the table's size, whatever its own `pk` says: the table
        grows by that one entry at the end and every earlier entry stays. */
    method CreateDog(dog: Dog) returns (r: Outcome<Dog>)
      requires Valid()
      modifies this
      ensures Valid()
      ensures r.Err? <==> dog.pk in old(rows)
      ensures r.Err? ==> r.loc == "pk" && keys == old(keys) && rows == old(rows)
      ensures r.Ok? ==> r.value == dog
      ensures r.Ok? ==> old(|keys|) !in old(rows)
      ensures r.Ok? ==> keys == old(keys) + [old(|keys|)] && rows == old(rows)[old(|keys|) := dog]
      ensures r.Ok? ==> Values() == old(Values()) + [dog]
      ensures r.Ok? ==> GetDogByPk(old(|keys|)) == Ok(dog)
      ensures r.Ok? ==> forall k :: FilterKind(Values(), k)
                                 == FilterKind(old(Values()), k) + (if dog.kind == k then [dog] else [])
    {
      if dog.pk in rows {
        return Err("pk");
      }
      ghost var before := Values();
      var lastDogIndex := keys[|keys| - 1];
      Put(lastDogIndex + 1, dog);
      assert Values() == before + [dog];
      forall k: DogType
        ensures FilterKind(Values(), k) == FilterKind(before, k) + (if dog.kind == k then [dog] else [])
      {
        FilterAppend(before, dog, k);
      }
      return Ok(dog);
    }

    /** PATCH /dog/{pk}. An absent key is an error at "pk" and changes
        nothing. A present key keeps its place and now holds `dog`: the path
        key decides where it goes, the payload's own `pk` is not consulted. */
    method UpdateDog(pk: int, dog: Dog) returns (r: Outcome<Dog>)
      requires Valid()
      modifies this
      ensures Valid()
      ensures r.Err? <==> pk !in old(rows)
      ensures r.Err? ==> r.loc == "pk" && keys == old(keys) && rows == old(rows)
      ensures r.Ok? ==> r.value == dog
      ensures r.Ok? ==> keys == old(keys) && rows == old(rows)[pk := dog]
      ensures r.Ok? ==> Values() == old(Values())[pk := dog]
      ensures r.Ok? ==> GetDogByPk(pk) == Ok(dog)
      ensures r.Ok? ==> forall j :: j != pk ==> GetDogByPk(j) == old(GetDogByPk(j))
      ensures r.Ok? ==> forall k :: FilterKind(Values(), k)
                                 == FilterKind(old(Values())[..pk], k) + (if dog.kind == k then [dog] else [])
                                    + FilterKind(old(Values())[pk + 1..], k)
    {
      if pk !in rows {
        return Err("pk");
      }
      ghost var before := Values();
      Put(pk, dog);
      assert Values() == before[pk := dog];
      forall k: DogType
        ensures FilterKind(Values(), k)
             == FilterKind(before[..pk], k) + (if dog.kind == k then [dog] else []) + FilterKind(before[pk + 1..], k)
      {
        FilterReplace(before, pk, dog, k);
      }
      return Ok(dog);
    }
  }
}
