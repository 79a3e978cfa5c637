/** The records of the service (main.py:12-26) and the shape of its answers. */
module Models {

  /** The breed enumeration `DogType`. Its member names and values coincide
      ("terrier", "bulldog", "dalmatian"), so `Name` serves as both. */
  datatype DogType = Terrier | Bulldog | Dalmatian

  /** A dog record; `pk` is only a payload field, the table keys it separately. */
  datatype Dog = Dog(name: string, pk: int, kind: DogType)

  /** An entry of the post log. */
  datatype Timestamp = Timestamp(id: int, timestamp: int)

  datatype Option<T> = None | Some(value: T)

  /** What an endpoint answers: a value, or an error whose `loc` names the
      offending field ("kind" or "pk"), as in the 422 detail body. */
  datatype Outcome<T> = Ok(value: T) | Err(loc: string)

  /** `DogType._member_names_`, in declaration order. */
  const MemberNames: seq<string> := ["terrier", "bulldog", "dalmatian"]

  function Name(k: DogType): string
  {
    match k
    case Terrier => "terrier"
    case Bulldog => "bulldog"
    case Dalmatian => "dalmatian"
  }

  /** The breed a query string denotes, if it is one of the member names. */
  function ParseKind(s: string): (r: Option<DogType>)
    ensures r.Some? <==> s in MemberNames
    ensures r.Some? ==> Name(r.value) == s
  {
    if s == "terrier" then Some(Terrier)
    else if s == "bulldog" then Some(Bulldog)
    else if s == "dalmatian" then Some(Dalmatian)
    else None
  }

  /** Every breed's name is recognised and denotes that breed, and no other. */
  lemma NameRoundTrip(k: DogType, s: string)
    ensures ParseKind(Name(k)) == Some(k)
    ensures Name(k) in MemberNames
    ensures Name(k) == s <==> ParseKind(s) == Some(k)
  {
  }
}
