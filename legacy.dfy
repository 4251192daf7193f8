/**
 * The two validators of the older `movie_mate/watchlist` application:
 * MovieSerializer.validate, which refuses a movie whose name equals its
 * description, and validate_name, which refuses names shorter than two
 * characters. The serializer imports validate_name but attaches it to no
 * field, so the two checks are independent.
 */
module LegacyValidators {
  import opened Wrappers

  const SameNameMsg: string := "Name and Description can not be same."
  const ShortNameMsg: string := "Name is too Short."
  const NameMin: nat := 2

  datatype MovieData = MovieData(name: string, description: string)

  /**
   * validate_name: returns nothing (`None`) or raises (`Some(message)`).
   * The value is passed by value and cannot be altered.
   */
  function ValidateName(value: string): (raised: Option<string>)
    ensures raised.Some? <==> |value| < NameMin
    ensures raised.Some? ==> raised.value == ShortNameMsg
  {
    if |value| < NameMin then Some(ShortNameMsg) else None
  }

  /** MovieSerializer.validate: the data back unchanged, or the error. */
  function Validate(data: MovieData): (r: Result<MovieData, string>)
    ensures r.Failure? <==> data.name == data.description
    ensures r.Failure? ==> r.error == SameNameMsg
    ensures r.Success? ==> r.value == data
  {
    if data.name == data.description then Failure(SameNameMsg) else Success(data)
  }

  /** The length boundary is exact: two characters pass, one does not. */
  lemma NameBoundary(a: char, b: char)
    ensures ValidateName([a, b]) == None
    ensures ValidateName([a]) == Some(ShortNameMsg)
    ensures ValidateName([]) == Some(ShortNameMsg)
  {
  }

  /** The comparison is exact: values differing only in letter case pass. */
  lemma CaseSensitive()
    ensures Validate(MovieData("Dune", "dune")) == Success(MovieData("Dune", "dune"))
  {
    assert "Dune"[0] != "dune"[0];
  }

  /**
   * Because validate_name is attached to no field, any one-character name
   * that differs from its description gets through the serializer, though
   * validate_name alone would refuse it.
   */
  lemma ShortNamePassesSerializer(c: char, description: string)
    requires [c] != description
    ensures Validate(MovieData([c], description)).Success?
    ensures ValidateName([c]).Some?
  {
  }
}
