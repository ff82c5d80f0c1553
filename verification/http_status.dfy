/** The status enumeration of Spell/HTTPStatus.swift: two named statuses and
    a catch-all case carrying any other code. Equality between statuses is
    decided by their codes alone. */
module HttpStatus {

  datatype Status = OK | NotFound | Unknown(code: int)

  /** The numeric code of a status. */
  function StatusCode(s: Status): (c: int)
    ensures s == OK <==> c == 200 && !s.Unknown?
    ensures s == NotFound <==> c == 404 && !s.Unknown?
    ensures s.Unknown? ==> c == s.code
  {
    match s
    case OK => 200
    case NotFound => 404
    case Unknown(code) => code
  }

  /** The reason phrase of a status. The catch-all case reads "Unknown" whatever
      its code, even one a named case has (`Unknown(200)` included). */
  function ReasonPhrase(s: Status): (phrase: string)
    ensures s.Unknown? <==> phrase == "Unknown"
    ensures s == OK <==> phrase == "OK"
    ensures s == NotFound <==> phrase == "Not Found"
  {
    match s
    case OK => "OK"
    case NotFound => "Not Found"
    case Unknown(_) => "Unknown"
  }

  /** `init(statusCode:)`: the named case for 200 and 404, the catch-all otherwise. */
  function FromCode(c: int): (s: Status)
    ensures StatusCode(s) == c
    ensures s.Unknown? <==> c != 200 && c != 404
  {
    if c == 200 then OK
    else if c == 404 then NotFound
    else Unknown(c)
  }

  /** The `==` operator of the source: two statuses are equal when their codes are. */
  predicate Same(a: Status, b: Status) {
    StatusCode(a) == StatusCode(b)
  }

  /** A status is canonical when it is what `init(statusCode:)` would build for its code. */
  predicate Canonical(s: Status) {
    s != Unknown(200) && s != Unknown(404)
  }

  /** Round trip through the code: decoding a code and reading it back gives the code. */
  lemma CodeRoundTrip(c: int)
    ensures StatusCode(FromCode(c)) == c
    ensures Canonical(FromCode(c))
  {
  }

  /** Round trip through the status: rebuilding a status from its code gives a status
      equal to it under `==`, and identical to it exactly when it was canonical. */
  lemma StatusRoundTrip(s: Status)
    ensures Same(FromCode(StatusCode(s)), s)
    ensures FromCode(StatusCode(s)) == s <==> Canonical(s)
  {
  }

  /** `==` is an equivalence relation that is coarser than identity:
      `Unknown(statusCode: 200) == OK` holds although the two are different cases. */
  lemma SameIsEquivalence(a: Status, b: Status, c: Status)
    ensures Same(a, a)
    ensures Same(a, b) ==> Same(b, a)
    ensures Same(a, b) && Same(b, c) ==> Same(a, c)
    ensures Same(Unknown(200), OK) && Unknown(200) != OK
    ensures Same(Unknown(404), NotFound) && Unknown(404) != NotFound
  {
  }

  /** On canonical statuses `==` coincides with identity. */
  lemma SameOnCanonical(a: Status, b: Status)
    requires Canonical(a) && Canonical(b)
    ensures Same(a, b) <==> a == b
  {
  }
}
