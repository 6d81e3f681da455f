/** Shared result types: the outcome of a request handler and the identity of its caller. */
module Common {

  datatype Option<+T> = None | Some(value: T)

  /** The error replies of the handlers, by HTTP class. `Thrown` is an exception raised by a
      service function and left to its caller. */
  datatype Error =
    | BadRequest(message: string)     // 400
    | Forbidden(message: string)      // 403
    | NotFound(message: string)       // 404
    | ServerError(message: string)    // 500, including schema validation failures on save
    | Thrown(message: string)         // `throw new Error(message)` in a service

  datatype Result<+T> = Ok(value: T) | Err(error: Error)

  type Id = nat

  /** The authenticated caller, as decoded from the bearer token. */
  datatype Requester = Requester(id: Id, isAdmin: bool)

  /** JavaScript truthiness of an optional string field of a request body. */
  predicate TruthyText(s: Option<string>) {
    s.Some? && s.value != ""
  }

  /** JavaScript truthiness of an optional numeric field of a request body. */
  predicate TruthyNumber(x: Option<real>) {
    x.Some? && x.value != 0.0
  }

  /** `$pull`: every occurrence of `x` removed, the rest kept in order. */
  function Pull(s: seq<Id>, x: Id): (r: seq<Id>)
    ensures x !in r
    ensures forall y | y != x :: y in r <==> y in s
    ensures |r| <= |s|
    ensures x !in s ==> r == s
  {
    if s == [] then []
    else if s[0] == x then Pull(s[1..], x)
    else [s[0]] + Pull(s[1..], x)
  }

  /** Pulling an id that was just appended, and appears nowhere else, restores the list. */
  lemma {:induction false} PullAppended(s: seq<Id>, x: Id)
    requires x !in s
    ensures Pull(s + [x], x) == s
    decreases |s|
  {
    if s == [] {
      assert [] + [x] == [x];
    } else {
      assert (s + [x])[1..] == s[1..] + [x];
      PullAppended(s[1..], x);
    }
  }

  /** Pulling from two runs pulls from each. */
  lemma {:induction false} PullConcat(s: seq<Id>, t: seq<Id>, x: Id)
    ensures Pull(s + t, x) == Pull(s, x) + Pull(t, x)
    decreases |s|
  {
    if s == [] {
      assert s + t == t;
    } else {
      assert (s + t)[0] == s[0] && (s + t)[1..] == s[1..] + t;
      PullConcat(s[1..], t, x);
    }
  }
}
