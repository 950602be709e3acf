/** Types shared by every service of the ladder backend: identifiers, the
    HTTP exceptions the services throw, and the result of an operation that
    either returns a value or throws one of them. */
module Common {

  /** A document identifier as it arrives from a route or a body: any string.
      Whether it is a well-formed object id is decided by a predicate that
      each service receives (see PlayersService.isValidId). */
  type Id = string

  datatype Option<+T> = None | Some(value: T)

  /** The three exceptions the services throw, each with its message. */
  datatype Error =
    | BadRequest(message: string)
    | NotFound(message: string)
    | Conflict(message: string)

  /** Either the value an operation resolves to, or the exception it throws. */
  datatype Result<+T> = Ok(value: T) | Err(error: Error)
}

/** Finders over an ordered store, shared by the category and match services.
    They stand for the store's `find` and `findOne` queries; the model takes
    those unsorted queries to visit documents in insertion order. */
module Seqs {
  import opened Common

  /** The elements of `s` that satisfy `f`, in their original order. */
  function Filter<T>(s: seq<T>, f: T -> bool): (r: seq<T>)
    ensures |r| <= |s|
    ensures forall i :: 0 <= i < |r| ==> r[i] in s && f(r[i])
    ensures forall i :: 0 <= i < |s| && f(s[i]) ==> s[i] in r
  {
    if s == [] then []
    else if f(s[0]) then [s[0]] + Filter(s[1..], f)
    else Filter(s[1..], f)
  }

  /** Filtering keeps every satisfying element as often as it occurs in the
      input and drops every other one. */
  lemma {:induction false} FilterMultiplicity<T>(s: seq<T>, f: T -> bool, x: T)
    ensures multiset(Filter(s, f))[x] == if f(x) then multiset(s)[x] else 0
  {
    if s != [] {
      FilterMultiplicity(s[1..], f, x);
      assert s == [s[0]] + s[1..];
    }
  }

  /** Filtering distributes over concatenation, so it keeps the relative
      order of what it keeps, and a store that grows at its end grows its
      filtered view at the end too. */
  lemma {:induction false} FilterAppend<T>(a: seq<T>, b: seq<T>, f: T -> bool)
    ensures Filter(a + b, f) == Filter(a, f) + Filter(b, f)
  {
    if a == [] {
      assert a + b == b;
    } else {
      assert (a + b)[1..] == a[1..] + b;
      FilterAppend(a[1..], b, f);
    }
  }

  /** The position of the first element of `s` that satisfies `f`, if any. */
  function FirstIndex<T>(s: seq<T>, f: T -> bool): (r: Option<nat>)
    ensures r.Some? ==> r.value < |s| && f(s[r.value])
    ensures r.Some? ==> forall j :: 0 <= j < r.value ==> !f(s[j])
    ensures r.None? <==> forall j :: 0 <= j < |s| ==> !f(s[j])
  {
    if s == [] then None
    else if f(s[0]) then Some(0)
    else match FirstIndex(s[1..], f)
      case None => None
      case Some(i) => Some(i + 1)
  }
}
