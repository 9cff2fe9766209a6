/**
 * Shared vocabulary of the backend model: optional values, request outcomes,
 * identifiers, Swift's 64-bit `Int`, and the two table primitives every
 * handler is built from (an order-preserving filter and a lookup by key).
 */
module Common {

  datatype Option<+T> = None | Some(value: T)

  /** Why the backend refuses a request with 400 Bad Request. */
  datatype Reason =
    | MissingQueryParameter   // a required query parameter is absent or does not parse
    | UserAlreadyExists       // registration with an email that is already stored
    | EmptyUserData           // an empty email or password
    | UnknownUser             // login with an email nobody registered
    | WrongPassword           // login whose password does not verify against the stored hash

  /** The ways a request can fail. */
  datatype Error =
    | BadRequest(reason: Reason)
    | NotFound              // the path names a row that is not stored (404)
    | ForeignKeyViolation   // the store refuses a write that would break a reference
    | ParentMissing         // a parent relation whose row cannot be resolved
    | Trap                  // Swift's trap on an arithmetic overflow
    | SequenceExhausted     // the integer key sequence has no value left

  datatype Result<+T> = Success(value: T) | Failure(error: Error)

  /** Response statuses of the handlers that answer without a body. */
  datatype HttpStatus = Ok | Created | NoContent

  /** A UUID primary key; only equality matters, so it is a number here. */
  datatype Uuid = Uuid(n: nat)

  /** Floating-point values are only copied and compared by the model. */
  type Double = real

  const MinInt64: int := -0x8000_0000_0000_0000
  const MaxInt64: int := 0x7fff_ffff_ffff_ffff

  predicate InInt64(x: int) {
    MinInt64 <= x <= MaxInt64
  }

  /** Swift's `Int` on a 64-bit platform. */
  type Int64 = x: int | InInt64(x)

  /** `r` keeps some of the elements of `s`, in the order they have in `s`. */
  ghost predicate IsSubsequence<T>(r: seq<T>, s: seq<T>)
    decreases |s|
  {
    if r == [] then true
    else if s == [] then false
    else (r[0] == s[0] && IsSubsequence(r[1..], s[1..])) || IsSubsequence(r, s[1..])
  }

  /**
   * The rows of `s` that satisfy `p`, in stored order: what a query with a
   * WHERE clause returns from a table kept in insertion order.
   */
  function Filter<T(!new)>(s: seq<T>, p: T -> bool): (r: seq<T>)
    ensures forall x :: x in r <==> x in s && p(x)
    ensures forall x :: multiset(r)[x] == if p(x) then multiset(s)[x] else 0
    ensures IsSubsequence(r, s)
  {
    if s == [] then []
    else
      assert s == [s[0]] + s[1..];
      if p(s[0]) then [s[0]] + Filter(s[1..], p) else Filter(s[1..], p)
  }

  /** Filtering twice is filtering once by both conditions. */
  lemma {:induction false} FilterFilter<T(!new)>(s: seq<T>, p: T -> bool, q: T -> bool, both: T -> bool)
    requires forall x :: both(x) <==> p(x) && q(x)
    ensures Filter(Filter(s, p), q) == Filter(s, both)
  {
    if s != [] {
      FilterFilter(s[1..], p, q, both);
    }
  }

  /** The position of the first row of `s` whose key is `k`. */
  function IndexOf<T, K(==)>(s: seq<T>, key: T -> K, k: K): (r: Option<nat>)
    ensures r.Some? ==> r.value < |s| && key(s[r.value]) == k
    ensures r.Some? ==> forall j :: 0 <= j < r.value ==> key(s[j]) != k
    ensures r.None? <==> forall j :: 0 <= j < |s| ==> key(s[j]) != k
  {
    if s == [] then None
    else if key(s[0]) == k then Some(0)
    else match IndexOf(s[1..], key, k)
      case None => None
      case Some(i) => Some(i + 1)
  }

  /** The first row of `s` whose key is `k`, as a `first()` query returns it. */
  function Find<T(!new), K(==)>(s: seq<T>, key: T -> K, k: K): (r: Option<T>)
    ensures r.Some? ==> r.value in s && key(r.value) == k
    ensures r.None? <==> forall x :: x in s ==> key(x) != k
  {
    match IndexOf(s, key, k)
    case None => None
    case Some(i) => Some(s[i])
  }

  /**
   * Resolving a path parameter to a stored row: the row with that key, or
   * 404 when there is none.
   */
  function Resolve<T(!new), K(==)>(s: seq<T>, key: T -> K, k: K): (r: Result<T>)
    ensures r.Success? ==> r.value in s && key(r.value) == k
    ensures r.Failure? <==> forall x :: x in s ==> key(x) != k
    ensures r.Failure? ==> r.error == NotFound
  {
    match Find(s, key, k)
    case None => Failure(NotFound)
    case Some(x) => Success(x)
  }

  /** Tables whose rows carry the same keys, position by position, are searched alike. */
  lemma {:induction false} SameKeysSameIndex<T, K>(s: seq<T>, s': seq<T>, key: T -> K, k: K)
    requires |s| == |s'| && forall i :: 0 <= i < |s| ==> key(s[i]) == key(s'[i])
    ensures IndexOf(s, key, k) == IndexOf(s', key, k)
    decreases |s|
  {
    if s != [] {
      SameKeysSameIndex(s[1..], s'[1..], key, k);
    }
  }

  /** Searching a table with one row appended: the old rows first, then the new one. */
  lemma {:induction false} IndexOfAppend<T, K>(s: seq<T>, x: T, key: T -> K, k: K)
    ensures IndexOf(s + [x], key, k)
            == if IndexOf(s, key, k).Some? then IndexOf(s, key, k)
               else if key(x) == k then Some(|s|) else None
    decreases |s|
  {
    if s != [] {
      assert (s + [x])[1..] == s[1..] + [x];
      IndexOfAppend(s[1..], x, key, k);
    }
  }

  /** No two rows share a key, and every row has one (it has been saved). */
  ghost predicate UniqueKeys<T, K>(s: seq<T>, key: T -> Option<K>) {
    && (forall i :: 0 <= i < |s| ==> key(s[i]).Some?)
    && (forall i, j :: 0 <= i < j < |s| ==> key(s[i]) != key(s[j]))
  }

  /** `s` without its row at position `i`, the others in their order. */
  function Remove<T>(s: seq<T>, i: nat): (r: seq<T>)
    requires i < |s|
    ensures |r| == |s| - 1
    ensures forall j :: 0 <= j < i ==> r[j] == s[j]
    ensures forall j :: i <= j < |r| ==> r[j] == s[j + 1]
  {
    s[..i] + s[i + 1..]
  }

  /**
   * Removing the row at `i` removes exactly its key: every other key is
   * still found, and, keys being unique, that one is gone.
   */
  lemma RemoveKeepsOtherKeys<T, K>(s: seq<T>, key: T -> Option<K>, i: nat, k: Option<K>)
    requires i < |s| && UniqueKeys(s, key)
    ensures IndexOf(Remove(s, i), key, k).Some? <==> IndexOf(s, key, k).Some? && k != key(s[i])
    ensures UniqueKeys(Remove(s, i), key)
  {
    var r := Remove(s, i);
    if IndexOf(s, key, k).Some? && k != key(s[i]) {
      var j := IndexOf(s, key, k).value;
      var j' := if j < i then j else j - 1;
      assert key(r[j']) == k;
    }
    if IndexOf(r, key, k).Some? {
      var j := IndexOf(r, key, k).value;
      var j' := if j < i then j else j + 1;
      assert key(s[j']) == k;
    }
  }
}
