/** Shared vocabulary of the model: nullable values, the Java string helpers the
    REST layer relies on, sequence filters, and the shape of an HTTP response. */
module Common {

  /** A Java reference that may be null. */
  datatype Option<T> = None | Some(value: T)

  /** The exceptions the modelled code throws or catches. */
  datatype Exception =
    | PersistenceException     // a NOT NULL, UNIQUE or length constraint refused by the database
    | JmsException             // a checked failure of the message broker
    | RuntimeFailure           // any unchecked exception from a collaborator
    | NullPointer              // dereferencing a null field

  datatype Result<T> = Ok(value: T) | Err(error: Exception)

  // ---------------------------------------------------------------------------
  // Strings
  // ---------------------------------------------------------------------------

  /** Java String.trim(): drops every leading and trailing char whose code is at most U+0020. */
  function Trim(s: string): string
  {
    TrimEnd(TrimStart(s))
  }

  function TrimStart(s: string): (r: string)
    ensures |r| <= |s| && r == s[|s| - |r|..]
    ensures r != [] ==> r[0] > ' '
    ensures forall i :: 0 <= i < |s| - |r| ==> s[i] <= ' '
  {
    if s == [] then s
    else if s[0] <= ' ' then TrimStart(s[1..])
    else s
  }

  function TrimEnd(s: string): (r: string)
    ensures |r| <= |s| && r == s[..|r|]
    ensures r != [] ==> r[|r| - 1] > ' '
    ensures forall i :: |r| <= i < |s| ==> s[i] <= ' '
  {
    if s == [] then s
    else if s[|s| - 1] <= ' ' then TrimEnd(s[..|s| - 1])
    else s
  }

  /** Every char is one that trim() removes. */
  predicate AllSpace(s: string)
  {
    forall i :: 0 <= i < |s| ==> s[i] <= ' '
  }

  /** `s.trim().isEmpty()` holds exactly when every char of s is at most U+0020. */
  lemma TrimEmptyIffAllSpace(s: string)
    ensures Trim(s) == [] <==> AllSpace(s)
  {
    var t := TrimStart(s);
    if Trim(s) == [] {
      assert t == [];
    } else {
      var e := TrimEnd(t);
      assert e[0] == t[0] == s[|s| - |t|];
    }
  }

  /** The REST validation idiom `x == null || x.trim().isEmpty()`. */
  predicate NullOrBlank(s: Option<string>)
  {
    s.None? || Trim(s.value) == []
  }

  /** Java String.startsWith (case-sensitive). */
  predicate StartsWith(s: string, prefix: string)
  {
    |prefix| <= |s| && s[..|prefix|] == prefix
  }

  /** Java String.endsWith. */
  predicate EndsWith(s: string, suffix: string)
  {
    |suffix| <= |s| && s[|s| - |suffix|..] == suffix
  }

  /** Character.toUpperCase restricted to ASCII letters. */
  function UpperAscii(c: char): char
  {
    if 'a' <= c <= 'z' then (c as int - 32) as char else c
  }

  /** Character.toLowerCase restricted to ASCII letters. */
  function LowerAscii(c: char): char
  {
    if 'A' <= c <= 'Z' then (c as int + 32) as char else c
  }

  /** The per-character test of String.equalsIgnoreCase. */
  predicate CharEqualsIgnoreCase(a: char, b: char)
  {
    a == b || UpperAscii(a) == UpperAscii(b) || LowerAscii(a) == LowerAscii(b)
  }

  /** Java String.equalsIgnoreCase (ASCII case folding). */
  predicate EqualsIgnoreCase(a: string, b: string)
  {
    |a| == |b| && forall i :: 0 <= i < |a| ==> CharEqualsIgnoreCase(a[i], b[i])
  }

  /** Decimal rendering of a non-negative number, as Long.toString prints it. */
  function NatToString(n: nat): (r: string)
    ensures |r| > 0
    ensures forall i :: 0 <= i < |r| ==> '0' <= r[i] <= '9'
  {
    if n < 10 then [('0' as int + n) as char]
    else NatToString(n / 10) + [('0' as int + n % 10) as char]
  }

  /** Long.toString. */
  function IntToString(n: int): string
  {
    if n < 0 then "-" + NatToString(-n) else NatToString(n)
  }

  /** Java string concatenation or String.format("%s") of a possibly null String. */
  function Str(s: Option<string>): string
  {
    if s.None? then "null" else s.value
  }

  /** Java string concatenation of a possibly null Long. */
  function LongStr(n: Option<int>): string
  {
    if n.None? then "null" else IntToString(n.value)
  }

  // ---------------------------------------------------------------------------
  // Sequences: the WHERE and ORDER BY of the named queries
  // ---------------------------------------------------------------------------

  /** The rows of s that satisfy p, in the order of s. */
  function Filter<T>(p: T -> bool, s: seq<T>): (r: seq<T>)
    ensures |r| <= |s|
    ensures forall i :: 0 <= i < |r| ==> p(r[i])
    ensures forall i :: 0 <= i < |s| && p(s[i]) ==> s[i] in r
    ensures forall i :: 0 <= i < |r| ==> r[i] in s
    ensures multiset(r) <= multiset(s)
  {
    if s == [] then []
    else
      assert s == [s[0]] + s[1..];
      if p(s[0]) then [s[0]] + Filter(p, s[1..])
      else Filter(p, s[1..])
  }

  /** o's value, or d when o is null: the `x != null ? x : d` of the resources. */
  /** o when it holds a value, d otherwise: a setter run only when a field is given. */
  function OrElse<T>(o: Option<T>, d: Option<T>): Option<T>
  {
    if o.Some? then o else d
  }

  function ValueOr<T>(o: Option<T>, d: T): (r: T)
    ensures o.Some? ==> r == o.value
    ensures o.None? ==> r == d
  {
    if o.Some? then o.value else d
  }

  /** The position of the first element of s that satisfies p, if any. */
  function FirstIndex<T>(p: T -> bool, s: seq<T>): (r: Option<nat>)
    ensures r.Some? ==> r.value < |s| && p(s[r.value])
    ensures r.Some? ==> forall j :: 0 <= j < r.value ==> !p(s[j])
    ensures r.None? <==> forall j :: 0 <= j < |s| ==> !p(s[j])
  {
    if s == [] then None
    else if p(s[0]) then Some(0)
    else match FirstIndex(p, s[1..])
      case None => None
      case Some(k) => Some(k + 1)
  }

  /** s with every element that satisfies p replaced by x: an UPDATE by primary key. */
  function ReplaceWhere<T>(p: T -> bool, s: seq<T>, x: T): (r: seq<T>)
    ensures |r| == |s|
    ensures forall i :: 0 <= i < |s| ==> r[i] == (if p(s[i]) then x else s[i])
  {
    seq(|s|, i requires 0 <= i < |s| => if p(s[i]) then x else s[i])
  }

  /** SQL COUNT over a WHERE clause. */
  function Count<T>(p: T -> bool, s: seq<T>): nat
  {
    if s == [] then 0
    else (if p(s[0]) then 1 else 0) + Count(p, s[1..])
  }

  lemma {:induction false} CountIsFilterLength<T>(p: T -> bool, s: seq<T>)
    ensures Count(p, s) == |Filter(p, s)|
  {
    if s != [] {
      CountIsFilterLength(p, s[1..]);
    }
  }

  lemma {:induction false} FilterAppend<T>(p: T -> bool, a: seq<T>, b: seq<T>)
    ensures Filter(p, a + b) == Filter(p, a) + Filter(p, b)
  {
    if a == [] {
      assert a + b == b;
    } else {
      assert (a + b)[1..] == a[1..] + b;
      FilterAppend(p, a[1..], b);
    }
  }

  /** A filter every element passes keeps the whole sequence. */
  lemma {:induction false} FilterAll<T>(p: T -> bool, s: seq<T>)
    requires forall i :: 0 <= i < |s| ==> p(s[i])
    ensures Filter(p, s) == s
  {
    if s != [] {
      FilterAll(p, s[1..]);
      assert s == [s[0]] + s[1..];
    }
  }

  /** A count only depends on the verdict of p at each position. */
  lemma {:induction false} CountCongruent<T>(p: T -> bool, a: seq<T>, b: seq<T>)
    requires |a| == |b|
    requires forall i :: 0 <= i < |a| ==> p(a[i]) == p(b[i])
    ensures Count(p, a) == Count(p, b)
  {
    if a != [] {
      CountCongruent(p, a[1..], b[1..]);
    }
  }

  /** Two predicates that agree on every element of s select the same rows. */
  lemma {:induction false} FilterCongruent<T>(p: T -> bool, q: T -> bool, s: seq<T>)
    requires forall i :: 0 <= i < |s| ==> p(s[i]) == q(s[i])
    ensures Filter(p, s) == Filter(q, s)
  {
    if s != [] {
      FilterCongruent(p, q, s[1..]);
    }
  }

  /** Filtering twice is filtering once with the conjunction. */
  lemma {:induction false} FilterFilter<T>(p: T -> bool, q: T -> bool, pq: T -> bool, s: seq<T>)
    requires forall x :: pq(x) == (p(x) && q(x))
    ensures Filter(p, Filter(q, s)) == Filter(pq, s)
  {
    if s != [] {
      FilterFilter(p, q, pq, s[1..]);
    }
  }

  /** Sequence reversal: ORDER BY ... DESC over a table kept in ascending order. */
  function Reverse<T>(s: seq<T>): (r: seq<T>)
    ensures |r| == |s|
    ensures forall i :: 0 <= i < |s| ==> r[i] == s[|s| - 1 - i]
    ensures multiset(r) == multiset(s)
  {
    if s == [] then []
    else
      assert s == [s[0]] + s[1..];
      Reverse(s[1..]) + [s[0]]
  }

  /** Filtering commutes with reversal. */
  lemma {:induction false} FilterReverse<T>(p: T -> bool, s: seq<T>)
    ensures Filter(p, Reverse(s)) == Reverse(Filter(p, s))
  {
    if s != [] {
      var rest := Reverse(s[1..]);
      var tail := Filter(p, s[1..]);
      assert Reverse(s) == rest + [s[0]];
      FilterAppend(p, rest, [s[0]]);
      FilterReverse(p, s[1..]);
      assert [s[0]][1..] == [];
      if p(s[0]) {
        var f := [s[0]] + tail;
        assert Filter(p, [s[0]]) == [s[0]];
        assert Filter(p, s) == f && f[1..] == tail;
        assert Reverse(f) == Reverse(tail) + [s[0]];
      } else {
        assert Filter(p, [s[0]]) == [];
        assert Filter(p, s) == tail;
      }
    }
  }

  /** Every count of p is either a count of a or of b, never both. */
  lemma {:induction false} CountSplit<T>(p: T -> bool, a: T -> bool, b: T -> bool, s: seq<T>)
    requires forall i :: 0 <= i < |s| ==> p(s[i]) == (a(s[i]) || b(s[i]))
    requires forall i :: 0 <= i < |s| ==> !(a(s[i]) && b(s[i]))
    ensures Count(p, s) == Count(a, s) + Count(b, s)
  {
    if s != [] {
      CountSplit(p, a, b, s[1..]);
    }
  }

  /** The rows a DELETE keeps and the rows it removes make up the table. */
  lemma {:induction false} CountComplement<T>(p: T -> bool, q: T -> bool, s: seq<T>)
    requires forall i :: 0 <= i < |s| ==> q(s[i]) == !p(s[i])
    ensures Count(p, s) + Count(q, s) == |s|
  {
    if s != [] {
      CountComplement(p, q, s[1..]);
    }
  }

  /** Every pair of elements, taken in sequence order, is related by rel. */
  predicate Pairwise<T>(rel: (T, T) -> bool, s: seq<T>)
  {
    forall i, j :: 0 <= i < j < |s| ==> rel(s[i], s[j])
  }

  /** A filter keeps the relative order of the rows it selects. */
  lemma {:induction false} FilterPairwise<T>(p: T -> bool, rel: (T, T) -> bool, s: seq<T>)
    requires Pairwise(rel, s)
    ensures Pairwise(rel, Filter(p, s))
  {
    if s != [] {
      var rest := s[1..];
      var tail := Filter(p, rest);
      assert Pairwise(rel, rest) by {
        forall i, j | 0 <= i < j < |rest| ensures rel(rest[i], rest[j]) {
          assert rest[i] == s[i + 1] && rest[j] == s[j + 1];
        }
      }
      FilterPairwise(p, rel, rest);
      if p(s[0]) {
        forall k | 0 <= k < |tail| ensures rel(s[0], tail[k]) {
          var m :| 0 <= m < |rest| && rest[m] == tail[k];
          assert s[m + 1] == tail[k];
        }
        PairwiseCons(rel, s[0], tail);
        assert Filter(p, s) == [s[0]] + tail;
      } else {
        assert Filter(p, s) == tail;
      }
    }
  }

  lemma PairwiseCons<T>(rel: (T, T) -> bool, x: T, s: seq<T>)
    requires Pairwise(rel, s)
    requires forall k :: 0 <= k < |s| ==> rel(x, s[k])
    ensures Pairwise(rel, [x] + s)
  {
    var r := [x] + s;
    forall i, j | 0 <= i < j < |r| ensures rel(r[i], r[j]) {
      if i == 0 {
        assert r[j] == s[j - 1];
      } else {
        assert r[i] == s[i - 1] && r[j] == s[j - 1];
      }
    }
  }

  lemma PairwiseSnoc<T>(rel: (T, T) -> bool, s: seq<T>, x: T)
    requires Pairwise(rel, s)
    requires forall k :: 0 <= k < |s| ==> rel(s[k], x)
    ensures Pairwise(rel, s + [x])
  {
    var r := s + [x];
    forall i, j | 0 <= i < j < |r| ensures rel(r[i], r[j]) {
      assert r[i] == s[i];
      if j < |s| {
        assert r[j] == s[j];
      }
    }
  }

  /** A WHERE clause read in descending order selects exactly the rows that pass it. */
  lemma ReverseFilterMembers<T>(p: T -> bool, s: seq<T>)
    ensures forall x :: x in Reverse(Filter(p, s)) <==> x in s && p(x)
  {
    var f := Filter(p, s);
    var r := Reverse(f);
    forall x ensures x in r <==> x in f {
      assert x in multiset(r) <==> x in multiset(f);
    }
    forall x | x in f ensures x in s && p(x) {
      var i :| 0 <= i < |f| && f[i] == x;
    }
    forall x | x in s && p(x) ensures x in f {
      var i :| 0 <= i < |s| && s[i] == x;
    }
  }

  predicate IsPrefix<T(==)>(a: seq<T>, b: seq<T>)
  {
    |a| <= |b| && a == b[..|a|]
  }

  predicate IsSuffix<T(==)>(a: seq<T>, b: seq<T>)
  {
    |a| <= |b| && a == b[|b| - |a|..]
  }

  /** Reversal turns a suffix into a prefix. */
  lemma ReverseSuffix<T>(a: seq<T>, b: seq<T>)
    requires IsSuffix(a, b)
    ensures IsPrefix(Reverse(a), Reverse(b))
  {
    var ra, rb := Reverse(a), Reverse(b);
    forall i | 0 <= i < |a| ensures ra[i] == rb[..|a|][i] {
      assert a[|a| - 1 - i] == b[|b| - 1 - i];
    }
    assert ra == rb[..|a|];
  }

  /** The first n elements, as setMaxResults(n) keeps them. */
  function Take<T(==)>(s: seq<T>, n: nat): (r: seq<T>)
    ensures |r| <= n && IsPrefix(r, s)
    ensures |s| <= n ==> r == s
    ensures |s| > n ==> |r| == n
  {
    if |s| <= n then s else s[..n]
  }

  // ---------------------------------------------------------------------------
  // HTTP responses (jakarta.ws.rs.core.Response and the ApiResponse envelope)
  // ---------------------------------------------------------------------------

  const OK: int := 200
  const CREATED: int := 201
  const NO_CONTENT: int := 204
  const BAD_REQUEST: int := 400
  const UNAUTHORIZED: int := 401
  const FORBIDDEN: int := 403
  const NOT_FOUND: int := 404
  const INTERNAL_SERVER_ERROR: int := 500

  /** The entity of a response: none, a plain string, an object serialised as
      it is, or ApiResponse.success / ApiResponse.error. */
  datatype Body<T> =
    | Empty
    | Text(text: string)
    | Entity(value: T)
    | Success(message: string, data: Option<T>)
    | Error(message: string)

  datatype Response<T> = Response(status: int, body: Body<T>)

  /** The 500 every endpoint's catch (Exception e) produces. */
  function ServerError<T>(): Response<T>
  {
    Response(INTERNAL_SERVER_ERROR, Error("Erreur serveur"))
  }
}
