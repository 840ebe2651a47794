// Shared vocabulary of the model: identifiers, optional values, the exceptions
// the services throw (as a Result datatype), Java string predicates, and the
// sequence operations that the repositories' queries are built from.

module Common {

  /** Entity identifiers (the source uses random UUIDs; here a fresh number). */
  type Id = nat

  datatype Option<T> = None | Some(value: T)

  /**
   * The exceptions the service layer throws, each with the message it
   * carries. DataIntegrityViolation is what the database raises when a save
   * breaks a unique constraint or a foreign key; DateTimeError is
   * java.time's DateTimeException for a field out of range.
   */
  datatype ApiError =
    | ResourceNotFound(message: string)
    | AccessDenied(message: string)
    | IllegalState(message: string)
    | IllegalArgument(message: string)
    | BadCredentials(message: string)
    | DateTimeError(message: string)
    | DataIntegrityViolation

  datatype Result<T> = Ok(value: T) | Err(error: ApiError)

  // ---------------------------------------------------------------------
  // Java string predicates
  // ---------------------------------------------------------------------

  /** java.lang.Character.isWhitespace: Unicode space, line and paragraph
      separators other than the non-breaking ones, plus U+0009..U+000D and
      U+001C..U+001F. */
  predicate IsJavaWhitespace(c: char)
  {
    ('\t' <= c <= '\r') || ('\U{001C}' <= c <= '\U{001F}') || c == ' ' ||
    c == '\U{1680}' || ('\U{2000}' <= c <= '\U{2006}') || ('\U{2008}' <= c <= '\U{200A}') ||
    c == '\U{2028}' || c == '\U{2029}' || c == '\U{205F}' || c == '\U{3000}'
  }

  /** String.isBlank: empty or whitespace only. */
  predicate IsBlank(s: string)
  {
    forall i :: 0 <= i < |s| ==> IsJavaWhitespace(s[i])
  }

  /** A nullable string that is null or blank. */
  predicate IsNullOrBlank(s: Option<string>)
  {
    s.None? || IsBlank(s.value)
  }

  predicate StartsWith(s: string, prefix: string)
  {
    |prefix| <= |s| && s[..|prefix|] == prefix
  }

  /** Character.toUpperCase under the root locale, restricted to what can
      matter for matching upper-case ASCII enum names: a-z map to A-Z, and
      the two non-ASCII letters whose upper case is an ASCII letter used by
      those names (dotless i U+0131 -> 'I', long s U+017F -> 'S'). Every
      other character is kept, which cannot turn a non-name into a name. */
  function UpperChar(c: char): (u: char)
    ensures 'a' <= c <= 'z' ==> u as int == c as int - 32
    ensures !('a' <= c <= 'z') && c != '\U{0131}' && c != '\U{017F}' ==> u == c
  {
    if 'a' <= c <= 'z' then (c as int - 32) as char
    else if c == '\U{0131}' then 'I'
    else if c == '\U{017F}' then 'S'
    else c
  }

  function ToUpper(s: string): (r: string)
    ensures |r| == |s|
    ensures forall i :: 0 <= i < |s| ==> r[i] == UpperChar(s[i])
  {
    if s == [] then [] else [UpperChar(s[0])] + ToUpper(s[1..])
  }

  // ---------------------------------------------------------------------
  // Sequences of rows
  // ---------------------------------------------------------------------

  /** The rows that satisfy p, in their original order. */
  function Filter<T>(s: seq<T>, p: T -> bool): (r: seq<T>)
    ensures |r| <= |s|
    ensures forall x :: x in r ==> x in s && p(x)
    ensures forall x :: x in s && p(x) ==> x in r
    ensures multiset(r) <= multiset(s)
  {
    if s == [] then []
    else
      assert s == [s[0]] + s[1..];
      if p(s[0]) then [s[0]] + Filter(s[1..], p) else Filter(s[1..], p)
  }

  lemma {:induction false} FilterAppend<T>(s: seq<T>, t: seq<T>, p: T -> bool)
    ensures Filter(s + t, p) == Filter(s, p) + Filter(t, p)
  {
    if s == [] {
      assert s + t == t;
    } else {
      assert (s + t)[1..] == s[1..] + t;
      FilterAppend(s[1..], t, p);
    }
  }

  /** Filter by a stronger predicate after a weaker one is the same as
      filtering by the stronger one directly. */
  lemma {:induction false} FilterFilter<T>(s: seq<T>, p: T -> bool, q: T -> bool)
    requires forall x :: q(x) ==> p(x)
    ensures Filter(Filter(s, p), q) == Filter(s, q)
  {
    if s != [] {
      FilterFilter(s[1..], p, q);
    }
  }

  /** Sum of f over the rows (BigDecimal addition is exact). */
  function SumOf<T>(s: seq<T>, f: T -> int): int
  {
    if s == [] then 0 else f(s[0]) + SumOf(s[1..], f)
  }

  lemma {:induction false} SumOfAppend<T>(s: seq<T>, t: seq<T>, f: T -> int)
    ensures SumOf(s + t, f) == SumOf(s, f) + SumOf(t, f)
  {
    if s == [] {
      assert s + t == t;
    } else {
      assert (s + t)[1..] == s[1..] + t;
      SumOfAppend(s[1..], t, f);
    }
  }

  /** A sum over the rows that satisfy p: adding a row that fails p does
      not change it, adding one that passes adds its value. */
  lemma {:induction false} SumOfFilterSnoc<T>(s: seq<T>, x: T, p: T -> bool, f: T -> int)
    ensures SumOf(Filter(s + [x], p), f) == SumOf(Filter(s, p), f) + (if p(x) then f(x) else 0)
  {
    FilterAppend(s, [x], p);
    SumOfAppend(Filter(s, p), Filter([x], p), f);
    assert [x][1..] == [];
  }

  /** The sum of non-negative values is non-negative. */
  lemma {:induction false} SumOfNonNegative<T>(s: seq<T>, f: T -> int)
    requires forall i :: 0 <= i < |s| ==> f(s[i]) >= 0
    ensures SumOf(s, f) >= 0
  {
    if s != [] {
      SumOfNonNegative(s[1..], f);
    }
  }

  /** No two rows share a key (a primary key or a unique column). */
  ghost predicate UniqueBy<T, K>(s: seq<T>, key: T -> K)
  {
    forall x, y :: x in s && y in s && key(x) == key(y) ==> x == y
  }

  /** Some stored row has key k. */
  predicate Taken<T, K(==)>(s: seq<T>, key: T -> K, k: K)
  {
    exists i :: 0 <= i < |s| && key(s[i]) == k
  }

  /** The first row whose key is k, if any. */
  function FindBy<T, K(==)>(s: seq<T>, key: T -> K, k: K): (r: Option<T>)
    ensures r.Some? ==> r.value in s && key(r.value) == k
    ensures r.None? <==> forall x :: x in s ==> key(x) != k
  {
    if s == [] then None
    else if key(s[0]) == k then Some(s[0])
    else FindBy(s[1..], key, k)
  }

  /** When keys are unique, the row found is the one row with that key. */
  lemma FindByUnique<T, K>(s: seq<T>, key: T -> K, x: T)
    requires x in s && UniqueBy(s, key)
    ensures FindBy(s, key, key(x)) == Some(x)
  {
  }

  /** Saving an entity whose key is already stored replaces that row in
      place; every other row stays as it was. */
  function ReplaceBy<T, K(==)>(s: seq<T>, key: T -> K, x: T): (r: seq<T>)
    ensures |r| == |s|
    ensures forall y :: y in r ==> y == x || (y in s && key(y) != key(x))
    ensures forall i :: 0 <= i < |s| ==> r[i] == (if key(s[i]) == key(x) then x else s[i])
  {
    seq(|s|, i requires 0 <= i < |s| => if key(s[i]) == key(x) then x else s[i])
  }

  /** Deleting by key. */
  function RemoveBy<T, K(==)>(s: seq<T>, key: T -> K, k: K): (r: seq<T>)
    ensures forall x :: x in r ==> x in s && key(x) != k
    ensures forall x :: x in s && key(x) != k ==> x in r
  {
    Filter(s, x => key(x) != k)
  }

  /** A row keyed differently from x already holds x's value of the unique
      column col: saving x would break that constraint. */
  predicate TakenByOther<T, K(==), L(==)>(s: seq<T>, key: T -> K, col: T -> L, x: T)
  {
    exists i :: 0 <= i < |s| && key(s[i]) != key(x) && col(s[i]) == col(x)
  }

  /** Appending a row whose column value is not yet stored keeps the column
      unique. */
  lemma UniqueAppend<T, L>(s: seq<T>, col: T -> L, x: T)
    requires UniqueBy(s, col) && !Taken(s, col, col(x))
    ensures UniqueBy(s + [x], col)
  {
    forall y | y in s
      ensures col(y) != col(x)
    {
      var i :| 0 <= i < |s| && s[i] == y;
    }
  }

  /** Replacing a row by key keeps the key unique, and keeps a unique
      column unique unless another row already holds the new value. */
  lemma UniqueReplace<T, K, L>(s: seq<T>, key: T -> K, col: T -> L, x: T)
    requires UniqueBy(s, key) && UniqueBy(s, col) && !TakenByOther(s, key, col, x)
    ensures UniqueBy(ReplaceBy(s, key, x), key) && UniqueBy(ReplaceBy(s, key, x), col)
  {
    forall y | y in s && key(y) != key(x)
      ensures col(y) != col(x)
    {
      var i :| 0 <= i < |s| && s[i] == y;
    }
  }

  // ---------------------------------------------------------------------
  // Sorting (ORDER BY): a stable insertion sort under a total preorder
  // ---------------------------------------------------------------------

  /** le(a, b): a may come before b. */
  ghost predicate TotalPreorder<T(!new)>(le: (T, T) -> bool)
  {
    (forall a, b :: le(a, b) || le(b, a)) &&
    (forall a, b, c :: le(a, b) && le(b, c) ==> le(a, c))
  }

  predicate SortedBy<T>(s: seq<T>, le: (T, T) -> bool)
  {
    forall i, j :: 0 <= i < j < |s| ==> le(s[i], s[j])
  }

  function InsertBy<T(!new)>(x: T, s: seq<T>, le: (T, T) -> bool): (r: seq<T>)
    requires TotalPreorder(le) && SortedBy(s, le)
    ensures SortedBy(r, le)
    ensures multiset(r) == multiset(s) + multiset{x}
  {
    if s == [] then [x]
    else if le(x, s[0]) then [x] + s
    else
      var rest := InsertBy(x, s[1..], le);
      assert s == [s[0]] + s[1..];
      assert forall k :: 0 <= k < |rest| ==> le(s[0], rest[k]) by {
        forall k | 0 <= k < |rest|
          ensures le(s[0], rest[k])
        {
          assert rest[k] in multiset(rest);
          if rest[k] != x {
            assert rest[k] in s[1..];
            var j :| 0 <= j < |s[1..]| && s[1..][j] == rest[k];
            assert s[j + 1] == rest[k];
          }
        }
      }
      [s[0]] + rest
  }

  /** The rows in an order consistent with le, as a permutation of s. */
  function SortBy<T(!new)>(s: seq<T>, le: (T, T) -> bool): (r: seq<T>)
    requires TotalPreorder(le)
    ensures SortedBy(r, le)
    ensures multiset(r) == multiset(s)
  {
    if s == [] then []
    else
      assert s == [s[0]] + s[1..];
      InsertBy(s[0], SortBy(s[1..], le), le)
  }

  /** SortBy with the membership of the rows spelled out. */
  function SortRows<T(!new)>(s: seq<T>, le: (T, T) -> bool): (r: seq<T>)
    requires TotalPreorder(le)
    ensures SortedBy(r, le) && multiset(r) == multiset(s)
    ensures forall x :: x in r <==> x in s
  {
    var r := SortBy(s, le);
    assert forall x :: x in r <==> x in multiset(r);
    assert forall x :: x in s <==> x in multiset(s);
    r
  }

  // ---------------------------------------------------------------------
  // More on filters and sums
  // ---------------------------------------------------------------------

  /** Filters by predicates that agree on every row give the same rows. */
  lemma {:induction false} FilterSame<T>(s: seq<T>, p: T -> bool, q: T -> bool)
    requires forall i :: 0 <= i < |s| ==> p(s[i]) == q(s[i])
    ensures Filter(s, p) == Filter(s, q)
  {
    if s != [] {
      FilterSame(s[1..], p, q);
    }
  }

  /** Splitting the rows that satisfy p by a second test splits their sum:
      pq keeps the rows that also pass it, pn those that fail it. */
  lemma {:induction false} SumOfSplit<T(!new)>(s: seq<T>, p: T -> bool, pq: T -> bool, pn: T -> bool, f: T -> int)
    requires forall x :: pq(x) ==> p(x)
    requires forall x :: pn(x) ==> p(x)
    requires forall x :: p(x) ==> (pq(x) <==> !pn(x))
    ensures SumOf(Filter(s, p), f) == SumOf(Filter(s, pq), f) + SumOf(Filter(s, pn), f)
  {
    if s != [] {
      SumOfSplit(s[1..], p, pq, pn, f);
      var x, rest, restQ, restN := s[0], Filter(s[1..], p), Filter(s[1..], pq), Filter(s[1..], pn);
      assert ([x] + rest)[1..] == rest;
      assert ([x] + restQ)[1..] == restQ;
      assert ([x] + restN)[1..] == restN;
    }
  }

  /** No row satisfies p: the sum over them is 0 (SQL COALESCE(SUM, 0)). */
  lemma SumOfNone<T>(s: seq<T>, p: T -> bool, f: T -> int)
    requires forall i :: 0 <= i < |s| ==> !p(s[i])
    ensures Filter(s, p) == [] && SumOf(Filter(s, p), f) == 0
  {
  }

  // ---------------------------------------------------------------------
  // Distinct elements
  // ---------------------------------------------------------------------

  ghost predicate Distinct<T>(s: seq<T>)
  {
    forall i, j :: 0 <= i < j < |s| ==> s[i] != s[j]
  }

  /** Distinct means every element occurs at most once. */
  lemma {:induction false} DistinctMultiplicity<T>(s: seq<T>)
    ensures Distinct(s) <==> forall x :: multiset(s)[x] <= 1
  {
    if s != [] {
      var t := s[1..];
      assert s == [s[0]] + t;
      DistinctMultiplicity(t);
      if Distinct(s) {
        assert Distinct(t) by {
          forall i, j | 0 <= i < j < |t| ensures t[i] != t[j] {
            assert t[i] == s[i + 1] && t[j] == s[j + 1];
          }
        }
        forall j | 0 <= j < |t| ensures t[j] != s[0] {
          assert t[j] == s[j + 1];
        }
      } else {
        var i, j :| 0 <= i < j < |s| && s[i] == s[j];
        if i == 0 {
          assert s[j] in t;
          assert multiset(s)[s[0]] >= 2;
        } else {
          assert t[i - 1] == t[j - 1];
          assert !Distinct(t);
          var x :| multiset(t)[x] > 1;
          assert multiset(s)[x] > 1;
        }
      }
    }
  }

  /** Reordering keeps elements distinct. */
  lemma DistinctPermutation<T>(a: seq<T>, b: seq<T>)
    requires multiset(a) == multiset(b) && Distinct(a)
    ensures Distinct(b)
  {
    DistinctMultiplicity(a);
    DistinctMultiplicity(b);
  }

  /** The elements of s in first-occurrence order, each once. */
  function Dedup<T(==)>(s: seq<T>): (r: seq<T>)
    ensures Distinct(r)
    ensures forall x :: x in r ==> x in s
    ensures forall x :: x in s ==> x in r
  {
    if s == [] then []
    else
      var init := Dedup(s[..|s| - 1]);
      assert s == s[..|s| - 1] + [s[|s| - 1]];
      if s[|s| - 1] in init then init else init + [s[|s| - 1]]
  }

  // ---------------------------------------------------------------------
  // Lexicographic order on strings (String.compareTo, ORDER BY name)
  // ---------------------------------------------------------------------

  predicate LexLe(a: string, b: string)
  {
    if a == [] then true
    else if b == [] then false
    else if a[0] != b[0] then a[0] < b[0]
    else LexLe(a[1..], b[1..])
  }

  lemma {:induction false} LexLeTotal(a: string, b: string)
    ensures LexLe(a, b) || LexLe(b, a)
  {
    if a != [] && b != [] && a[0] == b[0] {
      LexLeTotal(a[1..], b[1..]);
    }
  }

  lemma {:induction false} LexLeTrans(a: string, b: string, c: string)
    requires LexLe(a, b) && LexLe(b, c)
    ensures LexLe(a, c)
  {
    if a != [] && b != [] && c != [] && a[0] == b[0] && b[0] == c[0] {
      LexLeTrans(a[1..], b[1..], c[1..]);
    }
  }

  lemma LexLeTotalPreorder()
    ensures TotalPreorder(LexLe)
  {
    forall a, b ensures LexLe(a, b) || LexLe(b, a) {
      LexLeTotal(a, b);
    }
    forall a, b, c | LexLe(a, b) && LexLe(b, c) ensures LexLe(a, c) {
      LexLeTrans(a, b, c);
    }
  }
}
