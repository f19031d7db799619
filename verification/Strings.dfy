/**
 The list and string operations that the control panel takes from Python: filtering and
 appending to lists, `list.remove`, `str.split("/")`, `"/".join` and `str.startswith`,
 together with the `*` and `?` matching that IAM applies to resources and to `StringLike`.
 */
module Strings {

  // ---------------------------------------------------------------- lists

  /** `[x for x in s if p(x)]` */
  function Filter<T(!new)>(p: T -> bool, s: seq<T>): (r: seq<T>)
    ensures forall x :: x in r <==> x in s && p(x)
    ensures |r| <= |s|
  {
    if s == [] then []
    else Filter(p, s[..|s| - 1]) + (if p(s[|s| - 1]) then [s[|s| - 1]] else [])
  }

  lemma {:induction false} FilterAppend<T(!new)>(p: T -> bool, a: seq<T>, b: seq<T>)
    ensures Filter(p, a + b) == Filter(p, a) + Filter(p, b)
  {
    if b == [] {
      assert a + b == a;
    } else {
      assert (a + b)[..|a + b| - 1] == a + b[..|b| - 1];
      FilterAppend(p, a, b[..|b| - 1]);
    }
  }

  lemma {:induction false} FilterAll<T(!new)>(p: T -> bool, s: seq<T>)
    requires forall x :: x in s ==> p(x)
    ensures Filter(p, s) == s
  {
    if s != [] {
      var front, last := s[..|s| - 1], s[|s| - 1];
      assert s == front + [last];
      FilterAll(p, front);
    }
  }

  lemma {:induction false} FilterNone<T(!new)>(p: T -> bool, s: seq<T>)
    requires forall x :: x in s ==> !p(x)
    ensures Filter(p, s) == []
  {
    if s != [] {
      FilterNone(p, s[..|s| - 1]);
    }
  }

  /** A filter that keeps everything kept everything: the converse of FilterAll. */
  lemma {:induction false} FilterSame<T(!new)>(p: T -> bool, s: seq<T>)
    requires Filter(p, s) == s
    ensures forall x :: x in s ==> p(x)
  {
  }

  /** A second filter that the first one implies changes nothing. */
  lemma {:induction false} FilterFilter<T(!new)>(p: T -> bool, q: T -> bool, s: seq<T>)
    requires forall x :: x in s && p(x) ==> q(x)
    ensures Filter(p, Filter(q, s)) == Filter(p, s)
  {
    if s != [] {
      var front, last := s[..|s| - 1], s[|s| - 1];
      FilterFilter(p, q, front);
      if q(last) {
        FilterAppend(p, Filter(q, front), [last]);
        assert Filter(p, [last]) == if p(last) then [last] else [] by {
          assert [last][..0] == [];
        }
      } else {
        assert Filter(q, s) == Filter(q, front);
      }
    }
  }

  /** `if x not in s: s.append(x)` */
  function AddOne<T(==,!new)>(s: seq<T>, x: T): (r: seq<T>)
    ensures forall y :: y in r <==> y in s || y == x
  {
    if x in s then s else s + [x]
  }

  function AddAll<T(==,!new)>(s: seq<T>, xs: seq<T>): (r: seq<T>)
    ensures forall y :: y in r <==> y in s || y in xs
    ensures s <= r
  {
    if xs == [] then s else AddOne(AddAll(s, xs[..|xs| - 1]), xs[|xs| - 1])
  }

  /** Appending to a list whose elements are all of another kind builds the new part apart. */
  lemma {:induction false} AddAllApart<T(!new)>(s: seq<T>, xs: seq<T>)
    requires forall x :: x in xs ==> x !in s
    ensures AddAll(s, xs) == s + AddAll([], xs)
  {
    if xs != [] {
      AddAllApart(s, xs[..|xs| - 1]);
    }
  }

  /** Dropping one kind of element from a list that was extended with that kind only. */
  lemma {:induction false} FilterAddAll<T(!new)>(p: T -> bool, s: seq<T>, xs: seq<T>)
    requires forall x :: x in s ==> p(x)
    requires forall x :: x in xs ==> !p(x)
    ensures Filter(p, AddAll(s, xs)) == s
  {
    AddAllApart(s, xs);
    FilterAppend(p, s, AddAll([], xs));
    FilterAll(p, s);
    FilterNone(p, AddAll([], xs));
  }

  ghost predicate NoDuplicates<T>(s: seq<T>) {
    forall i, j :: 0 <= i < j < |s| ==> s[i] != s[j]
  }

  lemma {:induction false} FilterNoDuplicates<T(!new)>(p: T -> bool, s: seq<T>)
    requires NoDuplicates(s)
    ensures NoDuplicates(Filter(p, s))
  {
    if s != [] {
      FilterNoDuplicates(p, s[..|s| - 1]);
    }
  }

  lemma {:induction false} AddAllNoDuplicates<T(!new)>(s: seq<T>, xs: seq<T>)
    requires NoDuplicates(s)
    ensures NoDuplicates(AddAll(s, xs))
  {
    if xs != [] {
      AddAllNoDuplicates(s, xs[..|xs| - 1]);
    }
  }

  /** `s.remove(x)`: the first occurrence goes; Python raises when there is none. */
  function RemoveFirst<T(==)>(s: seq<T>, x: T): (r: seq<T>)
    requires x in s
    ensures |r| == |s| - 1
  {
    if s[0] == x then s[1..] else [s[0]] + RemoveFirst(s[1..], x)
  }

  lemma {:induction false} RemoveFirstAt<T>(a: seq<T>, x: T, b: seq<T>)
    requires x !in a
    ensures RemoveFirst(a + [x] + b, x) == a + b
  {
    var s := a + [x] + b;
    if a == [] {
      assert s[1..] == b && a + b == b;
    } else {
      var t := a[1..] + [x] + b;
      assert s[0] == a[0] != x;
      assert s[1..] == t;
      RemoveFirstAt(a[1..], x, b);
      assert [a[0]] + (a[1..] + b) == a + b;
    }
  }

  lemma {:induction false} RemoveFirstMembers<T>(s: seq<T>, x: T)
    requires x in s
    ensures forall y :: y != x ==> (y in RemoveFirst(s, x) <==> y in s)
    ensures NoDuplicates(s) ==> NoDuplicates(RemoveFirst(s, x)) && x !in RemoveFirst(s, x)
  {
    if s[0] != x {
      var rest := s[1..];
      assert s == [s[0]] + rest;
      RemoveFirstMembers(rest, x);
      var removed := RemoveFirst(rest, x);
      assert RemoveFirst(s, x) == [s[0]] + removed;
      assert forall y :: y in RemoveFirst(s, x) <==> y == s[0] || y in removed;
      assert NoDuplicates(s) ==> s[0] !in rest;
    } else {
      assert forall y :: y in s <==> y == x || y in s[1..];
    }
  }

  // ---------------------------------------------------------------- strings

  /** `s.startswith(prefix)` */
  predicate StartsWith(s: string, prefix: string) {
    prefix <= s
  }

  predicate HasSlash(s: string) {
    '/' in s
  }

  /** The position of the first slash, or |s| when there is none. */
  function FirstSlash(s: string): (k: nat)
    ensures k <= |s|
    ensures forall i :: 0 <= i < k ==> s[i] != '/'
    ensures k < |s| ==> s[k] == '/'
  {
    if s == "" || s[0] == '/' then 0 else 1 + FirstSlash(s[1..])
  }

  /** `s.split("/")` */
  function Split(s: string): (parts: seq<string>)
    ensures |parts| >= 1
    ensures parts[0] == s[..FirstSlash(s)]
    decreases |s|
  {
    var k := FirstSlash(s);
    if k == |s| then [s] else [s[..k]] + Split(s[k + 1..])
  }

  /** `"/".join(parts)` */
  function Join(parts: seq<string>): string {
    if parts == [] then ""
    else if |parts| == 1 then parts[0]
    else parts[0] + "/" + Join(parts[1..])
  }

  /** `f"{prev}/{path}" if prev else path`, the way the folder loop grows a path. */
  function Under(prev: string, path: string): string {
    if prev == "" then path else prev + "/" + path
  }

  lemma {:induction false} JoinSnoc(parts: seq<string>, last: string)
    requires parts != []
    ensures Join(parts + [last]) == Join(parts) + "/" + last
  {
    if |parts| == 1 {
      assert (parts + [last])[1..] == [last];
    } else {
      assert (parts + [last])[1..] == parts[1..] + [last];
      JoinSnoc(parts[1..], last);
      assert parts[0] + "/" + (Join(parts[1..]) + "/" + last)
          == parts[0] + "/" + Join(parts[1..]) + "/" + last;
    }
  }

  lemma {:induction false} SplitCons(s: string)
    requires FirstSlash(s) < |s|
    ensures Split(s) == [s[..FirstSlash(s)]] + Split(s[FirstSlash(s) + 1..])
  {
  }

  lemma {:induction false} JoinCons(head: string, rest: seq<string>)
    requires rest != []
    ensures Join([head] + rest) == head + "/" + Join(rest)
  {
  }

  lemma {:induction false} JoinSingle(part: string)
    ensures Join([part]) == part
  {
  }

  /** A split whose string holds a slash, one part deeper. */
  lemma {:induction false} SplitStep(s: string, i: nat)
    requires FirstSlash(s) < |s|
    requires 1 <= i <= |Split(s[FirstSlash(s) + 1..])|
    ensures |Split(s)| == 1 + |Split(s[FirstSlash(s) + 1..])|
    ensures Split(s)[..1] == [s[..FirstSlash(s)]]
    ensures Join(Split(s)[..i + 1]) == s[..FirstSlash(s)] + "/" + Join(Split(s[FirstSlash(s) + 1..])[..i])
  {
    hide Split, Join, FirstSlash;
    var head, tail := s[..FirstSlash(s)], Split(s[FirstSlash(s) + 1..]);
    SplitCons(s);
    assert Split(s)[..i + 1] == [head] + tail[..i];
    JoinCons(head, tail[..i]);
  }

  lemma {:induction false} OnePart(s: string)
    requires FirstSlash(s) == |s|
    ensures |Split(s)| == 1
  {
  }

  /** Joining the first i parts of a split gives a prefix of the string that ends before a slash. */
  lemma {:induction false} SplitPrefix(s: string, i: nat) returns (m: nat)
    requires 1 <= i < |Split(s)|
    ensures m < |s| && s[m] == '/'
    ensures Join(Split(s)[..i]) == s[..m]
    decreases |s|
  {
    hide Split, Join, FirstSlash;
    var k := FirstSlash(s);
    if k == |s| {
      OnePart(s);
    }
    SplitCons(s);
    if i == 1 {
      m := k;
      JoinSingle(s[..k]);
      assert Split(s)[..1] == [s[..k]];
    } else {
      SplitStep(s, i - 1);
      var m' := SplitPrefix(s[k + 1..], i - 1);
      m := k + 1 + m';
      SlashPrefix(s, k, m);
    }
  }

  /** Every slash of the string ends one of those prefixes. */
  lemma {:induction false} SplitAtSlash(s: string, m: nat) returns (i: nat)
    requires m < |s| && s[m] == '/'
    ensures 1 <= i < |Split(s)|
    ensures Join(Split(s)[..i]) == s[..m]
    decreases |s|
  {
    hide Split, Join, FirstSlash;
    var k := FirstSlash(s);
    var rest := s[k + 1..];
    SplitCons(s);
    if m == k {
      i := 1;
      JoinSingle(s[..k]);
      assert Split(s)[..1] == [s[..k]];
    } else {
      var i' := SplitAtSlash(rest, m - k - 1);
      i := i' + 1;
      SplitStep(s, i');
      SlashPrefix(s, k, m);
    }
  }

  lemma {:induction false} SlashPrefix(s: string, k: nat, m: nat)
    requires k < m < |s| && s[k] == '/'
    ensures s[..m] == s[..k] + "/" + s[k + 1..][..m - k - 1]
  {
  }

  // ---------------------------------------------------------------- IAM wildcards

  /** IAM pattern matching: `*` stands for any run of characters, `?` for one. */
  predicate Glob(pattern: string, s: string)
    decreases |pattern| + |s|
  {
    if pattern == "" then s == ""
    else if pattern[0] == '*' then Glob(pattern[1..], s) || (s != "" && Glob(pattern, s[1..]))
    else s != "" && (pattern[0] == '?' || pattern[0] == s[0]) && Glob(pattern[1..], s[1..])
  }

  predicate Literal(s: string) {
    '*' !in s && '?' !in s
  }

  lemma {:induction false} GlobStar(s: string)
    ensures Glob("*", s)
  {
    if s != "" {
      GlobStar(s[1..]);
    }
  }

  /** A pattern matches its own text extended by whatever its final star may absorb. */
  lemma {:induction false} GlobSelf(x: string, tail: string)
    ensures Glob(x + "*", x + tail)
  {
    if x == "" {
      assert x + "*" == "*" && x + tail == tail;
      GlobStar(tail);
    } else {
      var p, t := x + "*", x + tail;
      assert p[1..] == x[1..] + "*" && t[1..] == x[1..] + tail;
      GlobSelf(x[1..], tail);
      if p[0] == '*' {
        GlobStarAbsorbs(p[1..], t[1..]);
      }
    }
  }

  /** A leading star may absorb one character before the rest of the pattern matches. */
  lemma {:induction false} GlobStarAbsorbs(p: string, t: string)
    requires Glob(p, t)
    ensures forall c: char :: Glob("*" + p, [c] + t)
  {
  }

  /** Text without wildcards at the head of a pattern must be there literally. */
  lemma {:induction false} GlobLiteralHead(lit: string, rest: string, s: string)
    requires Literal(lit)
    requires Glob(lit + rest, s)
    ensures StartsWith(s, lit) && Glob(rest, s[|lit|..])
  {
    if lit == "" {
      assert lit + rest == rest;
    } else {
      assert (lit + rest)[1..] == lit[1..] + rest;
      assert lit[0] in lit;
      GlobLiteralHead(lit[1..], rest, s[1..]);
      assert s[1..][|lit| - 1..] == s[|lit|..];
    }
  }

  /** A pattern without wildcards matches itself only. */
  lemma {:induction false} GlobLiteral(lit: string, s: string)
    requires Literal(lit)
    ensures Glob(lit, s) <==> s == lit
  {
    assert lit + "" == lit;
    if Glob(lit, s) {
      GlobLiteralHead(lit, "", s);
    } else if s == lit {
      GlobLiteralHeadHolds(lit, "", s);
    }
  }

  lemma {:induction false} GlobLiteralHeadHolds(lit: string, rest: string, s: string)
    requires Literal(lit)
    requires StartsWith(s, lit) && Glob(rest, s[|lit|..])
    ensures Glob(lit + rest, s)
  {
    if lit == "" {
      assert lit + rest == rest;
    } else {
      assert (lit + rest)[1..] == lit[1..] + rest;
      assert lit[0] in lit;
      assert s[1..][|lit| - 1..] == s[|lit|..];
      GlobLiteralHeadHolds(lit[1..], rest, s[1..]);
    }
  }

  /** What one character of a pattern stands for. */
  lemma {:induction false} GlobOne(c: char, s: string)
    ensures Glob([c], s) <==> c == '*' || (|s| == 1 && (c == '?' || s[0] == c))
  {
    assert [c][1..] == "";
    if c == '*' {
      GlobStar(s);
      assert [c] == "*";
    }
  }

  /** A pattern in two parts matches what can be cut into a match of each; with GlobOne this fixes every match. */
  lemma {:induction false} GlobParts(p: string, q: string, s: string)
    ensures Glob(p + q, s) <==> exists k :: 0 <= k <= |s| && Glob(p, s[..k]) && Glob(q, s[k..])
    decreases |p| + |s|
  {
    if p == "" {
      assert p + q == q && s[..0] == "" && s[0..] == s;
    } else {
      assert (p + q)[1..] == p[1..] + q;
      GlobParts(p[1..], q, s);
      if s != "" {
        GlobParts(if p[0] == '*' then p else p[1..], q, s[1..]);
      }
      GlobPartsStep(p, q, s);
    }
  }

  lemma {:induction false} GlobPartsStep(p: string, q: string, s: string)
    requires p != ""
    requires Glob(p[1..] + q, s) <==> exists k :: 0 <= k <= |s| && Glob(p[1..], s[..k]) && Glob(q, s[k..])
    requires var p' := if p[0] == '*' then p else p[1..];
             s != "" ==> (Glob(p' + q, s[1..]) <==> exists k :: 0 <= k <= |s[1..]| && Glob(p', s[1..][..k]) && Glob(q, s[1..][k..]))
    ensures Glob(p + q, s) <==> exists k :: 0 <= k <= |s| && Glob(p, s[..k]) && Glob(q, s[k..])
  {
    assert (p + q)[1..] == p[1..] + q && (p + q)[0] == p[0];
    var p' := if p[0] == '*' then p else p[1..];
    assert p[0] == '*' ==> p' + q == p + q;
    if Glob(p + q, s) {
      if p[0] == '*' && Glob(p[1..] + q, s) {
        var k :| 0 <= k <= |s| && Glob(p[1..], s[..k]) && Glob(q, s[k..]);
        assert Glob(p, s[..k]);
      } else {
        var k :| 0 <= k <= |s[1..]| && Glob(p', s[1..][..k]) && Glob(q, s[1..][k..]);
        assert s[..k + 1][1..] == s[1..][..k] && s[k + 1..] == s[1..][k..];
        assert Glob(p, s[..k + 1]);
      }
    }
    if k :| 0 <= k <= |s| && Glob(p, s[..k]) && Glob(q, s[k..]) {
      if p[0] == '*' && Glob(p[1..], s[..k]) {
        assert Glob(p[1..] + q, s);
      } else {
        assert k > 0 && s[..k][1..] == s[1..][..k - 1] && s[k..] == s[1..][k - 1..];
        assert Glob(p', s[1..][..k - 1]);
      }
    }
  }
}
