// Shared helpers: an optional value and weighted sums over sequences.

module Wrappers {
  datatype Option<+T> = None | Some(value: T) {
    function GetOr(default: T): T {
      match this
      case Some(v) => v
      case None => default
    }
  }

  function Max(a: int, b: int): int {
    if a < b then b else a
  }

  // The weights of all rows added up, over whole numbers and over money.
  function SumInt<T>(s: seq<T>, w: T -> int): int {
    if s == [] then 0 else w(s[0]) + SumInt(s[1..], w)
  }

  function SumReal<T>(s: seq<T>, w: T -> real): real {
    if s == [] then 0.0 else w(s[0]) + SumReal(s[1..], w)
  }
}

// A table is a sequence of rows; these lemmas say how a sum over the table reacts
// to appending, replacing, deleting and reordering rows.
module Sums {
  import opened Wrappers

  lemma {:induction false} SumIntConcat<T>(a: seq<T>, b: seq<T>, w: T -> int)
    ensures SumInt(a + b, w) == SumInt(a, w) + SumInt(b, w)
  {
    if a == [] {
      assert a + b == b;
    } else {
      assert (a + b)[1..] == a[1..] + b;
      SumIntConcat(a[1..], b, w);
    }
  }

  lemma {:induction false} SumRealConcat<T>(a: seq<T>, b: seq<T>, w: T -> real)
    ensures SumReal(a + b, w) == SumReal(a, w) + SumReal(b, w)
  {
    if a == [] {
      assert a + b == b;
    } else {
      assert (a + b)[1..] == a[1..] + b;
      SumRealConcat(a[1..], b, w);
    }
  }

  lemma SumIntOne<T>(x: T, w: T -> int)
    ensures SumInt([x], w) == w(x)
  {
  }

  lemma SumRealOne<T>(x: T, w: T -> real)
    ensures SumReal([x], w) == w(x)
  {
  }

  lemma {:induction false} SumIntSame<T>(s: seq<T>, v: T -> int, w: T -> int)
    requires forall i :: 0 <= i < |s| ==> v(s[i]) == w(s[i])
    ensures SumInt(s, v) == SumInt(s, w)
  {
    if s != [] {
      SumIntSame(s[1..], v, w);
    }
  }

  lemma {:induction false} SumRealSame<T>(s: seq<T>, v: T -> real, w: T -> real)
    requires forall i :: 0 <= i < |s| ==> v(s[i]) == w(s[i])
    ensures SumReal(s, v) == SumReal(s, w)
  {
    if s != [] {
      SumRealSame(s[1..], v, w);
    }
  }

  lemma {:induction false} SumIntNonNegative<T>(s: seq<T>, w: T -> int)
    requires forall i :: 0 <= i < |s| ==> w(s[i]) >= 0
    ensures SumInt(s, w) >= 0
    ensures forall i :: 0 <= i < |s| ==> w(s[i]) <= SumInt(s, w)
  {
    if s != [] {
      SumIntNonNegative(s[1..], w);
      assert forall i :: 0 < i < |s| ==> s[i] == s[1..][i - 1];
    }
  }

  lemma {:induction false} SumRealNonNegative<T>(s: seq<T>, w: T -> real)
    requires forall i :: 0 <= i < |s| ==> w(s[i]) >= 0.0
    ensures SumReal(s, w) >= 0.0
    ensures forall i :: 0 <= i < |s| ==> w(s[i]) <= SumReal(s, w)
  {
    if s != [] {
      SumRealNonNegative(s[1..], w);
      assert forall i :: 0 < i < |s| ==> s[i] == s[1..][i - 1];
    }
  }

  // Replace row `i` by the rows `x` (none, one or more) while the weight of the
  // other rows is the same under `v` and `w`.
  lemma SumIntReplace<T>(s: seq<T>, i: nat, x: seq<T>, v: T -> int, w: T -> int)
    requires i < |s|
    requires forall j :: 0 <= j < |s| && j != i ==> v(s[j]) == w(s[j])
    ensures SumInt(s[..i] + x + s[i + 1..], w) == SumInt(s, v) - v(s[i]) + SumInt(x, w)
  {
    SumIntConcat(s[..i] + x, s[i + 1..], w);
    SumIntConcat(s[..i], x, w);
    SumIntSame(s[..i], v, w);
    SumIntSame(s[i + 1..], v, w);
    SumIntConcat(s[..i], s[i..], v);
    assert s == s[..i] + s[i..] && s[i..][1..] == s[i + 1..];
  }

  lemma SumRealReplace<T>(s: seq<T>, i: nat, x: seq<T>, v: T -> real, w: T -> real)
    requires i < |s|
    requires forall j :: 0 <= j < |s| && j != i ==> v(s[j]) == w(s[j])
    ensures SumReal(s[..i] + x + s[i + 1..], w) == SumReal(s, v) - v(s[i]) + SumReal(x, w)
  {
    SumRealConcat(s[..i] + x, s[i + 1..], w);
    SumRealConcat(s[..i], x, w);
    SumRealSame(s[..i], v, w);
    SumRealSame(s[i + 1..], v, w);
    SumRealConcat(s[..i], s[i..], v);
    assert s == s[..i] + s[i..] && s[i..][1..] == s[i + 1..];
  }

  // Sums do not see the order of the rows.
  lemma {:induction false} SumIntPermuted<T>(a: seq<T>, b: seq<T>, w: T -> int)
    requires multiset(a) == multiset(b)
    ensures SumInt(a, w) == SumInt(b, w)
  {
    if a == [] {
      assert |multiset(b)| == 0;
    } else {
      var i := Without(a, b);
      SumIntPermuted(a[1..], b[..i] + b[i + 1..], w);
      SumIntReplace(b, i, [], w, w);
      assert b[..i] + [] + b[i + 1..] == b[..i] + b[i + 1..];
    }
  }

  lemma {:induction false} SumRealPermuted<T>(a: seq<T>, b: seq<T>, w: T -> real)
    requires multiset(a) == multiset(b)
    ensures SumReal(a, w) == SumReal(b, w)
  {
    if a == [] {
      assert |multiset(b)| == 0;
    } else {
      var i := Without(a, b);
      SumRealPermuted(a[1..], b[..i] + b[i + 1..], w);
      SumRealReplace(b, i, [], w, w);
      assert b[..i] + [] + b[i + 1..] == b[..i] + b[i + 1..];
    }
  }

  lemma Without<T>(a: seq<T>, b: seq<T>) returns (i: nat)
    requires multiset(a) == multiset(b) && a != []
    ensures i < |b| && b[i] == a[0]
    ensures multiset(a[1..]) == multiset(b[..i] + b[i + 1..])
  {
    assert a[0] in multiset(b);
    assert a[0] in b;
    i :| 0 <= i < |b| && b[i] == a[0];
    TakeOut(a, 0);
    TakeOut(b, i);
    assert a[..0] + a[1..] == a[1..];
  }

  lemma TakeOut<T>(s: seq<T>, i: nat)
    requires i < |s|
    ensures multiset(s[..i] + s[i + 1..]) == multiset(s) - multiset{s[i]}
  {
    assert s == s[..i] + ([s[i]] + s[i + 1..]);
  }
}
