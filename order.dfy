/**
 * Ordering helpers with Python's meaning: `sorted(...)` on strings (and on
 * records by a string key), the stable sort of `list.sort(key=...)`, and the
 * de-duplication idioms `sorted(set(...))` and "append if not yet seen".
 */
module Order {
  import opened Text

  // ---------------------------------------------------------------------------
  // Sorting by a string key

  predicate SortedBy<T>(xs: seq<T>, key: T -> string) {
    forall i, j :: 0 <= i < j < |xs| ==> StrLe(key(xs[i]), key(xs[j]))
  }

  function InsertBy<T>(x: T, xs: seq<T>, key: T -> string): (r: seq<T>)
    requires SortedBy(xs, key)
    ensures multiset(r) == multiset(xs) + multiset{x}
    ensures SortedBy(r, key)
  {
    if xs == [] then [x]
    else if StrLe(key(x), key(xs[0])) then
      var r := [x] + xs;
      assert SortedBy(r, key) by {
        forall i, j | 0 <= i < j < |r| ensures StrLe(key(r[i]), key(r[j])) {
          if i == 0 && j > 1 { StrLeTransitive(key(x), key(xs[0]), key(xs[j - 1])); }
        }
      }
      r
    else
      var rest := InsertBy(x, xs[1..], key);
      assert xs == [xs[0]] + xs[1..];
      assert forall y :: y in multiset(rest) ==> y == x || y in multiset(xs[1..]);
      var r := [xs[0]] + rest;
      assert SortedBy(r, key) by {
        StrLeTotal(key(x), key(xs[0]));
        forall i, j | 0 <= i < j < |r| ensures StrLe(key(r[i]), key(r[j])) {
          var y := r[j];
          assert y in multiset(rest);
          if y != x {
            assert y in xs[1..];
            var k :| 0 <= k < |xs[1..]| && xs[1..][k] == y;
            assert xs[k + 1] == y;
          }
        }
      }
      r
  }

  /** `sorted(xs, key=key)`: an ordered permutation of `xs`. */
  function SortBy<T>(xs: seq<T>, key: T -> string): (r: seq<T>)
    ensures multiset(r) == multiset(xs)
    ensures SortedBy(r, key)
  {
    if xs == [] then [] else
      assert xs == [xs[0]] + xs[1..];
      InsertBy(xs[0], SortBy(xs[1..], key), key)
  }

  function Identity(s: string): string { s }

  /** `sorted(xs)` on strings. */
  function SortStrings(xs: seq<string>): (r: seq<string>)
    ensures multiset(r) == multiset(xs)
    ensures SortedBy(r, Identity)
  {
    SortBy(xs, Identity)
  }

  lemma ConcatAssoc<T>(x: seq<T>, y: seq<T>, z: seq<T>)
    ensures (x + y) + z == x + (y + z)
  {
  }

  // ---------------------------------------------------------------------------
  // De-duplication

  predicate NoDup<T(==)>(xs: seq<T>) {
    forall i, j :: 0 <= i < j < |xs| ==> xs[i] != xs[j]
  }

  /** Keep the first occurrence of every element, in order. */
  function Dedup<T(==,!new)>(xs: seq<T>): (r: seq<T>)
    ensures NoDup(r)
    ensures forall x :: x in r <==> x in xs
    ensures |r| <= |xs|
    decreases |xs|
  {
    if xs == [] then []
    else
      var prev := Dedup(xs[..|xs| - 1]);
      var x := xs[|xs| - 1];
      assert forall y :: y in xs <==> y in xs[..|xs| - 1] || y == x by {
        assert xs == xs[..|xs| - 1] + [x];
      }
      if x in prev then prev else prev + [x]
  }

  lemma {:induction false} DedupOfNoDup<T(!new)>(xs: seq<T>)
    requires NoDup(xs)
    ensures Dedup(xs) == xs
    decreases |xs|
  {
    if xs != [] {
      var init := xs[..|xs| - 1];
      assert NoDup(init);
      DedupOfNoDup(init);
      assert xs[|xs| - 1] !in init;
      assert xs == init + [xs[|xs| - 1]];
    }
  }

  /** Dedup keeps elements in order of their first occurrence. */
  lemma {:induction false} DedupAppend<T(!new)>(xs: seq<T>, x: T)
    ensures Dedup(xs + [x]) == if x in xs then Dedup(xs) else Dedup(xs) + [x]
  {
    assert (xs + [x])[..|xs + [x]| - 1] == xs;
  }

  lemma {:induction false} NoDupCount<T>(xs: seq<T>)
    requires NoDup(xs)
    ensures forall x :: multiset(xs)[x] <= 1
  {
    if xs != [] {
      var t := xs[1..];
      assert xs == [xs[0]] + t;
      assert NoDup(t);
      NoDupCount(t);
      assert xs[0] !in t;
    }
  }

  lemma CountNoDup<T>(xs: seq<T>)
    requires forall x :: multiset(xs)[x] <= 1
    ensures NoDup(xs)
  {
    forall i, j | 0 <= i < j < |xs| ensures xs[i] != xs[j] {
      var front, back := xs[..j], xs[j..];
      assert xs == front + back;
      assert multiset(xs) == multiset(front) + multiset(back);
      assert xs[i] == front[i] && xs[j] == back[0];
      assert multiset(front)[xs[i]] >= 1 && multiset(back)[xs[j]] >= 1;
      assert multiset(xs)[xs[i]] <= 1;
      assert multiset(xs)[xs[i]] == multiset(front)[xs[i]] + multiset(back)[xs[i]];
    }
  }

  predicate StrictlySorted(xs: seq<string>) {
    forall i, j :: 0 <= i < j < |xs| ==> StrLt(xs[i], xs[j])
  }

  /** `sorted(set(xs))`: the distinct elements, in increasing order. */
  function SortedSet(xs: seq<string>): (r: seq<string>)
    ensures forall x :: x in r <==> x in xs
    ensures StrictlySorted(r)
  {
    var d := Dedup(xs);
    var r := SortStrings(d);
    assert forall x :: x in r <==> x in multiset(d);
    NoDupCount(d);
    CountNoDup(r);
    r
  }

  lemma HasMember<T>(s: seq<T>)
    ensures s != [] ==> s[0] in s
  {
  }

  /** A strictly sorted sequence is determined by its elements. */
  lemma {:induction false} StrictlySortedUnique(a: seq<string>, b: seq<string>)
    requires StrictlySorted(a) && StrictlySorted(b)
    requires forall x :: x in a <==> x in b
    ensures a == b
    decreases |a|
  {
    if a != [] && b != [] {
      assert a[0] in a && b[0] in b;
      assert a[0] == b[0] by {
        if a[0] != b[0] {
          var i :| 0 <= i < |b| && b[i] == a[0];
          var j :| 0 <= j < |a| && a[j] == b[0];
          assert StrLt(b[0], b[i]) && StrLt(a[0], a[j]);
          StrLtAsymmetric(a[0], a[j]);
        }
      }
      forall x ensures x in a[1..] <==> x in b[1..] {
        if x in a[1..] {
          var i :| 0 <= i < |a[1..]| && a[1..][i] == x;
          assert StrLt(a[0], a[i + 1]);
          StrLtIrreflexive(a[0]);
          assert x in b && x != b[0];
          var k :| 0 <= k < |b| && b[k] == x;
          assert b[1..][k - 1] == x;
        }
        if x in b[1..] {
          var i :| 0 <= i < |b[1..]| && b[1..][i] == x;
          assert StrLt(b[0], b[i + 1]);
          StrLtIrreflexive(b[0]);
          assert x in a && x != a[0];
          var k :| 0 <= k < |a| && a[k] == x;
          assert a[1..][k - 1] == x;
        }
      }
      StrictlySortedUnique(a[1..], b[1..]);
      assert a == [a[0]] + a[1..] && b == [b[0]] + b[1..];
    } else {
      HasMember(a);
      HasMember(b);
    }
  }

  /** `sorted(set(xs))` depends only on which elements occur in `xs`. */
  lemma SortedSetOfSameElements(xs: seq<string>, ys: seq<string>)
    requires forall x :: x in xs <==> x in ys
    ensures SortedSet(xs) == SortedSet(ys)
  {
    StrictlySortedUnique(SortedSet(xs), SortedSet(ys));
  }
}
