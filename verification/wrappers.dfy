/** Option, and the sequence operations the other modules share. */
module Wrappers {

  datatype Option<+T> = None | Some(value: T)

  ghost predicate NoDup<T>(s: seq<T>) {
    forall i, j | 0 <= i < j < |s| :: s[i] != s[j]
  }

  /** s without its first x: what a search for x followed by a slice deletion leaves. */
  function RemoveFirst<T(==)>(s: seq<T>, x: T): (r: seq<T>)
    ensures x !in s ==> r == s
  {
    if s == [] then [] else if s[0] == x then s[1..] else [s[0]] + RemoveFirst(s[1..], x)
  }

  /** Removing from a duplicate-free list takes out exactly x and keeps the list duplicate-free. */
  lemma {:induction false} RemoveFirstNoDup<T>(s: seq<T>, x: T)
    requires NoDup(s)
    ensures NoDup(RemoveFirst(s, x))
    ensures forall y :: y in RemoveFirst(s, x) <==> y in s && y != x
  {
    if s != [] {
      assert s == [s[0]] + s[1..];
      assert s[0] !in s[1..];
      RemoveFirstNoDup(s[1..], x);
      var r := RemoveFirst(s[1..], x);
      assert RemoveFirst(s, x) == if s[0] == x then s[1..] else [s[0]] + r;
    }
  }

  /** Removing x at its first index i is cutting position i out. */
  lemma {:induction false} RemoveFirstAt<T>(s: seq<T>, x: T, i: nat)
    requires i < |s| && s[i] == x && x !in s[..i]
    ensures RemoveFirst(s, x) == s[..i] + s[i + 1..]
  {
    if i > 0 {
      assert s[0] != x by { assert s[0] == s[..i][0]; }
      assert s[1..][..i - 1] == s[..i][1..];
      RemoveFirstAt(s[1..], x, i - 1);
      assert [s[0]] + (s[1..][..i - 1] + s[1..][i..]) == s[..i] + s[i + 1..];
    }
  }

  /** s without any x. */
  function Without<T(==)>(s: seq<T>, x: T): seq<T> {
    if s == [] then [] else Without(s[..|s| - 1], x) + (if s[|s| - 1] == x then [] else [s[|s| - 1]])
  }

  lemma {:induction false} WithoutExact<T>(s: seq<T>, x: T)
    ensures forall y :: y in Without(s, x) <==> y in s && y != x
    ensures NoDup(s) ==> NoDup(Without(s, x))
  {
    if s != [] {
      var last := s[|s| - 1];
      WithoutExact(s[..|s| - 1], x);
      assert s == s[..|s| - 1] + [last];
      if NoDup(s) {
        assert forall i | 0 <= i < |s| - 1 :: s[i] != last;
        assert last !in s[..|s| - 1];
      }
    }
  }

  /** Putting a new x anywhere into a duplicate-free list. */
  lemma InsertNoDup<T>(s: seq<T>, x: T, p: nat)
    requires NoDup(s) && x !in s && p <= |s|
    ensures NoDup(s[..p] + [x] + s[p..])
    ensures forall y :: y in s[..p] + [x] + s[p..] <==> y in s || y == x
  {
  }

  // ----- order -----

  /** Some x stands before some y. */
  ghost predicate Ahead<T>(s: seq<T>, x: T, y: T) {
    exists i, j :: 0 <= i < j < |s| && s[i] == x && s[j] == y
  }

  /** A sequence in two parts: both in the first, both in the second, or one in each. */
  lemma AheadJoin<T>(a: seq<T>, b: seq<T>, x: T, y: T)
    ensures Ahead(a + b, x, y) <==> Ahead(a, x, y) || Ahead(b, x, y) || (x in a && y in b)
  {
    var s := a + b;
    if i, j :| 0 <= i < j < |s| && s[i] == x && s[j] == y {
      if i >= |a| { assert b[i - |a|] == x && b[j - |a|] == y; }
    }
    if Ahead(a, x, y) {
      var i, j :| 0 <= i < j < |a| && a[i] == x && a[j] == y;
      assert s[i] == x && s[j] == y;
    }
    if Ahead(b, x, y) {
      var i, j :| 0 <= i < j < |b| && b[i] == x && b[j] == y;
      assert s[|a| + i] == x && s[|a| + j] == y;
    }
    if x in a && y in b {
      var i :| 0 <= i < |a| && a[i] == x;
      var j :| 0 <= j < |b| && b[j] == y;
      assert s[i] == x && s[|a| + j] == y;
    }
  }

  lemma AheadIn<T>(s: seq<T>, x: T, y: T)
    ensures Ahead(s, x, y) ==> x in s && y in s
  {
  }

  lemma NoneAhead<T>(z: T, x: T, y: T)
    ensures !Ahead([], x, y) && !Ahead([z], x, y)
  {
  }

  /** Taking x out, all of it or its first, leaves the others in their order. */
  lemma {:induction false} WithoutAhead<T>(s: seq<T>, z: T, x: T, y: T)
    requires x != z && y != z
    ensures Ahead(Without(s, z), x, y) <==> Ahead(s, x, y)
  {
    if s != [] {
      var before, last := s[..|s| - 1], s[|s| - 1];
      assert s == before + [last];
      WithoutAhead(before, z, x, y);
      WithoutExact(before, z);
      AheadJoin(before, [last], x, y);
      AheadJoin(Without(before, z), if last == z then [] else [last], x, y);
      NoneAhead(last, x, y);
    }
  }

  lemma {:induction false} RemoveFirstAhead<T>(s: seq<T>, z: T, x: T, y: T)
    requires x != z && y != z
    ensures Ahead(RemoveFirst(s, z), x, y) <==> Ahead(s, x, y)
    ensures y in RemoveFirst(s, z) <==> y in s
  {
    if s != [] {
      var head, rest := s[0], s[1..];
      assert s == [head] + rest;
      RemoveFirstAhead(rest, z, x, y);
      AheadJoin([head], rest, x, y);
      NoneAhead(head, x, y);
      if head != z {
        AheadJoin([head], RemoveFirst(rest, z), x, y);
        assert RemoveFirst(s, z) == [head] + RemoveFirst(rest, z);
      }
    }
  }

  /** Putting z in anywhere leaves the others in their order. */
  lemma InsertAhead<T>(s: seq<T>, z: T, p: nat, x: T, y: T)
    requires p <= |s| && x != z && y != z
    ensures Ahead(s[..p] + [z] + s[p..], x, y) <==> Ahead(s, x, y)
  {
    assert s == s[..p] + s[p..];
    AheadJoin(s[..p], s[p..], x, y);
    AheadJoin(s[..p] + [z], s[p..], x, y);
    AheadJoin(s[..p], [z], x, y);
    NoneAhead(z, x, y);
  }
}
