/** Sequences read as bags: what a permutation keeps. */
module Sequences {

  datatype Option<+T> = None | Some(value: T)

  ghost predicate Distinct<T>(s: seq<T>) {
    forall i, j | 0 <= i < j < |s| :: s[i] != s[j]
  }

  lemma {:induction false} DistinctAt<T>(s: seq<T>, i: nat, j: nat)
    requires Distinct(s) && i < |s| && j < |s| && s[i] == s[j]
    ensures i == j
  {
  }

  function Map<A, B>(f: A -> B, s: seq<A>): (t: seq<B>)
    ensures |t| == |s|
    ensures forall i | 0 <= i < |s| :: t[i] == f(s[i])
  {
    seq(|s|, i requires 0 <= i < |s| => f(s[i]))
  }

  lemma {:induction false} MapConcat<A, B>(f: A -> B, s: seq<A>, t: seq<A>)
    ensures Map(f, s + t) == Map(f, s) + Map(f, t)
  {
  }

  lemma {:induction false} MapAt<A, B>(f: A -> B, s: seq<A>, i: nat)
    requires i < |s|
    ensures multiset(Map(f, s)) == multiset(Map(f, s[..i])) + multiset{f(s[i])} + multiset(Map(f, s[i + 1..]))
  {
    assert Map(f, s) == Map(f, s[..i]) + [f(s[i])] + Map(f, s[i + 1..]);
  }

  lemma {:induction false} DistinctAsBag<T>(s: seq<T>)
    ensures Distinct(s) <==> forall x :: multiset(s)[x] <= 1
  {
    if s != [] {
      var n := |s| - 1;
      assert s == s[..n] + [s[n]];
      DistinctAsBag(s[..n]);
      if Distinct(s) {
        assert Distinct(s[..n]) && s[n] !in s[..n];
      } else if !Distinct(s[..n]) {
        var x :| multiset(s[..n])[x] > 1;
        assert multiset(s)[x] > 1;
      } else {
        assert s[n] in s[..n];
        assert multiset(s)[s[n]] > 1;
      }
    }
  }

  /** Two sequences with the same bag are equally free of repeats. */
  lemma {:induction false} PermutedDistinct<T>(s: seq<T>, t: seq<T>)
    requires multiset(s) == multiset(t)
    ensures Distinct(s) <==> Distinct(t)
  {
    DistinctAsBag(s);
    DistinctAsBag(t);
  }

  /** Takes the element at i out of the bag of s. */
  lemma {:induction false} WithoutAt<T>(s: seq<T>, i: nat)
    requires i < |s|
    ensures multiset(s) == multiset(s[..i] + s[i + 1..]) + multiset{s[i]}
  {
    assert s == s[..i] + [s[i]] + s[i + 1..];
  }

  /** Finds the head of s in a rearrangement t and takes it out of both. */
  lemma {:induction false} TakeHead<T>(s: seq<T>, t: seq<T>) returns (j: nat)
    requires s != [] && multiset(s) == multiset(t)
    ensures j < |t| && t[j] == s[0]
    ensures multiset(s[1..]) == multiset(t[..j] + t[j + 1..])
  {
    assert s[0] in multiset(s);
    assert s[0] in t;
    j :| 0 <= j < |t| && t[j] == s[0];
    WithoutAt(t, j);
    assert s == [s[0]] + s[1..];
    assert multiset(s) == multiset{s[0]} + multiset(s[1..]);
    assert multiset(s[1..]) == multiset(s) - multiset{s[0]};
  }

  lemma {:induction false} MapPermuted<A, B>(f: A -> B, s: seq<A>, t: seq<A>)
    requires multiset(s) == multiset(t)
    ensures multiset(Map(f, s)) == multiset(Map(f, t))
    decreases |s|
  {
    if s == [] {
      assert |t| == |multiset(t)| == 0;
    } else {
      var x := s[0];
      var j := TakeHead(s, t);
      var u := t[..j] + t[j + 1..];
      MapPermuted(f, s[1..], u);
      MapConcat(f, t[..j], t[j + 1..]);
      MapAt(f, t, j);
      MapAt(f, s, 0);
      assert multiset(Map(f, u)) == multiset(Map(f, t[..j])) + multiset(Map(f, t[j + 1..]));
    }
  }

  lemma {:induction false} StillIn<T>(t: seq<T>, j: nat, y: T)
    requires j < |t| && y in t && y != t[j]
    ensures y in t[..j] + t[j + 1..]
  {
    var k :| 0 <= k < |t| && t[k] == y;
    assert (t[..j] + t[j + 1..])[if k < j then k else k - 1] == y;
  }

  /** A repeat-free list of members of another repeat-free list of its own
      length is a rearrangement of it. */
  lemma {:induction false} DistinctMembersPermute<T>(s: seq<T>, t: seq<T>)
    requires Distinct(s) && Distinct(t) && |s| == |t|
    requires forall x | x in s :: x in t
    ensures multiset(s) == multiset(t)
    decreases |s|
  {
    if s != [] {
      assert s[0] in t;
      var j :| 0 <= j < |t| && t[j] == s[0];
      var u := t[..j] + t[j + 1..];
      WithoutAt(t, j);
      assert s == [s[0]] + s[1..];
      DistinctWithout(t, j);
      forall y | y in s[1..] ensures y in u {
        var i :| 0 <= i < |s[1..]| && s[1..][i] == y;
        assert s[i + 1] == y && s[0] != s[i + 1];
        StillIn(t, j, y);
      }
      assert Distinct(s[1..]);
      hide Distinct;
      DistinctMembersPermute(s[1..], u);
    }
  }

  lemma {:induction false} DistinctWithout<T>(t: seq<T>, j: nat)
    requires Distinct(t) && j < |t|
    ensures Distinct(t[..j] + t[j + 1..])
  {
    var u := t[..j] + t[j + 1..];
    forall k, l | 0 <= k < l < |u| ensures u[k] != u[l] {
      assert u[k] == t[if k < j then k else k + 1] && u[l] == t[if l < j then l else l + 1];
    }
  }

  function Flatten<T>(lists: seq<seq<T>>): seq<T> {
    if lists == [] then [] else lists[0] + Flatten(lists[1..])
  }

  lemma {:induction false} FlattenConcat<T>(s: seq<seq<T>>, t: seq<seq<T>>)
    ensures Flatten(s + t) == Flatten(s) + Flatten(t)
  {
    if s == [] {
      assert s + t == t;
    } else {
      var all := s + t;
      assert all[1..] == s[1..] + t && all[0] == s[0];
      FlattenConcat(s[1..], t);
      assert Flatten(all) == s[0] + Flatten(s[1..] + t);
    }
  }

  lemma {:induction false} FlattenAt<T>(s: seq<seq<T>>, i: nat)
    requires i < |s|
    ensures Flatten(s) == Flatten(s[..i]) + s[i] + Flatten(s[i + 1..])
  {
    assert s == s[..i] + s[i..];
    FlattenConcat(s[..i], s[i..]);
    assert s[i..][1..] == s[i + 1..];
    assert s[i..][0] == s[i];
  }

  lemma {:induction false} FlattenMembers<T>(s: seq<seq<T>>)
    ensures forall i, j | 0 <= i < |s| && 0 <= j < |s[i]| :: s[i][j] in Flatten(s)
    ensures forall x | x in Flatten(s) :: exists i :: 0 <= i < |s| && x in s[i]
  {
    if s != [] {
      FlattenMembers(s[1..]);
      forall i, j | 0 <= i < |s| && 0 <= j < |s[i]| ensures s[i][j] in Flatten(s) {
        if i > 0 { assert s[i][j] == s[1..][i - 1][j]; }
      }
      forall x | x in Flatten(s) ensures exists i :: 0 <= i < |s| && x in s[i] {
        if x in s[0] {
        } else {
          assert x in Flatten(s[1..]);
          var i :| 0 <= i < |s[1..]| && x in s[1..][i];
          assert x in s[i + 1];
        }
      }
    }
  }

  lemma {:induction false} FlattenPermuted<T>(s: seq<seq<T>>, t: seq<seq<T>>)
    requires multiset(s) == multiset(t)
    ensures multiset(Flatten(s)) == multiset(Flatten(t))
    decreases |s|
  {
    if s == [] {
      assert |t| == |multiset(t)| == 0;
    } else {
      var j := TakeHead(s, t);
      var u := t[..j] + t[j + 1..];
      FlattenPermuted(s[1..], u);
      FlattenAt(t, j);
      FlattenConcat(t[..j], t[j + 1..]);
    }
  }
}
