/** Insertion into order, and what sorting leaves unchanged. */
module Sorting {
  import opened Sequences

  ghost predicate Total<T(!new)>(le: (T, T) -> bool) {
    && (forall x, y :: le(x, y) || le(y, x))
    && (forall x, y, z :: le(x, y) && le(y, z) ==> le(x, z))
  }

  /** The order tells the members of s apart. */
  ghost predicate Tells<T>(le: (T, T) -> bool, s: seq<T>) {
    forall i, j | 0 <= i < |s| && 0 <= j < |s| && le(s[i], s[j]) && le(s[j], s[i]) :: s[i] == s[j]
  }

  ghost predicate Ascending<T>(le: (T, T) -> bool, s: seq<T>) {
    forall i, j | 0 <= i < j < |s| :: le(s[i], s[j])
  }

  function Insert<T>(le: (T, T) -> bool, x: T, s: seq<T>): seq<T> {
    if s == [] then [x] else if le(x, s[0]) then [x] + s else [s[0]] + Insert(le, x, s[1..])
  }

  function Sort<T>(le: (T, T) -> bool, s: seq<T>): seq<T> {
    if s == [] then [] else Insert(le, s[0], Sort(le, s[1..]))
  }

  lemma {:induction false} InsertBag<T>(le: (T, T) -> bool, x: T, s: seq<T>)
    ensures multiset(Insert(le, x, s)) == multiset(s) + multiset{x}
  {
    if s != [] && !le(x, s[0]) {
      InsertBag(le, x, s[1..]);
      assert s == [s[0]] + s[1..];
    }
  }

  lemma {:induction false} SortBag<T>(le: (T, T) -> bool, s: seq<T>)
    ensures multiset(Sort(le, s)) == multiset(s)
  {
    if s != [] {
      SortBag(le, s[1..]);
      InsertBag(le, s[0], Sort(le, s[1..]));
      assert s == [s[0]] + s[1..];
    }
  }

  lemma {:induction false} InsertAscends<T(!new)>(le: (T, T) -> bool, x: T, s: seq<T>)
    requires Total(le) && Ascending(le, s)
    ensures Ascending(le, Insert(le, x, s))
  {
    if s != [] && !le(x, s[0]) {
      InsertAscends(le, x, s[1..]);
      InsertBag(le, x, s[1..]);
      var rest := Insert(le, x, s[1..]);
      forall j | 0 <= j < |rest| ensures le(s[0], rest[j]) {
        assert rest[j] in multiset(rest);
        if rest[j] != x {
          assert rest[j] in s[1..];
        }
      }
    } else if s != [] {
      forall j | 0 <= j < |s| ensures le(x, s[j]) {
        if 0 < j { assert le(s[0], s[j]); }
      }
    }
  }

  lemma {:induction false} SortAscends<T(!new)>(le: (T, T) -> bool, s: seq<T>)
    requires Total(le)
    ensures Ascending(le, Sort(le, s))
  {
    if s != [] {
      SortAscends(le, s[1..]);
      InsertAscends(le, s[0], Sort(le, s[1..]));
    }
  }

  lemma {:induction false} SameLeast<T(!new)>(le: (T, T) -> bool, s: seq<T>, t: seq<T>)
    requires Total(le) && Tells(le, s) && Ascending(le, s) && Ascending(le, t) && multiset(s) == multiset(t)
    requires s != [] && t != []
    ensures s[0] == t[0]
  {
    assert s[0] in multiset(t) && t[0] in multiset(s);
    var i :| 0 <= i < |t| && t[i] == s[0];
    var j :| 0 <= j < |s| && s[j] == t[0];
    assert (0 < i ==> le(t[0], t[i])) && (0 < j ==> le(s[0], s[j]));
    assert le(s[0], s[j]) && le(s[j], s[0]) ==> s[0] == s[j];
  }

  lemma {:induction false} TailsKeep<T(!new)>(le: (T, T) -> bool, s: seq<T>)
    requires s != []
    ensures Tells(le, s) ==> Tells(le, s[1..])
    ensures Ascending(le, s) ==> Ascending(le, s[1..])
    ensures multiset(s[1..]) == multiset(s) - multiset{s[0]}
  {
    assert s == [s[0]] + s[1..];
    if Tells(le, s) {
      forall i, j | 0 <= i < |s[1..]| && 0 <= j < |s[1..]| && le(s[1..][i], s[1..][j]) && le(s[1..][j], s[1..][i])
        ensures s[1..][i] == s[1..][j]
      {
        assert le(s[i + 1], s[j + 1]) && le(s[j + 1], s[i + 1]);
      }
    }
  }

  /** There is one ascending arrangement of a bag. */
  lemma {:induction false} AscendingIsUnique<T(!new)>(le: (T, T) -> bool, s: seq<T>, t: seq<T>)
    requires Total(le) && Tells(le, s) && Ascending(le, s) && Ascending(le, t) && multiset(s) == multiset(t)
    ensures s == t
    decreases |s|
  {
    hide *;
    assert |t| == |multiset(t)| && |multiset(s)| == |s|;
    if s != [] {
      SameLeast(le, s, t);
      TailsKeep(le, s);
      TailsKeep(le, t);
      AscendingIsUnique(le, s[1..], t[1..]);
      assert s == [s[0]] + s[1..] && t == [t[0]] + t[1..];
    }
  }

  /** Telling apart does not depend on the arrangement. */
  lemma {:induction false} TellsPermuted<T>(le: (T, T) -> bool, s: seq<T>, t: seq<T>)
    requires Tells(le, s) && forall x | x in multiset(t) :: x in multiset(s)
    ensures Tells(le, t)
  {
    forall i, j | 0 <= i < |t| && 0 <= j < |t| && le(t[i], t[j]) && le(t[j], t[i]) ensures t[i] == t[j] {
      assert t[i] in multiset(t) && t[j] in multiset(t);
      var k :| 0 <= k < |s| && s[k] == t[i];
      var l :| 0 <= l < |s| && s[l] == t[j];
    }
  }

  /** A rearrangement sorts to the same thing. */
  lemma {:induction false} SortPermuted<T(!new)>(le: (T, T) -> bool, s: seq<T>, t: seq<T>)
    requires Total(le) && Tells(le, s) && multiset(s) == multiset(t)
    ensures Sort(le, s) == Sort(le, t)
  {
    SortBag(le, s);
    SortBag(le, t);
    TellsPermuted(le, s, Sort(le, s));
    SortAscends(le, s);
    SortAscends(le, t);
    AscendingIsUnique(le, Sort(le, s), Sort(le, t));
  }

  // ---- filters ------------------------------------------------------------

  function Filter<T>(keep: T -> bool, s: seq<T>): (kept: seq<T>)
    ensures forall x | x in kept :: x in s && keep(x)
  {
    if s == [] then []
    else if keep(s[0]) then [s[0]] + Filter(keep, s[1..])
    else Filter(keep, s[1..])
  }

  lemma {:induction false} FilterConcat<T>(keep: T -> bool, s: seq<T>, t: seq<T>)
    ensures Filter(keep, s + t) == Filter(keep, s) + Filter(keep, t)
  {
    if s == [] {
      assert s + t == t;
    } else {
      FilterConcat(keep, s[1..], t);
      assert (s + t)[1..] == s[1..] + t && (s + t)[0] == s[0];
    }
  }

  lemma {:induction false} FilterHas<T>(keep: T -> bool, s: seq<T>)
    ensures forall x | x in s && keep(x) :: x in Filter(keep, s)
  {
    if s != [] {
      FilterHas(keep, s[1..]);
      assert s == [s[0]] + s[1..];
    }
  }

  lemma {:induction false} FilterPermuted<T>(keep: T -> bool, s: seq<T>, t: seq<T>)
    requires multiset(s) == multiset(t)
    ensures multiset(Filter(keep, s)) == multiset(Filter(keep, t))
    decreases |s|
  {
    if s == [] {
      assert |t| == |multiset(t)| == 0;
    } else {
      var j := TakeHead(s, t);
      FilterPermuted(keep, s[1..], t[..j] + t[j + 1..]);
      assert t == t[..j] + ([t[j]] + t[j + 1..]);
      FilterConcat(keep, t[..j], [t[j]] + t[j + 1..]);
      FilterConcat(keep, [t[j]], t[j + 1..]);
      FilterConcat(keep, t[..j], t[j + 1..]);
      assert ([t[j]] + t[j + 1..])[1..] == t[j + 1..];
      assert Filter(keep, [t[j]]) == if keep(t[j]) then [t[j]] else [];
    }
  }

  lemma {:induction false} FilterTwo<T>(keep: T -> bool, s: seq<T>, i: nat, j: nat)
    requires i < j < |s| && keep(s[i]) && keep(s[j])
    ensures |Filter(keep, s)| > 1
  {
    assert s == s[..j] + s[j..] && s[..j] == s[..i] + s[i..j];
    FilterConcat(keep, s[..j], s[j..]);
    FilterConcat(keep, s[..i], s[i..j]);
    assert s[i..j][0] == s[i] && s[j..][0] == s[j];
  }

  lemma {:induction false} FilterOnce<T>(keep: T -> bool, s: seq<T>)
    requires forall i, j | 0 <= i < j < |s| :: !(keep(s[i]) && keep(s[j]))
    ensures |Filter(keep, s)| <= 1
  {
    if s != [] {
      assert forall i, j | 0 <= i < j < |s[1..]| :: s[1..][i] == s[i + 1] && s[1..][j] == s[j + 1];
      FilterOnce(keep, s[1..]);
      if keep(s[0]) {
        assert forall j | 0 <= j < |s[1..]| :: !keep(s[1..][j]) by {
          assert forall j | 0 <= j < |s[1..]| :: s[1..][j] == s[j + 1];
        }
        FilterNone(keep, s[1..]);
      }
    }
  }

  lemma {:induction false} FilterNone<T>(keep: T -> bool, s: seq<T>)
    requires forall i | 0 <= i < |s| :: !keep(s[i])
    ensures Filter(keep, s) == []
  {
    if s != [] { FilterNone(keep, s[1..]); }
  }

  lemma {:induction false} FilterSingle<T>(keep: T -> bool, x: T)
    ensures Filter(keep, [x]) == if keep(x) then [x] else []
  {
  }

  lemma {:induction false} FilterFilter<T(!new)>(wide: T -> bool, narrow: T -> bool, s: seq<T>)
    requires forall x | narrow(x) :: wide(x)
    ensures Filter(narrow, Filter(wide, s)) == Filter(narrow, s)
  {
    if s != [] { FilterFilter(wide, narrow, s[1..]); }
  }

  lemma {:induction false} FilterAll<T>(keep: T -> bool, s: seq<T>)
    requires forall i | 0 <= i < |s| :: keep(s[i])
    ensures Filter(keep, s) == s
  {
    if s != [] { FilterAll(keep, s[1..]); }
  }

  lemma {:induction false} FilterDistinct<T>(keep: T -> bool, s: seq<T>)
    requires Distinct(s)
    ensures Distinct(Filter(keep, s))
  {
    if s != [] {
      forall x | x in s[1..] ensures x != s[0] {
        var i :| 0 <= i < |s[1..]| && s[1..][i] == x;
        assert s[0] != s[i + 1];
      }
      assert Distinct(s[1..]);
      FilterDistinct(keep, s[1..]);
    }
  }

  lemma {:induction false} FilterAscends<T(!new)>(le: (T, T) -> bool, keep: T -> bool, s: seq<T>)
    requires Ascending(le, s)
    ensures Ascending(le, Filter(keep, s))
  {
    if s != [] {
      FilterAscends(le, keep, s[1..]);
      forall x | x in Filter(keep, s[1..]) ensures le(s[0], x) {
        var i :| 0 <= i < |s[1..]| && s[1..][i] == x;
        assert s[i + 1] == x;
      }
    }
  }

  /** Sorting and then leaving out is leaving out and then sorting. */
  lemma {:induction false} FilterSort<T(!new)>(le: (T, T) -> bool, keep: T -> bool, s: seq<T>)
    requires Total(le) && Tells(le, s)
    ensures Filter(keep, Sort(le, s)) == Sort(le, Filter(keep, s))
  {
    SortBag(le, s);
    forall x | x in multiset(Filter(keep, Sort(le, s))) ensures x in multiset(s) {
      assert x in Filter(keep, Sort(le, s)) && x in multiset(Sort(le, s));
    }
    TellsPermuted(le, s, Filter(keep, Sort(le, s)));
    FilterPermuted(keep, Sort(le, s), s);
    SortAscends(le, s);
    FilterAscends(le, keep, Sort(le, s));
    SortAscends(le, Filter(keep, s));
    SortBag(le, Filter(keep, s));
    AscendingIsUnique(le, Filter(keep, Sort(le, s)), Sort(le, Filter(keep, s)));
  }

  // ---- text ---------------------------------------------------------------

  /** Text order, as a dictionary has it. */
  predicate TextLe(a: string, b: string) {
    a == "" || (b != "" && (a[0] < b[0] || (a[0] == b[0] && TextLe(a[1..], b[1..]))))
  }

  lemma {:induction false} TextLeTotal(a: string, b: string)
    ensures TextLe(a, b) || TextLe(b, a)
    ensures TextLe(a, b) && TextLe(b, a) ==> a == b
  {
    if a != "" && b != "" && a[0] == b[0] {
      TextLeTotal(a[1..], b[1..]);
      assert a == [a[0]] + a[1..] && b == [b[0]] + b[1..];
    }
  }

  lemma {:induction false} TextLeTransitive(a: string, b: string, c: string)
    requires TextLe(a, b) && TextLe(b, c)
    ensures TextLe(a, c)
  {
    if a != "" && a[0] == b[0] == c[0] { TextLeTransitive(a[1..], b[1..], c[1..]); }
  }

  lemma {:induction false} TextIsTotal()
    ensures Total(TextLe)
  {
    forall a, b ensures TextLe(a, b) || TextLe(b, a) {
      TextLeTotal(a, b);
    }
    forall a, b, c | TextLe(a, b) && TextLe(b, c) ensures TextLe(a, c) {
      TextLeTransitive(a, b, c);
    }
  }

  lemma {:induction false} TextTells(s: seq<string>)
    ensures Tells(TextLe, s)
  {
    forall i, j | 0 <= i < |s| && 0 <= j < |s| && TextLe(s[i], s[j]) && TextLe(s[j], s[i]) ensures s[i] == s[j] {
      TextLeTotal(s[i], s[j]);
    }
  }
}
