/** The order of sort.Strings, and what a strictly sorted list of names is determined by. */
module Lexical {
  import opened Basics

  predicate Less(a: string, b: string) {
    if b == [] then false
    else if a == [] then true
    else if a[0] != b[0] then a[0] < b[0]
    else Less(a[1..], b[1..])
  }

  lemma {:induction false} LessTrans(a: string, b: string, c: string)
    requires Less(a, b) && Less(b, c)
    ensures Less(a, c)
  {
    if a != [] && a[0] == b[0] == c[0] {
      LessTrans(a[1..], b[1..], c[1..]);
    }
  }

  lemma {:induction false} LessTotal(a: string, b: string)
    ensures a == b || Less(a, b) || Less(b, a)
    ensures !(Less(a, b) && Less(b, a)) && !Less(a, a)
  {
    if a != [] {
      LessTotal(a[1..], a[1..]);
    }
    if a != [] && b != [] && a[0] == b[0] {
      LessTotal(a[1..], b[1..]);
      assert a == [a[0]] + a[1..] && b == [b[0]] + b[1..];
    }
  }

  /** Strictly sorted, hence without repetition. */
  ghost predicate Sorted(s: seq<string>) {
    forall i, j :: 0 <= i < j < |s| ==> Less(s[i], s[j])
  }

  function Insert(x: string, s: seq<string>): (r: seq<string>) {
    if s == [] then [x] else if Less(s[0], x) then [s[0]] + Insert(x, s[1..]) else [x] + s
  }

  /** sort.Strings. */
  function SortStrings(s: seq<string>): (r: seq<string>) {
    if s == [] then [] else Insert(s[0], SortStrings(s[1..]))
  }

  lemma {:induction false} InsertElements(x: string, s: seq<string>)
    ensures multiset(Insert(x, s)) == multiset(s) + multiset{x}
  {
    if s == [] {
    } else if Less(s[0], x) {
      InsertElements(x, s[1..]);
      assert s == [s[0]] + s[1..];
    }
  }

  lemma {:induction false} InsertSorted(x: string, s: seq<string>)
    requires Sorted(s) && x !in s
    ensures Sorted(Insert(x, s))
  {
    if s == [] {
    } else if Less(s[0], x) {
      InsertSorted(x, s[1..]);
      InsertElements(x, s[1..]);
      var t := Insert(x, s[1..]);
      forall j | 0 <= j < |t| ensures Less(s[0], t[j]) {
        assert t[j] in multiset(t);
      }
    } else {
      LessTotal(s[0], x);
      forall j | 0 <= j < |s| ensures Less(x, s[j]) {
        if j > 0 { LessTrans(x, s[0], s[j]); }
      }
    }
  }

  lemma {:induction false} SortStringsSorts(s: seq<string>)
    requires NoRepeats(s)
    ensures Sorted(SortStrings(s)) && multiset(SortStrings(s)) == multiset(s)
  {
    if s != [] {
      SortStringsSorts(s[1..]);
      assert s[0] !in s[1..];
      assert s[0] !in multiset(SortStrings(s[1..]));
      InsertSorted(s[0], SortStrings(s[1..]));
      InsertElements(s[0], SortStrings(s[1..]));
      assert s == [s[0]] + s[1..];
    }
  }

  /**
    A strictly sorted list is determined by its elements, and one whose new elements all come
    after the old ones extends the old list at its end.
  */
  lemma {:induction false} SortedExtends(a: seq<string>, b: seq<string>)
    requires Sorted(a) && Sorted(b)
    requires forall x :: x in a ==> x in b
    requires forall x, y :: x in b && x !in a && y in a ==> Less(y, x)
    ensures a <= b
  {
    if a != [] {
      assert a[0] in b;
      var k :| 0 <= k < |b| && b[k] == a[0];
      LessTotal(a[0], b[0]);
      assert k == 0;
      var a1, b1 := a[1..], b[1..];
      forall x | x in a1 ensures x in b1 {
        var j :| 0 <= j < |a1| && a1[j] == x;
        LessTotal(x, x);
        assert x != b[0] && x in a;
      }
      forall x, y | x in b1 && x !in a1 && y in a1 ensures Less(y, x) {
        var j :| 0 <= j < |b1| && b1[j] == x;
        LessTotal(x, x);
        assert b[j + 1] == x && x != a[0];
        assert x !in a;
        assert y in a;
      }
      SortedExtends(a1, b1);
      assert a == [a[0]] + a1 && b == [b[0]] + b1;
    }
  }
}
