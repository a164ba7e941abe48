/** The order of Go strings, and what sorting a slice of distinct strings gives: one sequence per set. */
module Sorting {

  predicate Less(a: string, b: string) {
    b != "" && (a == "" || a[0] < b[0] || (a[0] == b[0] && Less(a[1..], b[1..])))
  }

  /** The strings agree up to `i`, where the second one goes on, with a greater character unless the first one ends. */
  predicate FirstDifference(a: string, b: string, i: nat) {
    i <= |a| && i < |b| && a[..i] == b[..i] && (i < |a| ==> a[i] < b[i])
  }

  /** One string is less than another if and only if it is a proper prefix, or is less where they first differ. */
  lemma {:induction false} LessIff(a: string, b: string)
    ensures Less(a, b) <==> exists i: nat :: FirstDifference(a, b, i)
  {
    if a == "" || b == "" || a[0] != b[0] {
      assert Less(a, b) ==> FirstDifference(a, b, 0);
      assert forall i: nat | 0 < i && i <= |a| && i < |b| :: a[..i][0] == a[0] && b[..i][0] == b[0];
    } else {
      LessIff(a[1..], b[1..]);
      assert a == [a[0]] + a[1..] && b == [b[0]] + b[1..];
      if i: nat :| FirstDifference(a[1..], b[1..], i) {
        assert a[..i + 1] == [a[0]] + a[1..][..i] && b[..i + 1] == [b[0]] + b[1..][..i];
        assert FirstDifference(a, b, i + 1);
      }
      if i: nat :| FirstDifference(a, b, i) {
        assert a[1..][..i - 1] == a[..i][1..] && b[1..][..i - 1] == b[..i][1..];
        assert FirstDifference(a[1..], b[1..], i - 1);
      }
    }
  }

  lemma {:induction false} LessTotal(a: string, b: string)
    ensures a != b ==> Less(a, b) || Less(b, a)
    ensures !(Less(a, b) && Less(b, a))
    ensures !Less(a, a)
  {
    if a != "" {
      LessTotal(a[1..], a[1..]);
      if b != "" {
        LessTotal(a[1..], b[1..]);
        assert a == [a[0]] + a[1..] && b == [b[0]] + b[1..];
      }
    }
  }

  lemma {:induction false} LessTransitive(a: string, b: string, c: string)
    requires Less(a, b) && Less(b, c)
    ensures Less(a, c)
  {
    if a != "" && a[0] == b[0] && b[0] == c[0] {
      LessTransitive(a[1..], b[1..], c[1..]);
    }
  }

  predicate Ascending(s: seq<string>) {
    forall i, j :: 0 <= i < j < |s| ==> Less(s[i], s[j])
  }

  function Elements(s: seq<string>): set<string> {
    set x | x in s
  }

  lemma ElementsCons(x: string, s: seq<string>)
    ensures Elements([x] + s) == {x} + Elements(s)
  {
  }

  function Insert(x: string, s: seq<string>): (r: seq<string>)
    ensures Elements(r) == Elements(s) + {x}
  {
    if s == [] then [x]
    else if Less(x, s[0]) then ElementsCons(x, s); [x] + s
    else
      ElementsCons(s[0], s[1..]);
      ElementsCons(s[0], Insert(x, s[1..]));
      assert s == [s[0]] + s[1..];
      [s[0]] + Insert(x, s[1..])
  }

  lemma {:induction false} InsertAscending(x: string, s: seq<string>)
    requires Ascending(s) && x !in s
    ensures Ascending(Insert(x, s))
  {
    if s != [] {
      var head, tail := s[0], s[1..];
      LessTotal(x, head);
      if Less(x, head) {
        forall i | 0 <= i < |s| ensures Less(x, s[i]) {
          if i > 0 { LessTransitive(x, head, s[i]); }
        }
      } else {
        InsertAscending(x, tail);
        forall y | y in Insert(x, tail) ensures Less(head, y) {
          assert y in Elements(Insert(x, tail));
        }
      }
    }
  }

  /** slices.Sort. */
  function Sort(s: seq<string>): (r: seq<string>)
    ensures Elements(r) == Elements(s)
  {
    if s == [] then []
    else
      ElementsCons(s[0], s[1..]);
      assert s == [s[0]] + s[1..];
      Insert(s[0], Sort(s[1..]))
  }

  lemma {:induction false} SortAscending(s: seq<string>)
    requires forall i, j :: 0 <= i < j < |s| ==> s[i] != s[j]
    ensures Ascending(Sort(s))
  {
    if s != [] {
      SortAscending(s[1..]);
      assert s[0] !in Elements(s[1..]);
      assert s[0] !in Elements(Sort(s[1..]));
      InsertAscending(s[0], Sort(s[1..]));
    }
  }

  /** A set of strings has one ascending listing, so no iteration order shows in a sorted slice. */
  lemma {:induction false} AscendingUnique(s: seq<string>, t: seq<string>)
    requires Ascending(s) && Ascending(t) && Elements(s) == Elements(t)
    ensures s == t
  {
    if s != [] || t != [] {
      assert s != [] ==> s[0] in Elements(s);
      assert t != [] ==> t[0] in Elements(t);
      FirstIsLeast(s, t[0]);
      FirstIsLeast(t, s[0]);
      LessTotal(s[0], t[0]);
      AscendingTail(s);
      AscendingTail(t);
      AscendingUnique(s[1..], t[1..]);
      assert s == [s[0]] + s[1..] && t == [t[0]] + t[1..];
    }
  }

  lemma FirstIsLeast(s: seq<string>, x: string)
    requires Ascending(s) && s != [] && x in Elements(s)
    ensures x == s[0] || Less(s[0], x)
  {
  }

  lemma AscendingTail(s: seq<string>)
    requires Ascending(s) && s != []
    ensures Ascending(s[1..])
    ensures Elements(s[1..]) == Elements(s) - {s[0]}
  {
    forall x | x in s[1..] ensures x != s[0] {
      var i :| 0 <= i < |s[1..]| && s[1..][i] == x;
      assert Less(s[0], s[i + 1]);
      LessTotal(s[0], s[0]);
    }
    assert s == [s[0]] + s[1..];
  }

  /** The ascending listing of a set. */
  ghost function Listing(s: set<string>): (r: seq<string>)
    ensures Elements(r) == s
  {
    if s == {} then [] else var x :| x in s; Insert(x, Listing(s - {x}))
  }

  lemma {:induction false} ListingAscending(s: set<string>)
    ensures Ascending(Listing(s))
  {
    if s != {} {
      var x :| x in s && Listing(s) == Insert(x, Listing(s - {x}));
      ListingAscending(s - {x});
      assert x !in Elements(Listing(s - {x}));
      InsertAscending(x, Listing(s - {x}));
    }
  }
}
