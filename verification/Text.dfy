/** String operations the operator takes from Go's standard library: prefix tests, joining,
    splitting, and the byte-wise ordering that sort.Strings uses. */
module Text {

  datatype Option<+T> = None | Some(value: T)

  /** strings.HasPrefix */
  predicate HasPrefix(s: string, prefix: string) {
    prefix <= s
  }

  /** strings.Join with a one-character separator. */
  function Join(parts: seq<string>, sep: char): string {
    if |parts| == 0 then ""
    else if |parts| == 1 then parts[0]
    else parts[0] + [sep] + Join(parts[1..], sep)
  }

  /** strings.Split with a one-character separator: never empty, "" splits into [""]. */
  function Split(s: string, sep: char): (parts: seq<string>)
    ensures |parts| > 0
  {
    if |s| == 0 then [""]
    else
      var rest := Split(s[1..], sep);
      if s[0] == sep then [""] + rest else [[s[0]] + rest[0]] + rest[1..]
  }

  lemma {:induction false} SplitFirst(segment: string, sep: char, rest: string)
    requires sep !in segment
    ensures Split(segment, sep) == [segment]
    ensures Split(segment + [sep] + rest, sep) == [segment] + Split(rest, sep)
  {
    if |segment| == 0 {
      assert segment + [sep] + rest == [sep] + rest;
    } else {
      SplitFirst(segment[1..], sep, rest);
      assert (segment + [sep] + rest)[1..] == segment[1..] + [sep] + rest;
      assert [segment[0]] + segment[1..] == segment;
    }
  }

  /** Splitting undoes joining when no part contains the separator. */
  lemma {:induction false} SplitJoin(parts: seq<string>, sep: char)
    requires |parts| > 0
    requires forall i :: 0 <= i < |parts| ==> sep !in parts[i]
    ensures Split(Join(parts, sep), sep) == parts
  {
    if |parts| == 1 {
      SplitFirst(parts[0], sep, "");
    } else {
      SplitFirst(parts[0], sep, Join(parts[1..], sep));
      SplitJoin(parts[1..], sep);
    }
  }

  /** And joining undoes splitting, so each of the two fixes the other. */
  lemma {:induction false} JoinSplit(s: string, sep: char)
    ensures Join(Split(s, sep), sep) == s
  {
    if |s| != 0 {
      JoinSplit(s[1..], sep);
      var rest := Split(s[1..], sep);
      assert s == [s[0]] + s[1..];
      if s[0] == sep {
        assert ([""] + rest)[1..] == rest;
      } else if |rest| == 1 {
        assert rest == [rest[0]];
      } else {
        var parts := [[s[0]] + rest[0]] + rest[1..];
        assert parts[1..] == rest[1..];
        assert Join(parts, sep) == [s[0]] + (rest[0] + [sep] + Join(rest[1..], sep));
      }
    }
  }

  // ---------- ordering ----------

  /** Strict lexicographic order, as used by sort.Strings. */
  predicate Less(a: string, b: string) {
    |b| != 0 &&
    (|a| == 0 ||
     a[0] < b[0] ||
     (a[0] == b[0] && Less(a[1..], b[1..])))
  }

  /** A proper prefix comes first; otherwise the first character in which two strings differ
      decides. */
  lemma {:induction false} LessMeaning(common: string, a: string, b: string)
    ensures b != "" ==> Less(common, common + b)
    ensures !Less(common + a, common)
    ensures a != "" && b != "" && a[0] != b[0] ==> (Less(common + a, common + b) <==> a[0] < b[0])
  {
    if |common| == 0 {
      assert common + a == a && common + b == b;
    } else {
      LessMeaning(common[1..], a, b);
      assert (common + a)[1..] == common[1..] + a && (common + b)[1..] == common[1..] + b;
    }
  }

  lemma {:induction false} LessIrreflexive(a: string)
    ensures !Less(a, a)
  {
    if |a| != 0 {
      LessIrreflexive(a[1..]);
    }
  }

  lemma {:induction false} LessTransitive(a: string, b: string, c: string)
    requires Less(a, b) && Less(b, c)
    ensures Less(a, c)
  {
    if |a| != 0 && a[0] == b[0] == c[0] {
      LessTransitive(a[1..], b[1..], c[1..]);
    }
  }

  lemma {:induction false} LessTotal(a: string, b: string)
    ensures a == b || Less(a, b) || Less(b, a)
  {
    if |a| != 0 && |b| != 0 && a[0] == b[0] {
      LessTotal(a[1..], b[1..]);
      assert a == [a[0]] + a[1..] && b == [b[0]] + b[1..];
    }
  }

  /** Every element is strictly below every later one. */
  ghost predicate StrictlyIncreasing(s: seq<string>) {
    forall i, j :: 0 <= i < j < |s| ==> Less(s[i], s[j])
  }

  ghost predicate Distinct<T>(s: seq<T>) {
    forall i, j :: 0 <= i < j < |s| ==> s[i] != s[j]
  }

  ghost function Elements<T>(s: seq<T>): set<T> {
    set x | x in s
  }

  /** Sorted order of a list without repetitions. */
  function Insert(x: string, s: seq<string>): seq<string> {
    if |s| == 0 then [x]
    else if Less(x, s[0]) then [x] + s
    else [s[0]] + Insert(x, s[1..])
  }

  /** sort.Strings, as a function of the list. */
  function SortStrings(s: seq<string>): seq<string> {
    if |s| == 0 then [] else Insert(s[0], SortStrings(s[1..]))
  }

  /** r lists exactly the elements of s in increasing order. */
  ghost predicate IsSortedListing(r: seq<string>, s: set<string>) {
    StrictlyIncreasing(r) && Elements(r) == s
  }

  lemma {:induction false} InsertListing(x: string, s: seq<string>)
    requires StrictlyIncreasing(s) && x !in s
    ensures IsSortedListing(Insert(x, s), Elements(s) + {x})
  {
    if |s| != 0 {
      assert s == [s[0]] + s[1..];
      if Less(x, s[0]) {
        var r := [x] + s;
        forall j | 0 < j < |r| ensures Less(x, r[j]) {
          if j > 1 { LessTransitive(x, s[0], r[j]); }
        }
      } else {
        LessTotal(x, s[0]);
        InsertListing(x, s[1..]);
        var tail := Insert(x, s[1..]);
        forall j | 0 <= j < |tail| ensures Less(s[0], tail[j]) {
          assert tail[j] in Elements(tail);
          if tail[j] != x {
            assert tail[j] in s[1..];
          }
        }
        assert Elements([s[0]] + tail) == {s[0]} + Elements(tail);
      }
    }
  }

  /** Sorting a repetition-free list gives the sorted listing of its elements. */
  lemma {:induction false} SortListing(s: seq<string>)
    requires Distinct(s)
    ensures IsSortedListing(SortStrings(s), Elements(s))
  {
    if |s| != 0 {
      SortListing(s[1..]);
      var tail := SortStrings(s[1..]);
      assert s[0] !in Elements(tail);
      InsertListing(s[0], tail);
      assert Elements(s) == Elements(s[1..]) + {s[0]};
    }
  }

  lemma NoElements<T>(s: seq<T>)
    ensures Elements(s) == {} <==> |s| == 0
  {
    assert |s| > 0 ==> s[0] in Elements(s);
  }

  /** A set has only one sorted listing: sorting makes the enumeration order irrelevant. */
  lemma {:induction false} SortedListingUnique(a: seq<string>, b: seq<string>, s: set<string>)
    requires IsSortedListing(a, s) && IsSortedListing(b, s)
    ensures a == b
  {
    NoElements(a);
    NoElements(b);
    if |a| != 0 {
      assert a[0] in Elements(a);
      assert a[0] in b;
      assert b[0] in Elements(b);
      assert b[0] in a;
      var i :| 0 <= i < |a| && a[i] == b[0];
      var j :| 0 <= j < |b| && b[j] == a[0];
      if i > 0 && j > 0 {
        LessTransitive(a[0], b[0], a[0]);
        LessIrreflexive(a[0]);
        assert false;
      }
      assert a[0] == b[0];
      TailListing(a, s);
      TailListing(b, s);
      SortedListingUnique(a[1..], b[1..], s - {a[0]});
    }
  }

  lemma TailListing(a: seq<string>, s: set<string>)
    requires |a| > 0 && IsSortedListing(a, s)
    ensures IsSortedListing(a[1..], s - {a[0]})
  {
    LessIrreflexive(a[0]);
    forall x | x in s - {a[0]} ensures x in a[1..] {
      var i :| 0 <= i < |a| && a[i] == x;
      assert a[1..][i - 1] == x;
    }
    forall x | x in a[1..] ensures x in s && x != a[0] {
      var i :| 0 <= i < |a[1..]| && a[1..][i] == x;
      assert a[i + 1] == x && Less(a[0], x);
      assert x in Elements(a);
    }
  }

  /** The sorted listing of a set. */
  ghost function SortedListing(s: set<string>): (r: seq<string>)
    ensures IsSortedListing(r, s)
    decreases |s|
  {
    if s == {} then [] else
      var x :| x in s;
      var tail := SortedListing(s - {x});
      assert x !in Elements(tail);
      InsertListing(x, tail);
      assert Elements(tail) + {x} == s;
      Insert(x, tail)
  }

  lemma SortedListingOfList(s: seq<string>, elements: set<string>)
    requires Distinct(s) && Elements(s) == elements
    ensures SortStrings(s) == SortedListing(elements)
  {
    SortListing(s);
    SortedListingUnique(SortStrings(s), SortedListing(elements), elements);
  }

  /** Appending a new element keeps a list repetition-free and adds it to the elements. */
  lemma AppendDistinct<T>(s: seq<T>, x: T)
    requires Distinct(s) && x !in s
    ensures Distinct(s + [x]) && Elements(s + [x]) == Elements(s) + {x}
  {
    assert forall y :: y in s + [x] <==> y in s || y == x;
  }

  lemma ListingElements(listing: seq<string>, s: set<string>)
    requires Elements(listing) == s
    ensures forall i :: 0 <= i < |listing| ==> listing[i] in s
  {
    forall i | 0 <= i < |listing| ensures listing[i] in s {
      assert listing[i] in Elements(listing);
    }
  }

  /** Appending the keys of a map to a slice, in whatever order they come. */
  method Enumerate(keys: set<string>) returns (listing: seq<string>)
    ensures Distinct(listing) && Elements(listing) == keys
  {
    listing := [];
    var remaining := keys;
    while remaining != {}
      invariant remaining <= keys
      invariant Distinct(listing) && Elements(listing) == keys - remaining
      decreases |remaining|
    {
      var key :| key in remaining;
      assert key !in Elements(listing);
      AppendDistinct(listing, key);
      listing := listing + [key];
      assert keys - (remaining - {key}) == (keys - remaining) + {key};
      remaining := remaining - {key};
    }
  }

  lemma StrictSubsetSmaller<T>(a: set<T>, b: set<T>, x: T)
    requires a <= b && x in b && x !in a
    ensures |a| < |b|
  {
    assert a <= b - {x};
    assert b == a + (b - a) && b - a >= {x};
    assert |b - a| >= |{x}| by {
      assert b - a == {x} + (b - a - {x});
    }
  }
}
