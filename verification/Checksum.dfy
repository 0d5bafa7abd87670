/** GenerateConfigMapChecksum: the files of a configuration are fed to a hash in the order of
    their sorted names, each name followed by its content. */
module Checksum {
  import opened Text
  import opened Kube

  ghost function PreimageFor(files: Files, listing: seq<string>): string
    requires forall i :: 0 <= i < |listing| ==> listing[i] in files
  {
    if |listing| == 0 then ""
    else listing[0] + files[listing[0]] + PreimageFor(files, listing[1..])
  }

  /** What is hashed. It depends on the map alone, not on the order of its enumeration. */
  ghost function Preimage(files: Files): string {
    ListingElements(SortedListing(files.Keys), files.Keys);
    PreimageFor(files, SortedListing(files.Keys))
  }

  lemma {:induction false} PreimageAppend(files: Files, listing: seq<string>, key: string)
    requires forall i :: 0 <= i < |listing| ==> listing[i] in files
    requires key in files
    ensures PreimageFor(files, listing + [key]) == PreimageFor(files, listing) + key + files[key]
  {
    if |listing| == 0 {
      assert ([] + [key])[1..] == [];
      assert PreimageFor(files, [key]) == key + files[key] + PreimageFor(files, []);
      assert listing + [key] == [key];
    } else {
      assert (listing + [key])[1..] == listing[1..] + [key];
      PreimageAppend(files, listing[1..], key);
      assert listing[0] + files[listing[0]] + (PreimageFor(files, listing[1..]) + key + files[key])
          == listing[0] + files[listing[0]] + PreimageFor(files, listing[1..]) + key + files[key];
    }
  }

  lemma PreimageStep(files: Files, keys: seq<string>, i: nat)
    requires i < |keys| && forall k :: 0 <= k < |keys| ==> keys[k] in files
    ensures PreimageFor(files, keys[..i + 1]) == PreimageFor(files, keys[..i]) + keys[i] + files[keys[i]]
  {
    PreimageAppend(files, keys[..i], keys[i]);
    assert keys[..i + 1] == keys[..i] + [keys[i]];
  }

  /** The hash function is a parameter: SHA-256 followed by hexadecimal encoding. The keys come
      in an arbitrary order. */
  method GenerateConfigMapChecksum(sha256: string -> string, configData: Files) returns (checksum: string)
    ensures checksum == sha256(Preimage(configData))
  {
    var keys := Enumerate(configData.Keys);
    SortedListingOfList(keys, configData.Keys);
    keys := SortStrings(keys);
    ListingElements(keys, configData.Keys);
    var written := "";
    var i := 0;
    while i < |keys|
      invariant 0 <= i <= |keys|
      invariant written == PreimageFor(configData, keys[..i])
    {
      PreimageStep(configData, keys, i);
      written := written + keys[i];
      written := written + configData[keys[i]];
      i := i + 1;
    }
    assert keys[..|keys|] == keys;
    checksum := sha256(written);
  }

  // ---------- what the preimage tells apart ----------

  /** The two maps have the same names, and contents of equal length except perhaps for one. */
  ghost predicate SameShapeBut(a: Files, b: Files, key: string) {
    a.Keys == b.Keys && forall k :: k in a && k != key ==> |a[k]| == |b[k]|
  }

  lemma {:induction false} PreimageLength(a: Files, b: Files, key: string, listing: seq<string>)
    requires SameShapeBut(a, b, key) && key in a
    requires StrictlyIncreasing(listing)
    requires forall i :: 0 <= i < |listing| ==> listing[i] in a
    ensures key !in listing ==> |PreimageFor(a, listing)| == |PreimageFor(b, listing)|
    ensures key in listing ==>
              |PreimageFor(a, listing)| - |a[key]| == |PreimageFor(b, listing)| - |b[key]|
  {
    if |listing| != 0 {
      LessIrreflexive(listing[0]);
      assert listing[0] !in listing[1..];
      assert listing == [listing[0]] + listing[1..];
      PreimageLength(a, b, key, listing[1..]);
    }
  }

  /** Concatenation of two blocks of equal length can be undone. */
  lemma SplitEqual(x: string, y: string, u: string, v: string)
    requires |x| == |u| && x + y == u + v
    ensures x == u && y == v
  {
    assert (x + y)[..|x|] == x && (u + v)[..|x|] == u;
    assert (x + y)[|x|..] == y && (u + v)[|x|..] == v;
  }

  lemma {:induction false} PreimageCancel(a: Files, b: Files, listing: seq<string>)
    requires a.Keys == b.Keys
    requires forall i :: 0 <= i < |listing| ==> listing[i] in a && |a[listing[i]]| == |b[listing[i]]|
    requires PreimageFor(a, listing) == PreimageFor(b, listing)
    ensures forall i :: 0 <= i < |listing| ==> a[listing[i]] == b[listing[i]]
  {
    if |listing| != 0 {
      var k := listing[0];
      SplitEqual(k + a[k], PreimageFor(a, listing[1..]), k + b[k], PreimageFor(b, listing[1..]));
      SplitEqual(k, a[k], k, b[k]);
      PreimageCancel(a, b, listing[1..]);
      assert listing == [k] + listing[1..];
    }
  }

  /** For maps with the same file names and with contents of the same length in all files but
      at most one, the preimages are equal only when the maps are. Two maps that differ in
      exactly one file are such a pair. */
  lemma PreimageDistinguishes(a: Files, b: Files, key: string)
    requires key in a && SameShapeBut(a, b, key)
    ensures Preimage(a) == Preimage(b) <==> a == b
  {
    var listing := SortedListing(a.Keys);
    ListingElements(listing, a.Keys);
    if Preimage(a) == Preimage(b) {
      PreimageLength(a, b, key, listing);
      assert key in Elements(listing);
      assert |a[key]| == |b[key]|;
      PreimageCancel(a, b, listing);
      SameContents(a, b, listing);
    }
  }

  /** A change to the content of one file always changes the preimage. */
  lemma OneFileChangeShows(a: Files, key: string, content: string)
    requires key in a && a[key] != content
    ensures Preimage(a) != Preimage(a[key := content])
  {
    PreimageDistinguishes(a, a[key := content], key);
    assert a[key := content][key] != a[key];
  }

  // ---------- exactly when a map can collide ----------

  predicate OccursAt(text: string, word: string, offset: int) {
    0 <= offset <= |text| - |word| && text[offset..offset + |word|] == word
  }

  /** Between the contents of its neighbours, the name occurs nowhere but in its own place. */
  predicate StandsBetween(before: string, name: string, after: string) {
    forall offset :: 0 <= offset <= |before + name + after| && OccursAt(before + name + after, name, offset) ==>
      offset == |before|
  }

  /** This holds of each name after the first. It can be checked on the files, one pair of
      neighbours at a time. */
  predicate NamesStand(files: Files, listing: seq<string>)
    requires forall i :: 0 <= i < |listing| ==> listing[i] in files
  {
    forall i :: 1 <= i < |listing| ==> StandsBetween(files[listing[i - 1]], listing[i], files[listing[i]])
  }

  ghost predicate Listed(a: Files, listing: seq<string>) {
    forall i :: 0 <= i < |listing| ==> listing[i] in a
  }

  /** The text of a listing: its first name, that file's content, and the text of the rest. */
  lemma PreimageUnfold(a: Files, listing: seq<string>)
    requires Listed(a, listing) && |listing| != 0
    ensures PreimageFor(a, listing) == listing[0] + (a[listing[0]] + PreimageFor(a, listing[1..]))
  {
    assert listing[0] + a[listing[0]] + PreimageFor(a, listing[1..])
        == listing[0] + (a[listing[0]] + PreimageFor(a, listing[1..]));
  }

  /** The name is found d further on in name + content + rest, and it ends within the content:
      so it does not stand. */
  lemma FoundLater(before: string, name: string, content: string, rest: string, x: string, y: string)
    requires x + (name + y) == name + (content + rest)
    requires 0 < |x| <= |content|
    ensures !StandsBetween(before, name, content)
  {
    var text := before + name + content;
    var whole := name + (content + rest);
    var offset := |before| + |x|;
    assert whole[..|name + content|] == name + content;
    assert (x + (name + y))[|x|..|x| + |name|] == name;
    assert text[offset..offset + |name|] == (name + content)[|x|..|x| + |name|];
    assert OccursAt(text, name, offset);
  }

  /** The name is found in content + name + after, earlier than in its place. */
  lemma FoundEarlier(content: string, name: string, after: string, rest: string, x: string, y: string)
    requires x + (name + y) == content + (name + (after + rest))
    requires |x| < |content|
    ensures !StandsBetween(content, name, after)
  {
    var text := content + name + after;
    var whole := content + (name + (after + rest));
    assert whole[..|text|] == text;
    assert (x + (name + y))[|x|..|x| + |name|] == name;
    assert text[|x|..|x| + |name|] == name;
    assert OccursAt(text, name, |x|);
  }

  lemma StandTail(a: Files, first: string, listing: seq<string>)
    requires first in a && Listed(a, listing) && |listing| != 0
    requires Listed(a, [first] + listing) && NamesStand(a, [first] + listing)
    ensures StandsBetween(a[first], listing[0], a[listing[0]]) && NamesStand(a, listing)
  {
    var all := [first] + listing;
    assert all[0] == first && all[1] == listing[0];
    assert StandsBetween(a[all[0]], all[1], a[all[1]]);
    forall i | 1 <= i < |listing| ensures StandsBetween(a[listing[i - 1]], listing[i], a[listing[i]]) {
      assert all[i] == listing[i - 1] && all[i + 1] == listing[i];
    }
  }

  lemma DropMore(x: string, u: string, p: string, v: string)
    requires x + u == p + v && |p| <= |x|
    ensures x[|p|..] + u == v
  {
    assert (x + u)[|p|..] == x[|p|..] + u;
    assert (p + v)[|p|..] == v;
  }

  /** If b's names begin later in the text than a's, one of a's names does not stand: the last
      one that is still late. */
  lemma {:induction false} LateFails(a: Files, b: Files, first: string, listing: seq<string>, x: string)
    requires a.Keys == b.Keys && first in a && Listed(a, listing) && Listed(a, [first] + listing) && |x| > 0
    requires x + PreimageFor(b, listing) == PreimageFor(a, listing)
    ensures |listing| != 0 && !NamesStand(a, [first] + listing)
    decreases |listing|
  {
    if |listing| != 0 && NamesStand(a, [first] + listing) {
      StandTail(a, first, listing);
      var name, rest := listing[0], listing[1..];
      assert listing == [name] + rest;
      PreimageUnfold(a, listing);
      PreimageUnfold(b, listing);
      if |x| <= |a[name]| {
        FoundLater(a[first], name, a[name], PreimageFor(a, rest), x, b[name] + PreimageFor(b, rest));
      } else {
        var late := x + name + b[name];
        assert late + PreimageFor(b, rest) == x + (name + (b[name] + PreimageFor(b, rest)));
        assert (name + a[name]) + PreimageFor(a, rest) == name + (a[name] + PreimageFor(a, rest));
        DropMore(late, PreimageFor(b, rest), name + a[name], PreimageFor(a, rest));
        LateFails(a, b, name, rest, late[|name + a[name]|..]);
      }
    }
  }

  /** When every name stands, the text can be read in one way only. */
  lemma {:induction false} OneReading(a: Files, b: Files, listing: seq<string>)
    requires a.Keys == b.Keys && Listed(a, listing) && NamesStand(a, listing)
    requires PreimageFor(a, listing) == PreimageFor(b, listing)
    ensures forall i :: 0 <= i < |listing| ==> a[listing[i]] == b[listing[i]]
    decreases |listing|
  {
    if |listing| != 0 {
      var name, rest := listing[0], listing[1..];
      assert listing == [name] + rest;
      PreimageUnfold(a, listing);
      PreimageUnfold(b, listing);
      SplitEqual(name, a[name] + PreimageFor(a, rest), name, b[name] + PreimageFor(b, rest));
      SameFirstContent(a, b, name, rest);
      SplitEqual(a[name], PreimageFor(a, rest), b[name], PreimageFor(b, rest));
      if |rest| != 0 {
        StandTail(a, name, rest);
      }
      OneReading(a, b, rest);
    }
  }

  lemma SameFirstContent(a: Files, b: Files, name: string, rest: seq<string>)
    requires a.Keys == b.Keys && Listed(a, [name] + rest) && Listed(a, rest) && name in a
    requires NamesStand(a, [name] + rest)
    requires a[name] + PreimageFor(a, rest) == b[name] + PreimageFor(b, rest)
    ensures |a[name]| == |b[name]|
  {
    if |a[name]| < |b[name]| {
      DropMore(b[name], PreimageFor(b, rest), a[name], PreimageFor(a, rest));
      LateFails(a, b, name, rest, b[name][|a[name]|..]);
    } else if |b[name]| < |a[name]| && |rest| != 0 {
      PreimageUnfold(a, rest);
      PreimageUnfold(b, rest);
      StandTail(a, name, rest);
      FoundEarlier(a[name], rest[0], a[rest[0]], PreimageFor(a, rest[1..]), b[name],
                   b[rest[0]] + PreimageFor(b, rest[1..]));
    }
  }

  /** The text of a listing with two neighbouring files singled out. */
  lemma {:induction false} PreimageAround(a: Files, listing: seq<string>, i: nat)
    requires Listed(a, listing) && i + 1 < |listing|
    ensures PreimageFor(a, listing) == PreimageFor(a, listing[..i]) + listing[i]
              + (a[listing[i]] + listing[i + 1] + a[listing[i + 1]]) + PreimageFor(a, listing[i + 2..])
  {
    PreimageStep(a, listing, i);
    PreimageStep(a, listing, i + 1);
    PreimageJoin(a, listing, i + 2);
    var p, m, n := PreimageFor(a, listing[..i]), listing[i], listing[i + 1];
    assert p + m + a[m] + n + a[n] == p + m + (a[m] + n + a[n]);
  }

  lemma {:induction false} PreimageJoin(a: Files, listing: seq<string>, k: nat)
    requires Listed(a, listing) && k <= |listing|
    ensures PreimageFor(a, listing) == PreimageFor(a, listing[..k]) + PreimageFor(a, listing[k..])
    decreases |listing| - k
  {
    if k == |listing| {
      assert listing[..k] == listing && listing[k..] == [];
    } else {
      PreimageJoin(a, listing, k + 1);
      PreimageStep(a, listing, k);
      PreimageUnfold(a, listing[k..]);
      assert listing[k..][1..] == listing[k + 1..];
      var p, m, r := PreimageFor(a, listing[..k]), listing[k], PreimageFor(a, listing[k + 1..]);
      assert p + m + a[m] + r == p + (m + (a[m] + r));
    }
  }

  lemma {:induction false} PreimageLocal(a: Files, b: Files, listing: seq<string>)
    requires a.Keys == b.Keys && Listed(a, listing)
    requires forall i :: 0 <= i < |listing| ==> a[listing[i]] == b[listing[i]]
    ensures PreimageFor(a, listing) == PreimageFor(b, listing)
  {
    if |listing| != 0 {
      PreimageLocal(a, b, listing[1..]);
    }
  }

  /** Where a name occurs out of its place, moving that one boundary gives another map with the
      same text. */
  lemma MovedBoundary(a: Files, listing: seq<string>, i: nat, offset: nat) returns (b: Files)
    requires IsSortedListing(listing, a.Keys) && Listed(a, listing) && i + 1 < |listing|
    requires OccursAt(a[listing[i]] + listing[i + 1] + a[listing[i + 1]], listing[i + 1], offset)
    requires offset != |a[listing[i]]|
    ensures b.Keys == a.Keys && b != a && PreimageFor(b, listing) == PreimageFor(a, listing)
  {
    var m, n := listing[i], listing[i + 1];
    var text := a[m] + n + a[n];
    NamesDiffer(listing);
    b := a[m := text[..offset]][n := text[offset + |n|..]];
    assert b.Keys == a.Keys;
    assert |b[m]| == offset;
    assert b[m] + n + b[n] == text by {
      assert text == text[..offset] + text[offset..offset + |n|] + text[offset + |n|..];
    }
    PreimageAround(a, listing, i);
    PreimageAround(b, listing, i);
    PreimageLocal(a, b, listing[..i]);
    PreimageLocal(a, b, listing[i + 2..]);
  }

  lemma NamesDiffer(listing: seq<string>)
    requires StrictlyIncreasing(listing)
    ensures Distinct(listing)
  {
    forall i, j | 0 <= i < j < |listing| ensures listing[i] != listing[j] {
      LessIrreflexive(listing[i]);
    }
  }

  /** No other map with the same file names has this preimage. */
  ghost predicate PreimageIsUnique(a: Files) {
    forall b: Files :: b.Keys == a.Keys && Preimage(b) == Preimage(a) ==> b == a
  }

  lemma StandingIsUnique(a: Files, b: Files)
    requires b.Keys == a.Keys && Preimage(b) == Preimage(a)
    requires Listed(a, SortedListing(a.Keys)) && NamesStand(a, SortedListing(a.Keys))
    ensures b == a
  {
    var listing := SortedListing(a.Keys);
    OneReading(a, b, listing);
    SameContents(a, b, listing);
  }

  lemma FoundOutOfPlace(before: string, name: string, after: string) returns (offset: nat)
    requires !StandsBetween(before, name, after)
    ensures OccursAt(before + name + after, name, offset) && offset != |before|
  {
    var text := before + name + after;
    offset :| 0 <= offset <= |text| && OccursAt(text, name, offset) && offset != |before|;
  }

  lemma ElseAnotherMap(a: Files, listing: seq<string>) returns (b: Files)
    requires IsSortedListing(listing, a.Keys) && Listed(a, listing) && !NamesStand(a, listing)
    ensures b.Keys == a.Keys && b != a && PreimageFor(b, listing) == PreimageFor(a, listing)
  {
    var i :| 1 <= i < |listing| && !StandsBetween(a[listing[i - 1]], listing[i], a[listing[i]]);
    var offset := FoundOutOfPlace(a[listing[i - 1]], listing[i], a[listing[i]]);
    b := MovedBoundary(a, listing, i - 1, offset);
  }

  /** A map can be told from every other one with its file names exactly when each name, in the
      order of the names, occurs between its neighbours' contents in its own place only. */
  lemma PreimageUniqueExact(a: Files)
    ensures Listed(a, SortedListing(a.Keys))
    ensures PreimageIsUnique(a) <==> NamesStand(a, SortedListing(a.Keys))
  {
    ListingElements(SortedListing(a.Keys), a.Keys);
    if NamesStand(a, SortedListing(a.Keys)) {
      forall b: Files | b.Keys == a.Keys && Preimage(b) == Preimage(a) ensures b == a {
        StandingIsUnique(a, b);
      }
    } else {
      var b := ElseAnotherMap(a, SortedListing(a.Keys));
      assert Preimage(b) == Preimage(a);
    }
  }

  lemma SameContents(a: Files, b: Files, listing: seq<string>)
    requires a.Keys == b.Keys == Elements(listing)
    requires forall i :: 0 <= i < |listing| ==> listing[i] in a && a[listing[i]] == b[listing[i]]
    ensures a == b
  {
    forall k | k in a ensures a[k] == b[k] {
      assert k in Elements(listing);
      var i :| 0 <= i < |listing| && listing[i] == k;
    }
  }

  /** An instance: in "b" + "b" the name "b" also occurs before its place. Both maps have the
      same two files, and both contents differ. */
  lemma PreimageCollision()
    ensures var a: Files := map["a" := "b", "b" := ""];
            var b: Files := map["a" := "", "b" := "b"];
            a != b && Preimage(a) == Preimage(b)
  {
    var a: Files := map["a" := "b", "b" := ""];
    var b: Files := map["a" := "", "b" := "b"];
    assert "a"[0] != "b"[0];
    assert a["a"] == "b" && b["a"] == "";
    var listing := ["a", "b"];
    assert Less("a", "b");
    SortedListingUnique(SortedListing(a.Keys), listing, a.Keys);
    SortedListingUnique(SortedListing(b.Keys), listing, b.Keys);
    assert listing[1..] == ["b"] && ["b"][1..] == [];
    assert PreimageFor(a, ["b"]) == "b" && PreimageFor(b, ["b"]) == "bb";
    assert PreimageFor(a, listing) == "abb" == PreimageFor(b, listing);
  }
}
