/** The physical-domain loops of populateAimCtlConfData: mappings are parsed into a map, later
    ones winning, and the physical networks of the VLAN ranges are resolved through it and
    listed once each, in order of first appearance. */
module PhysDomains {
  import opened Text

  /** strings.SplitN(s, ":", 2) */
  function SplitTwo(s: string): (parts: seq<string>)
    ensures |parts| == 1 || |parts| == 2
  {
    if ':' !in s then [s]
    else
      var k := ColonAt(s);
      [s[..k], s[k + 1..]]
  }

  /** The position of the first colon. */
  function ColonAt(s: string): (k: nat)
    requires ':' in s
    ensures k < |s| && s[k] == ':' && ':' !in s[..k]
  {
    if s[0] == ':' then 0
    else
      var k := ColonAt(s[1..]) + 1;
      assert s[..k] == [s[0]] + s[1..][..k - 1];
      k
  }

  /** The text before the first colon and the text after it, or the whole text when there is
      none. */
  lemma SplitTwoExact(s: string)
    ensures ':' !in s ==> SplitTwo(s) == [s]
    ensures ':' in s ==>
              |SplitTwo(s)| == 2 && ':' !in SplitTwo(s)[0] && s == SplitTwo(s)[0] + ":" + SplitTwo(s)[1]
  {
  }

  // ---------- meaning ----------

  predicate IsMappingOf(mapping: string, physnet: string) {
    |SplitTwo(mapping)| == 2 && SplitTwo(mapping)[0] == physnet
  }

  /** Mapping i is the last well-formed one for the network. */
  ghost predicate IsLastFor(mappings: seq<string>, physnet: string, i: int) {
    && 0 <= i < |mappings|
    && IsMappingOf(mappings[i], physnet)
    && forall j :: i < j < |mappings| ==> !IsMappingOf(mappings[j], physnet)
  }

  /** The domain of a physical network: named by the last well-formed mapping for it, or else
      pdom_ followed by the network's name. */
  ghost predicate ResolvesTo(mappings: seq<string>, physnet: string, domain: string) {
    || (exists i :: IsLastFor(mappings, physnet, i) && SplitTwo(mappings[i])[1] == domain)
    || ((forall i :: 0 <= i < |mappings| ==> !IsMappingOf(mappings[i], physnet)) && domain == "pdom_" + physnet)
  }

  function PhysNet(vlanRange: string): string {
    SplitTwo(vlanRange)[0]
  }

  function Resolve(mappings: seq<string>, physnet: string): string {
    if |mappings| == 0 then "pdom_" + physnet
    else
      var last := mappings[|mappings| - 1];
      if IsMappingOf(last, physnet) then SplitTwo(last)[1]
      else Resolve(mappings[..|mappings| - 1], physnet)
  }

  lemma LastForFront(mappings: seq<string>, physnet: string, i: int)
    requires |mappings| != 0
    ensures IsMappingOf(mappings[|mappings| - 1], physnet) ==>
              (IsLastFor(mappings, physnet, i) <==> i == |mappings| - 1)
    ensures !IsMappingOf(mappings[|mappings| - 1], physnet) ==>
              (IsLastFor(mappings, physnet, i) <==> IsLastFor(mappings[..|mappings| - 1], physnet, i))
  {
    var front := mappings[..|mappings| - 1];
    assert forall j :: 0 <= j < |front| ==> front[j] == mappings[j];
  }

  lemma ResolvesToLast(mappings: seq<string>, physnet: string, domain: string)
    requires |mappings| != 0 && IsMappingOf(mappings[|mappings| - 1], physnet)
    ensures ResolvesTo(mappings, physnet, domain) <==> domain == SplitTwo(mappings[|mappings| - 1])[1]
  {
    LastForFront(mappings, physnet, |mappings| - 1);
    forall i {
      LastForFront(mappings, physnet, i);
    }
  }

  lemma ResolvesToFront(mappings: seq<string>, physnet: string, domain: string)
    requires |mappings| != 0 && !IsMappingOf(mappings[|mappings| - 1], physnet)
    ensures ResolvesTo(mappings, physnet, domain) <==> ResolvesTo(mappings[..|mappings| - 1], physnet, domain)
  {
    var front := mappings[..|mappings| - 1];
    forall i {
      LastForFront(mappings, physnet, i);
    }
    assert forall i :: 0 <= i < |front| ==> front[i] == mappings[i];
  }

  /** Resolve computes the one domain that meets the description. */
  lemma {:induction false} ResolveExact(mappings: seq<string>, physnet: string, domain: string)
    ensures ResolvesTo(mappings, physnet, domain) <==> domain == Resolve(mappings, physnet)
  {
    if |mappings| != 0 {
      if IsMappingOf(mappings[|mappings| - 1], physnet) {
        ResolvesToLast(mappings, physnet, domain);
      } else {
        ResolvesToFront(mappings, physnet, domain);
        ResolveExact(mappings[..|mappings| - 1], physnet, domain);
      }
    }
  }

  function ResolveAll(mappings: seq<string>, ranges: seq<string>): seq<string> {
    seq(|ranges|, i requires 0 <= i < |ranges| => Resolve(mappings, PhysNet(ranges[i])))
  }

  /** Keep the first occurrence of each name. */
  function FirstOccurrences(names: seq<string>): seq<string> {
    if |names| == 0 then []
    else
      var front, last := names[..|names| - 1], names[|names| - 1];
      if last in front then FirstOccurrences(front) else FirstOccurrences(front) + [last]
  }

  /** r is an order-preserving selection of names, at the increasing positions at. */
  ghost predicate SelectsAt(r: seq<string>, names: seq<string>, at: seq<nat>) {
    && |at| == |r|
    && (forall i :: 0 <= i < |r| ==> at[i] < |names| && names[at[i]] == r[i] && r[i] !in names[..at[i]])
    && (forall i, j :: 0 <= i < j < |at| ==> at[i] < at[j])
  }

  lemma {:induction false} FirstOccurrencesElements(names: seq<string>)
    ensures Distinct(FirstOccurrences(names))
    ensures Elements(FirstOccurrences(names)) == Elements(names)
  {
    if |names| != 0 {
      var front, last := names[..|names| - 1], names[|names| - 1];
      FirstOccurrencesElements(front);
      LastElement(names);
      var r := FirstOccurrences(front);
      assert last in r <==> last in Elements(r);
      assert last in front <==> last in Elements(front);
      if last !in front {
        AppendDistinct(r, last);
      }
    }
  }

  lemma LastElement(names: seq<string>)
    requires |names| != 0
    ensures Elements(names) == Elements(names[..|names| - 1]) + {names[|names| - 1]}
  {
    var front, last := names[..|names| - 1], names[|names| - 1];
    assert names == front + [last];
    assert forall x :: x in front + [last] <==> x in front || x == last;
  }

  /** A selection from the front of a list is one from the list, and can take in a new last name. */
  lemma SelectsMore(r: seq<string>, names: seq<string>, at: seq<nat>)
    requires |names| != 0 && SelectsAt(r, names[..|names| - 1], at)
    ensures SelectsAt(r, names, at)
    ensures names[|names| - 1] !in names[..|names| - 1] ==>
              SelectsAt(r + [names[|names| - 1]], names, at + [|names| - 1])
  {
    var front := names[..|names| - 1];
    forall i | 0 <= i < |at| ensures names[at[i]] == front[at[i]] && names[..at[i]] == front[..at[i]] {
    }
  }

  /** The list has no repetition and exactly the given names, each at the place where it
      first appears. */
  lemma {:induction false} FirstOccurrencesSpec(names: seq<string>) returns (at: seq<nat>)
    ensures Distinct(FirstOccurrences(names))
    ensures Elements(FirstOccurrences(names)) == Elements(names)
    ensures SelectsAt(FirstOccurrences(names), names, at)
  {
    FirstOccurrencesElements(names);
    at := [];
    if |names| != 0 {
      var front, last := names[..|names| - 1], names[|names| - 1];
      at := FirstOccurrencesSpec(front);
      SelectsMore(FirstOccurrences(front), names, at);
      if last !in front {
        at := at + [|names| - 1];
      }
    }
  }

  /** Appending VLAN ranges only appends domains: the earlier part of the list is stable. */
  lemma {:induction false} FirstOccurrencesPrefixStable(names: seq<string>, more: seq<string>)
    ensures FirstOccurrences(names) <= FirstOccurrences(names + more)
  {
    if |more| == 0 {
      assert names + more == names;
    } else {
      var all := names + more;
      assert all[..|all| - 1] == names + more[..|more| - 1];
      FirstOccurrencesPrefixStable(names, more[..|more| - 1]);
    }
  }

  // ---------- the loops ----------

  function Lookup(pdomMapping: map<string, string>, physnet: string): string {
    if physnet in pdomMapping then pdomMapping[physnet] else "pdom_" + physnet
  }

  /** The first loop: a map in which later mappings overwrite earlier ones. */
  method ParseMappings(mappings: seq<string>) returns (pdomMapping: map<string, string>)
    ensures forall physnet :: Lookup(pdomMapping, physnet) == Resolve(mappings, physnet)
  {
    pdomMapping := map[];
    var i := 0;
    while i < |mappings|
      invariant 0 <= i <= |mappings|
      invariant forall physnet :: Lookup(pdomMapping, physnet) == Resolve(mappings[..i], physnet)
    {
      var parts := SplitTwo(mappings[i]);
      assert mappings[..i + 1][..i] == mappings[..i];
      if |parts| == 2 {
        pdomMapping := pdomMapping[parts[0] := parts[1]];
      }
      i := i + 1;
    }
    assert mappings[..|mappings|] == mappings;
  }

  lemma ResolveOneMore(mappings: seq<string>, vlanRanges: seq<string>, i: nat)
    requires i < |vlanRanges|
    ensures var name := Resolve(mappings, PhysNet(vlanRanges[i]));
            var before, after := ResolveAll(mappings, vlanRanges[..i]), ResolveAll(mappings, vlanRanges[..i + 1]);
            && FirstOccurrences(after)
               == (if name in Elements(before) then FirstOccurrences(before) else FirstOccurrences(before) + [name])
            && Elements(after) == Elements(before) + {name}
  {
    var name := Resolve(mappings, PhysNet(vlanRanges[i]));
    var before := ResolveAll(mappings, vlanRanges[..i]);
    assert vlanRanges[..i + 1] == vlanRanges[..i] + [vlanRanges[i]];
    assert ResolveAll(mappings, vlanRanges[..i + 1]) == before + [name];
    assert (before + [name])[..|before + [name]| - 1] == before;
    assert forall x :: x in before + [name] <==> x in before || x == name;
  }

  /** Both loops: the domains of the configuration. */
  method PhysDomNames(mappings: seq<string>, vlanRanges: seq<string>) returns (names: seq<string>)
    ensures names == FirstOccurrences(ResolveAll(mappings, vlanRanges))
  {
    var pdomMapping := ParseMappings(mappings);
    names := [];
    var physDomSet: set<string> := {};
    var i := 0;
    while i < |vlanRanges|
      invariant 0 <= i <= |vlanRanges|
      invariant names == FirstOccurrences(ResolveAll(mappings, vlanRanges[..i]))
      invariant physDomSet == Elements(ResolveAll(mappings, vlanRanges[..i]))
    {
      var physNetName := SplitTwo(vlanRanges[i])[0];
      var physDomName := Lookup(pdomMapping, physNetName);
      assert physDomName == Resolve(mappings, PhysNet(vlanRanges[i]));
      ResolveOneMore(mappings, vlanRanges, i);
      if physDomName !in physDomSet {
        names := names + [physDomName];
        physDomSet := physDomSet + {physDomName};
      }
      assert names == FirstOccurrences(ResolveAll(mappings, vlanRanges[..i + 1]));
      assert physDomSet == Elements(ResolveAll(mappings, vlanRanges[..i + 1]));
      i := i + 1;
    }
    assert vlanRanges[..|vlanRanges|] == vlanRanges;
  }

  /** What the caller gets: no repetition, exactly the resolved names, and a list that later
      VLAN ranges can only extend. */
  lemma DomainsSpec(mappings: seq<string>, vlanRanges: seq<string>, more: seq<string>) returns (at: seq<nat>)
    ensures var names := FirstOccurrences(ResolveAll(mappings, vlanRanges));
            && Distinct(names)
            && (forall d :: d in names <==>
                  exists i :: 0 <= i < |vlanRanges| && ResolvesTo(mappings, PhysNet(vlanRanges[i]), d))
            && SelectsAt(names, ResolveAll(mappings, vlanRanges), at)
            && names <= FirstOccurrences(ResolveAll(mappings, vlanRanges + more))
  {
    var resolved := ResolveAll(mappings, vlanRanges);
    at := FirstOccurrencesSpec(resolved);
    FirstOccurrencesPrefixStable(resolved, ResolveAll(mappings, more));
    assert ResolveAll(mappings, vlanRanges + more) == resolved + ResolveAll(mappings, more);
    forall d
      ensures d in FirstOccurrences(resolved)
              <==> exists i :: 0 <= i < |vlanRanges| && ResolvesTo(mappings, PhysNet(vlanRanges[i]), d)
    {
      DomainMeaning(mappings, vlanRanges, d);
    }
  }

  lemma DomainMeaning(mappings: seq<string>, vlanRanges: seq<string>, d: string)
    ensures d in FirstOccurrences(ResolveAll(mappings, vlanRanges))
            <==> exists i :: 0 <= i < |vlanRanges| && ResolvesTo(mappings, PhysNet(vlanRanges[i]), d)
  {
    var resolved := ResolveAll(mappings, vlanRanges);
    FirstOccurrencesElements(resolved);
    assert d in FirstOccurrences(resolved) <==> d in Elements(FirstOccurrences(resolved));
    assert d in resolved <==> d in Elements(resolved);
    forall i | 0 <= i < |vlanRanges|
      ensures ResolvesTo(mappings, PhysNet(vlanRanges[i]), d) <==> d == resolved[i]
    {
      ResolveExact(mappings, PhysNet(vlanRanges[i]), d);
    }
  }
}
