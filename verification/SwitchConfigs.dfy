/** buildSwitchConfigs: a switch -> host -> port map becomes an ordered list of switches, each
    with its hosts grouped by port. Go enumerates maps in an arbitrary order; so does the
    method here. */
module SwitchConfigs {
  import opened Text

  type Ports = map<string, string>
  type Links = map<string, Ports>

  datatype HostLink = HostLink(hosts: string, port: string)
  datatype SwitchConfig = SwitchConfig(switchId: string, hostLinks: seq<HostLink>)

  /** The hosts of one port, before they are joined into one string. */
  datatype PortGroup = PortGroup(port: string, hosts: seq<string>)
  datatype SwitchGroups = SwitchGroups(switchId: string, groups: seq<PortGroup>)

  // ---------- canonical form ----------

  ghost function HostsOn(ports: Ports, port: string): set<string> {
    set host | host in ports && ports[host] == port
  }

  ghost function GroupsFor(ports: Ports, listing: seq<string>): seq<PortGroup> {
    seq(|listing|, i requires 0 <= i < |listing| =>
      PortGroup(listing[i], SortedListing(HostsOn(ports, listing[i]))))
  }

  ghost function Groups(ports: Ports): seq<PortGroup> {
    GroupsFor(ports, SortedListing(ports.Values))
  }

  ghost function CanonicalFor(links: Links, listing: seq<string>): seq<SwitchGroups>
    requires forall i :: 0 <= i < |listing| ==> listing[i] in links
  {
    seq(|listing|, i requires 0 <= i < |listing| =>
      SwitchGroups(listing[i], Groups(links[listing[i]])))
  }

  lemma ListingOfKeys(links: Links)
    ensures forall i :: 0 <= i < |SortedListing(links.Keys)| ==> SortedListing(links.Keys)[i] in links
  {
    var listing := SortedListing(links.Keys);
    forall i | 0 <= i < |listing| ensures listing[i] in links {
      assert listing[i] in Elements(listing);
    }
  }

  ghost function Canonical(links: Links): seq<SwitchGroups> {
    ListingOfKeys(links);
    CanonicalFor(links, SortedListing(links.Keys))
  }

  function RenderGroups(groups: seq<PortGroup>): seq<HostLink> {
    seq(|groups|, i requires 0 <= i < |groups| => HostLink(Join(groups[i].hosts, ','), groups[i].port))
  }

  function Render(switches: seq<SwitchGroups>): seq<SwitchConfig> {
    seq(|switches|, i requires 0 <= i < |switches| =>
      SwitchConfig(switches[i].switchId, RenderGroups(switches[i].groups)))
  }

  // ---------- the loops ----------

  /** hostsByPort holds, under each port in use, the hosts of done that are on it. */
  ghost predicate GroupsDone(hostsByPort: map<string, seq<string>>, ports: Ports, done: set<string>)
    requires done <= ports.Keys
  {
    && (forall port :: port in hostsByPort <==> exists host :: host in done && ports[host] == port)
    && (forall port :: port in hostsByPort ==>
          Distinct(hostsByPort[port]) && Elements(hostsByPort[port]) == HostsOn(ports, port) * done)
  }

  lemma GroupStep(hostsByPort: map<string, seq<string>>, ports: Ports, done: set<string>, host: string, hosts: seq<string>)
    requires done <= ports.Keys && host in ports && host !in done
    requires GroupsDone(hostsByPort, ports, done)
    requires hosts == if ports[host] in hostsByPort then hostsByPort[ports[host]] else []
    ensures GroupsDone(hostsByPort[ports[host] := hosts + [host]], ports, done + {host})
  {
    var port := ports[host];
    assert Elements(hosts) == HostsOn(ports, port) * done;
    assert host !in Elements(hosts);
    AppendDistinct(hosts, host);
    var after := hostsByPort[port := hosts + [host]];
    forall p | p in after
      ensures Distinct(after[p]) && Elements(after[p]) == HostsOn(ports, p) * (done + {host})
    {
      if p == port {
        assert HostsOn(ports, p) * (done + {host}) == HostsOn(ports, p) * done + {host};
      } else {
        assert HostsOn(ports, p) * (done + {host}) == HostsOn(ports, p) * done;
      }
    }
    forall p ensures p in after <==> exists h :: h in done + {host} && ports[h] == p {
      if p == port {
        assert host in done + {host};
      } else if p in hostsByPort {
        var h :| h in done && ports[h] == p;
        assert h in done + {host};
      }
    }
  }

  /** Inverting host -> port into port -> hosts, in whatever order the hosts come. */
  method GroupByPort(ports: Ports) returns (hostsByPort: map<string, seq<string>>)
    ensures hostsByPort.Keys == ports.Values
    ensures forall port :: port in hostsByPort ==>
              Distinct(hostsByPort[port]) && Elements(hostsByPort[port]) == HostsOn(ports, port)
  {
    hostsByPort := map[];
    var remaining := ports.Keys;
    while remaining != {}
      invariant remaining <= ports.Keys
      invariant GroupsDone(hostsByPort, ports, ports.Keys - remaining)
      decreases |remaining|
    {
      var host :| host in remaining;
      var port := ports[host];
      var hosts := if port in hostsByPort then hostsByPort[port] else [];
      GroupStep(hostsByPort, ports, ports.Keys - remaining, host, hosts);
      hostsByPort := hostsByPort[port := hosts + [host]];
      assert ports.Keys - (remaining - {host}) == ports.Keys - remaining + {host};
      remaining := remaining - {host};
    }
    assert ports.Keys - remaining == ports.Keys;
    assert forall port :: HostsOn(ports, port) * ports.Keys == HostsOn(ports, port);
    assert forall port :: port in ports.Values <==> exists host :: host in ports.Keys && ports[host] == port;
  }

  lemma RenderGroupStep(ports: Ports, listing: seq<string>, i: nat)
    requires i < |listing|
    ensures RenderGroups(GroupsFor(ports, listing[..i + 1]))
            == RenderGroups(GroupsFor(ports, listing[..i]))
               + [HostLink(Join(SortedListing(HostsOn(ports, listing[i])), ','), listing[i])]
  {
    assert listing[..i + 1] == listing[..i] + [listing[i]];
  }

  lemma RenderSwitchStep(links: Links, listing: seq<string>, i: nat)
    requires i < |listing| && forall k :: 0 <= k < |listing| ==> listing[k] in links
    ensures Render(CanonicalFor(links, listing[..i + 1]))
            == Render(CanonicalFor(links, listing[..i]))
               + [SwitchConfig(listing[i], RenderGroups(Groups(links[listing[i]])))]
  {
    assert listing[..i + 1] == listing[..i] + [listing[i]];
  }

  /** One switch: group, sort the ports, sort and join the hosts of each. */
  method BuildHostLinks(ports: Ports) returns (hostLinks: seq<HostLink>)
    ensures hostLinks == RenderGroups(Groups(ports))
  {
    var hostsByPort := GroupByPort(ports);
    var listed := Enumerate(hostsByPort.Keys);
    SortedListingOfList(listed, hostsByPort.Keys);
    var sorted := SortStrings(listed);
    ListingElements(sorted, hostsByPort.Keys);
    hostLinks := [];
    var i := 0;
    while i < |sorted|
      invariant 0 <= i <= |sorted|
      invariant hostLinks == RenderGroups(GroupsFor(ports, sorted[..i]))
    {
      var port := sorted[i];
      var hosts := hostsByPort[port];
      SortedListingOfList(hosts, HostsOn(ports, port));
      RenderGroupStep(ports, sorted, i);
      hostLinks := hostLinks + [HostLink(Join(SortStrings(hosts), ','), port)];
      i := i + 1;
    }
    assert sorted[..|sorted|] == sorted;
  }

  /** buildSwitchConfigs. Its result is a function of the map alone: no enumeration order of
      the switches, the hosts or the ports can be seen in it. */
  method BuildSwitchConfigs(links: Links) returns (configs: seq<SwitchConfig>)
    ensures configs == Render(Canonical(links))
  {
    var listed := Enumerate(links.Keys);
    SortedListingOfList(listed, links.Keys);
    var switchIds := SortStrings(listed);
    ListingOfKeys(links);
    configs := [];
    var i := 0;
    while i < |switchIds|
      invariant 0 <= i <= |switchIds|
      invariant configs == Render(CanonicalFor(links, switchIds[..i]))
    {
      var switchId := switchIds[i];
      var hostLinks := BuildHostLinks(links[switchId]);
      RenderSwitchStep(links, switchIds, i);
      configs := configs + [SwitchConfig(switchId, hostLinks)];
      i := i + 1;
    }
    assert switchIds[..|switchIds|] == switchIds;
  }

  // ---------- what the canonical form keeps ----------

  /** The groups of one switch: ports in increasing order, the hosts of each in increasing
      order, and every host in exactly the group of its port. */
  ghost predicate Partitions(groups: seq<PortGroup>, ports: Ports) {
    && (forall i, j :: 0 <= i < j < |groups| ==> Less(groups[i].port, groups[j].port))
    && (forall i :: 0 <= i < |groups| ==> groups[i].hosts != [] && StrictlyIncreasing(groups[i].hosts))
    && (forall i, host :: 0 <= i < |groups| && host in groups[i].hosts ==>
          host in ports && ports[host] == groups[i].port)
    && (forall host :: host in ports ==> exists i :: 0 <= i < |groups| && host in groups[i].hosts)
    && (forall i, j, host ::
          0 <= i < |groups| && 0 <= j < |groups| && host in groups[i].hosts && host in groups[j].hosts ==>
            i == j)
  }

  /** Each group has some hosts, in increasing order, and they are those on its port. */
  lemma GroupFacts(ports: Ports, port: string)
    requires port in ports.Values
    ensures var hosts := SortedListing(HostsOn(ports, port));
            && hosts != [] && StrictlyIncreasing(hosts)
            && forall host :: host in hosts <==> host in ports && ports[host] == port
  {
    var hosts := SortedListing(HostsOn(ports, port));
    assert forall host :: host in hosts <==> host in Elements(hosts);
    var host :| host in ports && ports[host] == port;
    assert host in HostsOn(ports, port);
  }

  lemma GroupsPartition(ports: Ports)
    ensures Partitions(Groups(ports), ports)
  {
    var listing := SortedListing(ports.Values);
    var groups := Groups(ports);
    ListingElements(listing, ports.Values);
    forall i | 0 <= i < |groups|
      ensures groups[i].port == listing[i] && groups[i].hosts != [] && StrictlyIncreasing(groups[i].hosts)
      ensures forall host :: host in groups[i].hosts <==> host in ports && ports[host] == listing[i]
    {
      GroupFacts(ports, listing[i]);
    }
    PartitionFrom(ports, listing, groups);
  }

  lemma PartitionFrom(ports: Ports, listing: seq<string>, groups: seq<PortGroup>)
    requires IsSortedListing(listing, ports.Values) && |groups| == |listing|
    requires forall i :: 0 <= i < |groups| ==>
               groups[i].port == listing[i] && groups[i].hosts != [] && StrictlyIncreasing(groups[i].hosts)
    requires forall i, host :: 0 <= i < |groups| ==>
               (host in groups[i].hosts <==> host in ports && ports[host] == listing[i])
    ensures Partitions(groups, ports)
  {
    forall host | host in ports ensures exists i :: 0 <= i < |groups| && host in groups[i].hosts {
      assert ports[host] in ports.Values;
      assert ports[host] in Elements(listing);
      var i :| 0 <= i < |listing| && listing[i] == ports[host];
      assert host in groups[i].hosts;
    }
    forall i, j, host | 0 <= i < |groups| && 0 <= j < |groups| && host in groups[i].hosts && host in groups[j].hosts
      ensures i == j
    {
      assert ports[host] == listing[i];
      assert ports[host] == listing[j];
      LessIrreflexive(listing[i]);
    }
  }

  datatype Triple = Triple(switchId: string, host: string, port: string)

  ghost function LinkTriples(links: Links): iset<Triple> {
    iset t: Triple | t.switchId in links && t.host in links[t.switchId] && links[t.switchId][t.host] == t.port
  }

  ghost predicate InSwitch(entry: SwitchGroups, t: Triple) {
    entry.switchId == t.switchId &&
    exists j :: 0 <= j < |entry.groups| && entry.groups[j].port == t.port && t.host in entry.groups[j].hosts
  }

  ghost predicate InGroups(switches: seq<SwitchGroups>, t: Triple) {
    exists i :: 0 <= i < |switches| && InSwitch(switches[i], t)
  }

  ghost function FlatTriples(switches: seq<SwitchGroups>): iset<Triple> {
    iset t: Triple | InGroups(switches, t)
  }

  ghost function SwitchIds(switches: seq<SwitchGroups>): seq<string> {
    seq(|switches|, i requires 0 <= i < |switches| => switches[i].switchId)
  }

  lemma TripleInSwitch(switchId: string, groups: seq<PortGroup>, ports: Ports, t: Triple)
    requires Partitions(groups, ports)
    ensures InSwitch(SwitchGroups(switchId, groups), t)
            <==> t.switchId == switchId && t.host in ports && ports[t.host] == t.port
  {
    if t.host in ports {
      var j :| 0 <= j < |groups| && t.host in groups[j].hosts;
      assert groups[j].port == ports[t.host];
    }
  }

  lemma TripleInGroups(links: Links, t: Triple)
    ensures InGroups(Canonical(links), t) <==> t in LinkTriples(links)
  {
    var listing := SortedListing(links.Keys);
    var switches := Canonical(links);
    ListingOfKeys(links);
    forall i | 0 <= i < |switches|
      ensures InSwitch(switches[i], t) <==>
              t.switchId == listing[i] && t.host in links[listing[i]] && links[listing[i]][t.host] == t.port
    {
      GroupsPartition(links[listing[i]]);
      TripleInSwitch(listing[i], switches[i].groups, links[listing[i]], t);
    }
    assert t.switchId in links ==> t.switchId in Elements(listing);
  }

  /** Nothing is lost or invented: the switch ids are the map's keys in increasing order, also
      those of switches without hosts; the groups of each switch partition its hosts; and
      flattening the groups gives back exactly the (switch, host, port) triples. */
  lemma CanonicalLossless(links: Links)
    ensures IsSortedListing(SwitchIds(Canonical(links)), links.Keys)
    ensures forall i :: 0 <= i < |Canonical(links)| ==>
              Canonical(links)[i].switchId in links
              && Partitions(Canonical(links)[i].groups, links[Canonical(links)[i].switchId])
    ensures FlatTriples(Canonical(links)) == LinkTriples(links)
  {
    var switches := Canonical(links);
    ListingOfKeys(links);
    assert SwitchIds(switches) == SortedListing(links.Keys);
    forall i | 0 <= i < |switches| ensures Partitions(switches[i].groups, links[switches[i].switchId]) {
      GroupsPartition(links[switches[i].switchId]);
    }
    forall t ensures t in FlatTriples(switches) <==> t in LinkTriples(links) {
      TripleInGroups(links, t);
    }
  }

  // ---------- reading the printed form back ----------

  ghost function ParseHostLinks(hostLinks: seq<HostLink>): Ports {
    if |hostLinks| == 0 then map[]
    else
      ParseHostLinks(hostLinks[1..]) +
      (map host | host in Split(hostLinks[0].hosts, ',') :: hostLinks[0].port)
  }

  ghost function ParseConfigs(configs: seq<SwitchConfig>): Links {
    if |configs| == 0 then map[]
    else ParseConfigs(configs[1..])[configs[0].switchId := ParseHostLinks(configs[0].hostLinks)]
  }

  ghost predicate CommaFree(links: Links) {
    forall switchId, host :: switchId in links && host in links[switchId] ==> ',' !in host
  }

  /** The hosts on some of the ports. */
  ghost function OnPorts(ports: Ports, listing: seq<string>): Ports {
    map host | host in ports && ports[host] in listing :: ports[host]
  }

  ghost function OnSwitches(links: Links, listing: seq<string>): Links {
    map switchId | switchId in links && switchId in listing :: links[switchId]
  }

  lemma JoinedHosts(ports: Ports, port: string)
    requires port in ports.Values
    requires forall host :: host in ports ==> ',' !in host
    ensures var hosts := SortedListing(HostsOn(ports, port));
            Elements(Split(Join(hosts, ','), ',')) == HostsOn(ports, port)
  {
    var hosts := SortedListing(HostsOn(ports, port));
    ListingElements(hosts, HostsOn(ports, port));
    var host :| host in ports && ports[host] == port;
    assert host in HostsOn(ports, port);
    NoElements(hosts);
    SplitJoin(hosts, ',');
  }

  /** Reading back the groups of some ports gives exactly the hosts on those ports. */
  lemma {:induction false} ParseGroups(ports: Ports, listing: seq<string>)
    requires forall i :: 0 <= i < |listing| ==> listing[i] in ports.Values
    requires forall host :: host in ports ==> ',' !in host
    ensures ParseHostLinks(RenderGroups(GroupsFor(ports, listing))) == OnPorts(ports, listing)
  {
    var hostLinks := RenderGroups(GroupsFor(ports, listing));
    if |listing| != 0 {
      var port := listing[0];
      JoinedHosts(ports, port);
      assert hostLinks[1..] == RenderGroups(GroupsFor(ports, listing[1..]));
      ParseGroups(ports, listing[1..]);
      var parts := Split(hostLinks[0].hosts, ',');
      var head := map host | host in parts :: port;
      assert ParseHostLinks(hostLinks) == OnPorts(ports, listing[1..]) + head;
      OnPortsStep(ports, listing, head);
      assert forall host :: host in parts <==> host in Elements(parts);
    }
  }

  lemma OnPortsStep(ports: Ports, listing: seq<string>, head: Ports)
    requires |listing| != 0
    ensures head.Keys == HostsOn(ports, listing[0]) && (forall host :: host in head ==> head[host] == listing[0]) ==>
              OnPorts(ports, listing[1..]) + head == OnPorts(ports, listing)
  {
    assert forall p :: p in listing <==> p == listing[0] || p in listing[1..];
  }

  lemma ParseSwitch(ports: Ports)
    requires forall host :: host in ports ==> ',' !in host
    ensures ParseHostLinks(RenderGroups(Groups(ports))) == ports
  {
    var listing := SortedListing(ports.Values);
    ListingElements(listing, ports.Values);
    ParseGroups(ports, listing);
    assert forall p :: p in listing <==> p in Elements(listing);
    assert forall host :: host in ports ==> ports[host] in ports.Values;
  }

  lemma {:induction false} ParseSwitches(links: Links, listing: seq<string>)
    requires forall i :: 0 <= i < |listing| ==> listing[i] in links
    requires CommaFree(links)
    ensures ParseConfigs(Render(CanonicalFor(links, listing))) == OnSwitches(links, listing)
  {
    var configs := Render(CanonicalFor(links, listing));
    if |listing| != 0 {
      assert configs[1..] == Render(CanonicalFor(links, listing[1..]));
      ParseSwitches(links, listing[1..]);
      ParseSwitch(links[listing[0]]);
      assert configs[0] == SwitchConfig(listing[0], RenderGroups(Groups(links[listing[0]])));
      assert forall s :: s in listing <==> s == listing[0] || s in listing[1..];
      assert OnSwitches(links, listing) == OnSwitches(links, listing[1..])[listing[0] := links[listing[0]]];
    }
  }

  lemma {:induction false} SplitPartsFree(s: string, sep: char)
    ensures forall i :: 0 <= i < |Split(s, sep)| ==> sep !in Split(s, sep)[i]
  {
    if |s| != 0 {
      SplitPartsFree(s[1..], sep);
    }
  }

  lemma {:induction false} ParsedHostsCommaFree(hostLinks: seq<HostLink>)
    ensures forall host :: host in ParseHostLinks(hostLinks) ==> ',' !in host
  {
    if |hostLinks| != 0 {
      ParsedHostsCommaFree(hostLinks[1..]);
      SplitPartsFree(hostLinks[0].hosts, ',');
    }
  }

  lemma {:induction false} ParsedCommaFree(configs: seq<SwitchConfig>)
    ensures CommaFree(ParseConfigs(configs))
  {
    if |configs| != 0 {
      ParsedCommaFree(configs[1..]);
      ParsedHostsCommaFree(configs[0].hostLinks);
    }
  }

  /** The printed lines can be read back to the original map exactly when no host name
      contains a comma. */
  lemma ReadBack(links: Links)
    ensures ParseConfigs(Render(Canonical(links))) == links <==> CommaFree(links)
  {
    ParsedCommaFree(Render(Canonical(links)));
    if CommaFree(links) {
      var listing := SortedListing(links.Keys);
      ListingOfKeys(links);
      ParseSwitches(links, listing);
      assert forall s :: s in listing <==> s in Elements(listing);
    }
  }

  /** So two comma-free maps with the same rendering are the same map. */
  lemma RenderingInjective(a: Links, b: Links)
    requires CommaFree(a) && CommaFree(b)
    requires Render(Canonical(a)) == Render(Canonical(b))
    ensures a == b
  {
    ReadBack(a);
    ReadBack(b);
  }

  lemma OnePort(ports: Ports, port: string, hosts: seq<string>)
    requires ports.Values == {port} && IsSortedListing(hosts, HostsOn(ports, port))
    ensures Groups(ports) == [PortGroup(port, hosts)]
  {
    SortedListingUnique(SortedListing({port}), [port], {port});
    SortedListingUnique(SortedListing(HostsOn(ports, port)), hosts, HostsOn(ports, port));
  }

  lemma OneSwitch(switchId: string, ports: Ports)
    ensures Canonical(map[switchId := ports]) == [SwitchGroups(switchId, Groups(ports))]
  {
    var links: Links := map[switchId := ports];
    assert links.Keys == {switchId};
    ListingOfKeys(links);
    SortedListingUnique(SortedListing({switchId}), [switchId], {switchId});
  }

  /** With a comma in a host name two different maps print alike. */
  lemma CommaCollision()
    ensures var a: Links := map["101" := map["h1,h2" := "1/1"]];
            var b: Links := map["101" := map["h1" := "1/1", "h2" := "1/1"]];
            a != b && Render(Canonical(a)) == Render(Canonical(b))
  {
    var pa: Ports := map["h1,h2" := "1/1"];
    var pb: Ports := map["h1" := "1/1", "h2" := "1/1"];
    assert "1/1" in pa.Values by { assert pa["h1,h2"] == "1/1"; }
    assert "1/1" in pb.Values by { assert pb["h1"] == "1/1"; }
    assert "h1" != "h2" by { assert "h1"[1] != "h2"[1]; }
    assert Less("h1", "h2") by {
      assert "h1"[1..] == "1" && "h2"[1..] == "2";
    }
    OnePort(pa, "1/1", ["h1,h2"]);
    OnePort(pb, "1/1", ["h1", "h2"]);
    assert Join(["h1", "h2"], ',') == "h1,h2" by {
      assert ["h1", "h2"][1..] == ["h2"];
    }
    assert RenderGroups(Groups(pa)) == RenderGroups(Groups(pb)) == [HostLink("h1,h2", "1/1")];
    OneSwitch("101", pa);
    OneSwitch("101", pb);
    assert pa != pb by { assert |"h1"| != |"h1,h2"|; assert "h1" in pb && "h1" !in pa; }
    var a: Links, b: Links := map["101" := pa], map["101" := pb];
    assert a["101"] != b["101"];
  }
}
