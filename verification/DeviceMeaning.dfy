/** What count_devices counts (utils/device_count.py), in the fields of the
    connections alone: no device keys, no buckets, every mode and configuration. */
module DeviceMeaning {
  import opened Collections
  import opened DeviceCount
  import opened DeviceClaims

  // ---------------------------------------------------------------------------
  // Three kinds of connection
  // ---------------------------------------------------------------------------

  predicate OnCdnNode(c: Connection, cfg: Config) {
    !NodeIn(c.node, cfg.disabledNodes) && NodeIn(c.node, cfg.cdnNodes)
  }

  predicate OnCdnInbound(c: Connection, cfg: Config) {
    !NodeIn(c.node, cfg.disabledNodes) && !NodeIn(c.node, cfg.cdnNodes) && c.inbound in cfg.cdnInbounds
  }

  predicate Ordinary(c: Connection, cfg: Config) {
    !NodeIn(c.node, cfg.disabledNodes) && !NodeIn(c.node, cfg.cdnNodes) && c.inbound !in cfg.cdnInbounds
  }

  // ---------------------------------------------------------------------------
  // What is counted
  // ---------------------------------------------------------------------------

  function Place(c: Connection, cfg: Config): string {
    if cfg.subnetGrouping then SubnetKey(c.ip) else c.ip
  }

  function Places(cs: set<Connection>, cfg: Config): set<string> {
    set c | c in cs && Ordinary(c, cfg) :: Place(c, cfg)
  }

  function PlacesAndInbounds(cs: set<Connection>, cfg: Config): set<(string, string)> {
    set c | c in cs && Ordinary(c, cfg) :: (Place(c, cfg), c.inbound)
  }

  function Inbounds(cs: set<Connection>, cfg: Config): set<string> {
    set c | c in cs && Ordinary(c, cfg) :: c.inbound
  }

  function CdnInbounds(cs: set<Connection>, cfg: Config): set<string> {
    set c | c in cs && OnCdnInbound(c, cfg) :: c.inbound
  }

  /** "device" mode sees an address with its inbound, "ip" mode the address alone. */
  predicate SameClient(c: Connection, d: Connection, cfg: Config) {
    c.ip == d.ip && (cfg.mode == IpMode || c.inbound == d.inbound)
  }

  /** Clients come through the CDN nodes, and none of them is seen anywhere else. */
  predicate CdnNodesApart(cs: set<Connection>, cfg: Config) {
    && (exists c :: c in cs && OnCdnNode(c, cfg))
    && (forall c, d :: c in cs && d in cs && OnCdnNode(c, cfg) && SameClient(c, d, cfg) ==>
          !Ordinary(d, cfg) && !OnCdnInbound(d, cfg))
  }

  /** Clients come through the CDN inbounds, and none of them is an ordinary one. */
  predicate CdnInboundsApart(cs: set<Connection>, cfg: Config) {
    && (exists c :: c in cs && OnCdnInbound(c, cfg))
    && (forall c, d :: c in cs && d in cs && OnCdnInbound(c, cfg) && SameClient(c, d, cfg) ==> !Ordinary(d, cfg))
  }

  function Tags(cs: set<Connection>, cfg: Config): set<string> {
    set c | c in cs && !NodeIn(c.node, cfg.disabledNodes) && Strip(c.inbound) != "" && Strip(c.inbound) != "Unknown"
      :: Strip(c.inbound)
  }

  function Nodes(cs: set<Connection>, cfg: Config): set<int> {
    set c | c in cs && c.node.Some? && cfg.eligibleNodes.Some?
            && c.node.value in cfg.eligibleNodes.value && c.node.value !in cfg.disabledNodes
      :: c.node.value
  }

  // ---------------------------------------------------------------------------
  // Places
  // ---------------------------------------------------------------------------

  lemma {:induction false} DottedIsPlain(s: string, parts: nat)
    requires parts >= 1 && IsDotted(s, parts)
    ensures ':' !in s
    decreases parts
  {
    if parts > 1 {
      var k := LastDot(s).value;
      DottedIsPlain(s[..k], parts - 1);
      assert s == s[..k] + ['.'] + s[k + 1..];
      hide LastDot;
    }
  }

  /** The two addresses are in one /24. */
  ghost predicate Neighbours(a: string, b: string) {
    exists net, x, y :: IsDotted(net, 3) && IsOctet(x) && IsOctet(y) && a == net + "." + x && b == net + "." + y
  }

  /** Two addresses, of either version, are grouped exactly when they are the same or
      in one /24: an IPv6 address is never grouped with another. */
  lemma PlacesGroupIff(a: string, b: string)
    requires (IsIPv4(a) || ':' in a) && (IsIPv4(b) || ':' in b)
    ensures SubnetKey(a) == SubnetKey(b) <==> a == b || Neighbours(a, b)
  {
    hide IsOctet, LastDot;
    Split(a);
    Split(b);
    if Neighbours(a, b) {
      var net, x, y :| IsDotted(net, 3) && IsOctet(x) && IsOctet(y) && a == net + "." + x && b == net + "." + y;
      SubnetOf(net, x);
      SubnetOf(net, y);
    }
  }

  lemma Split(a: string)
    requires IsIPv4(a) || ':' in a
    ensures IsIPv4(a) <==> ':' !in a
    ensures IsIPv4(a) ==> ':' !in SubnetKey(a) && IsDotted(SubnetKey(a), 3)
    ensures IsIPv4(a) ==> |SubnetKey(a)| < |a| && IsOctet(a[|SubnetKey(a)| + 1..]) && a == SubnetKey(a) + "." + a[|SubnetKey(a)| + 1..]
  {
    hide IsOctet;
    if IsIPv4(a) {
      DottedIsPlain(a, 4);
      var k := LastDot(a).value;
      assert a == a[..k] + "." + a[k + 1..];
    }
  }

  // ---------------------------------------------------------------------------
  // The kinds are what the keys make of them
  // ---------------------------------------------------------------------------

  lemma Kinds(c: Connection, cfg: Config, ht: bool)
    requires !FallbackIgnored(cfg)
    ensures Direct(c, cfg, ht) <==> Ordinary(c, cfg)
    ensures ViaCdnInbound(c, cfg, ht) <==> OnCdnInbound(c, cfg)
    ensures ViaCdnNode(c, cfg, ht) <==> OnCdnNode(c, cfg)
  {
  }

  /** Two sets in which each element of one has its own in the other are equally large. */
  lemma Paired<A(!new), B(!new)>(a: set<A>, b: set<B>, f: A -> B, g: B -> A)
    requires forall x :: x in a ==> f(x) in b && g(f(x)) == x
    requires forall y :: y in b ==> g(y) in a && f(g(y)) == y
    ensures |a| == |b|
  {
    ImageSize(a, b, f);
    ImageSize(b, a, g);
  }

  lemma CdnNodesApartIff(cs: set<Connection>, cfg: Config, ht: bool)
    requires !FallbackIgnored(cfg)
    ensures LoneCdnNode(cs, cfg, ht) <==> CdnNodesApart(cs, cfg)
  {
    forall c ensures Direct(c, cfg, ht) <==> Ordinary(c, cfg)
             ensures ViaCdnInbound(c, cfg, ht) <==> OnCdnInbound(c, cfg)
             ensures ViaCdnNode(c, cfg, ht) <==> OnCdnNode(c, cfg)
    {
      Kinds(c, cfg, ht);
    }
    hide Direct, ViaCdnInbound, ViaCdnNode, Ordinary, OnCdnInbound, OnCdnNode;
    if CdnNodesApart(cs, cfg) {
      forall c, d | c in cs && d in cs && ViaCdnNode(c, cfg, ht) && (Direct(d, cfg, ht) || ViaCdnInbound(d, cfg, ht))
        ensures Observed(c, cfg) != Observed(d, cfg)
      {
        assert Observed(c, cfg) == Observed(d, cfg) ==> SameClient(c, d, cfg);
      }
      var c :| c in cs && OnCdnNode(c, cfg);
      assert Observed(c, cfg) in CdnNodeSeen(cs, cfg, ht);
    }
    if LoneCdnNode(cs, cfg, ht) {
      forall c, d | c in cs && d in cs && OnCdnNode(c, cfg) && SameClient(c, d, cfg)
        ensures !Ordinary(d, cfg) && !OnCdnInbound(d, cfg)
      {
        assert Observed(c, cfg) == Observed(d, cfg);
        assert Observed(c, cfg) in CdnNodeSeen(cs, cfg, ht);
      }
      var o :| o in CdnNodeSeen(cs, cfg, ht);
    }
  }

  // ---------------------------------------------------------------------------
  // "device" mode
  // ---------------------------------------------------------------------------

  lemma TrustedKeys(cs: set<Connection>, cfg: Config)
    requires cfg.mode == DeviceMode
    ensures |DirectKeys(cs, cfg, true)| == |Inbounds(cs, cfg)|
  {
    forall c | c in cs && Ordinary(c, cfg)
      ensures Direct(c, cfg, true) && HighTrust(c.inbound) in DirectKeys(cs, cfg, true) && c.inbound in Inbounds(cs, cfg) {
      assert Key(c, cfg, true) == Some(HighTrust(c.inbound));
    }
    Paired(DirectKeys(cs, cfg, true), Inbounds(cs, cfg),
           (k: DeviceKey) => if k.HighTrust? then k.inbound else "", (s: string) => HighTrust(s));
  }

  function PlaceKey(p: (string, string), cfg: Config): DeviceKey {
    if cfg.subnetGrouping then SubnetInbound(p.0, p.1) else Address(p.0, p.1)
  }

  function KeyPlace(k: DeviceKey): (string, string) {
    match k
    case SubnetInbound(net, inbound) => (net, inbound)
    case Address(ip, inbound) => (ip, inbound)
    case _ => ("", "")
  }

  lemma PlaceKeys(cs: set<Connection>, cfg: Config)
    requires cfg.mode == DeviceMode
    ensures |DirectKeys(cs, cfg, false)| == |PlacesAndInbounds(cs, cfg)|
  {
    hide SubnetKey;
    forall c | c in cs && Ordinary(c, cfg)
      ensures Direct(c, cfg, false) && PlaceKey((Place(c, cfg), c.inbound), cfg) in DirectKeys(cs, cfg, false)
      ensures (Place(c, cfg), c.inbound) in PlacesAndInbounds(cs, cfg)
    {
      assert Key(c, cfg, false) == Some(PlaceKey((Place(c, cfg), c.inbound), cfg));
    }
    Paired(DirectKeys(cs, cfg, false), PlacesAndInbounds(cs, cfg),
           (k: DeviceKey) => KeyPlace(k), (p: (string, string)) => PlaceKey(p, cfg));
  }

  lemma CdnInboundTags(cs: set<Connection>, cfg: Config, ht: bool)
    requires cfg.mode == DeviceMode
    ensures |CdnInboundKeys(cs, cfg, ht)| == |CdnInbounds(cs, cfg)|
  {
    hide SubnetKey;
    forall c | c in cs && OnCdnInbound(c, cfg)
      ensures ViaCdnInbound(c, cfg, ht) && CdnInbound(c.inbound) in CdnInboundKeys(cs, cfg, ht) && c.inbound in CdnInbounds(cs, cfg) {
      assert Key(c, cfg, ht) == Some(CdnInbound(c.inbound));
    }
    Paired(CdnInboundKeys(cs, cfg, ht), CdnInbounds(cs, cfg),
           (k: DeviceKey) => if k.CdnInbound? then k.tag else "", (s: string) => CdnInbound(s));
  }

  /** "device" mode: each inbound of a trusted user, otherwise each address (or /24)
      on each inbound, is a device; so is each CDN inbound; and all CDN nodes together
      are one more when none of their clients is seen elsewhere. */
  lemma DeviceModeCounts(cs: set<Connection>, cfg: Config, ht: bool)
    requires cfg.mode == DeviceMode
    ensures CompleteCount(cs, cfg, ht) ==
      (if ht then |Inbounds(cs, cfg)| else |PlacesAndInbounds(cs, cfg)|)
      + |CdnInbounds(cs, cfg)| + (if CdnNodesApart(cs, cfg) then 1 else 0)
  {
    if ht { TrustedKeys(cs, cfg); } else { PlaceKeys(cs, cfg); }
    CdnInboundTags(cs, cfg, ht);
    DeviceModeKeepsEveryCdnInbound(cs, cfg, ht);
    CdnNodesApartIff(cs, cfg, ht);
  }

  // ---------------------------------------------------------------------------
  // "ip" mode
  // ---------------------------------------------------------------------------

  lemma AddressKeysOf(cs: set<Connection>, cfg: Config, ht: bool)
    requires cfg.mode == IpMode
    ensures |DirectKeys(cs, cfg, ht)| == |Places(cs, cfg)|
  {
    hide SubnetKey;
    forall c | c in cs && Ordinary(c, cfg)
      ensures Direct(c, cfg, ht) && IpKey(Place(c, cfg), cfg) in DirectKeys(cs, cfg, ht) && Place(c, cfg) in Places(cs, cfg)
    {
      assert Key(c, cfg, ht) == Some(IpKey(Place(c, cfg), cfg));
    }
    Paired(DirectKeys(cs, cfg, ht), Places(cs, cfg),
           (k: DeviceKey) => match k { case SubnetGroup(net) => net case IpOnly(ip) => ip case _ => "" },
           (s: string) => IpKey(s, cfg));
  }

  function IpKey(place: string, cfg: Config): DeviceKey {
    if cfg.subnetGrouping then SubnetGroup(place) else IpOnly(place)
  }

  lemma CdnInboundsApartIff(cs: set<Connection>, cfg: Config, ht: bool)
    requires cfg.mode == IpMode
    ensures LoneBuckets(cs, cfg, ht) == if CdnInboundsApart(cs, cfg) then {CdnInboundGroup} else {}
  {
    forall c ensures Direct(c, cfg, ht) <==> Ordinary(c, cfg)
             ensures ViaCdnInbound(c, cfg, ht) <==> OnCdnInbound(c, cfg)
             ensures ViaCdnInbound(c, cfg, ht) ==> Key(c, cfg, ht).value == CdnInboundGroup
    {
      Kinds(c, cfg, ht);
    }
    hide Direct, ViaCdnInbound, Ordinary, OnCdnInbound, Key;
    if CdnInboundsApart(cs, cfg) {
      forall c, d | c in cs && d in cs && ViaCdnInbound(c, cfg, ht) && Direct(d, cfg, ht)
        ensures Observed(c, cfg) != Observed(d, cfg)
      {
        assert Observed(c, cfg) == Observed(d, cfg) ==> SameClient(c, d, cfg);
      }
      var c :| c in cs && OnCdnInbound(c, cfg);
      assert Key(c, cfg, ht).value in CdnInboundKeys(cs, cfg, ht);
    } else if CdnInboundGroup in CdnInboundKeys(cs, cfg, ht) {
      var c, d :| c in cs && d in cs && OnCdnInbound(c, cfg) && SameClient(c, d, cfg) && Ordinary(d, cfg);
      assert Observed(c, cfg) == Observed(d, cfg);
      assert Observed(c, cfg) in BucketSeen(cs, cfg, ht, CdnInboundGroup) && Observed(d, cfg) in DirectSeen(cs, cfg, ht);
    }
  }

  /** "ip" mode: each address (or /24) is a device; all CDN inbounds together are one
      more, and so are all CDN nodes, when none of their clients is seen elsewhere. */
  lemma IpModeCounts(cs: set<Connection>, cfg: Config, ht: bool)
    requires cfg.mode == IpMode
    ensures CompleteCount(cs, cfg, ht) ==
      |Places(cs, cfg)| + (if CdnInboundsApart(cs, cfg) then 1 else 0) + (if CdnNodesApart(cs, cfg) then 1 else 0)
  {
    AddressKeysOf(cs, cfg, ht);
    CdnInboundsApartIff(cs, cfg, ht);
    CdnNodesApartIff(cs, cfg, ht);
    hide DirectKeys, LoneBuckets, LoneCdnNode, CdnInboundsApart, CdnNodesApart, Places;
  }

  // ---------------------------------------------------------------------------
  // "inbound" and "node" modes
  // ---------------------------------------------------------------------------

  lemma NoCdn(cs: set<Connection>, cfg: Config, ht: bool)
    requires FallbackIgnored(cfg)
    ensures CompleteCount(cs, cfg, ht) == |DirectKeys(cs, cfg, ht)| == PartialCount(cs, cfg, ht)
  {
    forall c ensures !ViaCdnInbound(c, cfg, ht) && !ViaCdnNode(c, cfg, ht) {
      hide Strip;
    }
    assert CdnInboundKeys(cs, cfg, ht) == {} && CdnNodeSeen(cs, cfg, ht) == {} && LoneBuckets(cs, cfg, ht) == {};
  }

  predicate Blank(s: string) {
    forall c <- s :: IsSpace(c)
  }

  /** A tag is what stands between its first and its last character that is no blank. */
  lemma {:induction false} StripTrims(before: string, tag: string, after: string)
    requires Blank(before) && Blank(after)
    requires tag != "" ==> !IsSpace(tag[0]) && !IsSpace(tag[|tag| - 1])
    ensures Strip(before + tag + after) == tag
    decreases |before| + |after|
  {
    hide IsSpace;
    var s := before + tag + after;
    if before != "" {
      assert IsSpace(before[0]);
      assert s[1..] == before[1..] + tag + after;
      StripTrims(before[1..], tag, after);
    } else if tag == "" && after != "" {
      assert IsSpace(after[0]);
      assert s[1..] == "" + "" + after[1..];
      StripTrims("", "", after[1..]);
    } else if after != "" {
      assert IsSpace(after[|after| - 1]);
      assert s[..|s| - 1] == "" + tag + after[..|after| - 1];
      StripTrims("", tag, after[..|after| - 1]);
    }
  }

  /** "inbound" mode: each inbound tag that is neither blank nor "Unknown". */
  lemma InboundModeCounts(cs: set<Connection>, cfg: Config, ht: bool)
    requires cfg.mode == InboundMode
    ensures CompleteCount(cs, cfg, ht) == |Tags(cs, cfg)| == PartialCount(cs, cfg, ht)
  {
    NoCdn(cs, cfg, ht);
    hide Strip;
    forall c | c in cs && !NodeIn(c.node, cfg.disabledNodes) && Strip(c.inbound) != "" && Strip(c.inbound) != "Unknown"
      ensures Direct(c, cfg, ht) && InboundOnly(Strip(c.inbound)) in DirectKeys(cs, cfg, ht) && Strip(c.inbound) in Tags(cs, cfg)
    {
      assert Key(c, cfg, ht) == Some(InboundOnly(Strip(c.inbound)));
    }
    Paired(DirectKeys(cs, cfg, ht), Tags(cs, cfg),
           (k: DeviceKey) => if k.InboundOnly? then k.tag else "", (s: string) => InboundOnly(s));
  }

  /** "node" mode: each eligible node that is not disabled. */
  lemma NodeModeCounts(cs: set<Connection>, cfg: Config, ht: bool)
    requires cfg.mode == NodeMode
    ensures CompleteCount(cs, cfg, ht) == |Nodes(cs, cfg)| == PartialCount(cs, cfg, ht)
  {
    NoCdn(cs, cfg, ht);
    hide Strip, SubnetKey;
    forall c | c in cs && c.node.Some? && cfg.eligibleNodes.Some?
               && c.node.value in cfg.eligibleNodes.value && c.node.value !in cfg.disabledNodes
      ensures Direct(c, cfg, ht) && NodeOnly(c.node.value) in DirectKeys(cs, cfg, ht) && c.node.value in Nodes(cs, cfg)
    {
      assert Key(c, cfg, ht) == Some(NodeOnly(c.node.value));
    }
    Paired(DirectKeys(cs, cfg, ht), Nodes(cs, cfg),
           (k: DeviceKey) => if k.NodeOnly? then k.node else 0, (n: int) => NodeOnly(n));
  }

  // ---------------------------------------------------------------------------
  // Incomplete evidence, and the usual case
  // ---------------------------------------------------------------------------

  /** From incomplete evidence CDN clients count for at most one, and only when no
      ordinary device is counted. */
  lemma PartialCounts(cs: set<Connection>, cfg: Config, ht: bool)
    requires !FallbackIgnored(cfg)
    ensures var devices := if cfg.mode == IpMode then |Places(cs, cfg)|
                           else if ht then |Inbounds(cs, cfg)| else |PlacesAndInbounds(cs, cfg)|;
      PartialCount(cs, cfg, ht) ==
        if devices == 0 && (exists c :: c in cs && (OnCdnNode(c, cfg) || OnCdnInbound(c, cfg))) then 1 else devices
  {
    if cfg.mode == IpMode { AddressKeysOf(cs, cfg, ht); } else if ht { TrustedKeys(cs, cfg); } else { PlaceKeys(cs, cfg); }
    forall c ensures ViaCdnInbound(c, cfg, ht) <==> OnCdnInbound(c, cfg)
             ensures ViaCdnNode(c, cfg, ht) <==> OnCdnNode(c, cfg)
    {
      Kinds(c, cfg, ht);
    }
    hide DirectKeys, Places, Inbounds, PlacesAndInbounds, ViaCdnInbound, ViaCdnNode, OnCdnInbound, OnCdnNode, Key, Observed;
    if CdnNodeSeen(cs, cfg, ht) != {} {
      var o :| o in CdnNodeSeen(cs, cfg, ht);
    } else if CdnInboundKeys(cs, cfg, ht) != {} {
      var k :| k in CdnInboundKeys(cs, cfg, ht);
    }
    forall c | c in cs && (OnCdnNode(c, cfg) || OnCdnInbound(c, cfg))
      ensures CdnNodeSeen(cs, cfg, ht) != {} || CdnInboundKeys(cs, cfg, ht) != {}
    {
      assert OnCdnNode(c, cfg) ==> Observed(c, cfg) in CdnNodeSeen(cs, cfg, ht);
      assert OnCdnInbound(c, cfg) ==> Key(c, cfg, ht).value in CdnInboundKeys(cs, cfg, ht);
    }
  }

  /** With no grouping and no exception configured, every address on every inbound is
      a device of its own. */
  lemma EveryObservationIsADevice(cs: set<Connection>, cfg: Config)
    requires cfg.mode == DeviceMode && !cfg.subnetGrouping
    requires cfg.cdnInbounds == {} && cfg.cdnNodes == {} && cfg.disabledNodes == {}
    ensures CompleteCount(cs, cfg, false) == |Observations(cs, cfg)|
  {
    DeviceModeCounts(cs, cfg, false);
    assert forall c :: Ordinary(c, cfg);
    assert CdnInbounds(cs, cfg) == {} && !CdnNodesApart(cs, cfg);
    Paired(Observations(cs, cfg), PlacesAndInbounds(cs, cfg),
           (o: Observation) => (o.ip, o.inbound), (p: (string, string)) => Observation(p.0, p.1));
  }
}
