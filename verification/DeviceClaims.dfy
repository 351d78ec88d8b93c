/** What a device count proves (utils/device_count.py): lower bounds from partial
    samples, upper bounds, and agreement with the count of bare addresses. */
module DeviceClaims {
  import opened Collections
  import opened DeviceCount

  // ---------------------------------------------------------------------------
  // Partial samples
  // ---------------------------------------------------------------------------

  /** Any CDN observation, in any sample, is worth at least one counted device. */
  lemma CdnEvidenceCounts(cs: set<Connection>, cfg: Config, ht: bool)
    requires CdnNodeSeen(cs, cfg, ht) != {} || CdnInboundKeys(cs, cfg, ht) != {}
    ensures CompleteCount(cs, cfg, ht) >= 1
  {
    assert forall c :: c in cs && ViaCdnInbound(c, cfg, ht) ==> Key(c, cfg, ht).value in CdnInboundKeys(cs, cfg, ht);
    if CdnInboundKeys(cs, cfg, ht) != {} {
      var k :| k in CdnInboundKeys(cs, cfg, ht);
      if k !in LoneBuckets(cs, cfg, ht) {
        var o :| o in DirectSeen(cs, cfg, ht);
        var c :| c in cs && Direct(c, cfg, ht);
        assert Key(c, cfg, ht).value in DirectKeys(cs, cfg, ht);
      }
    } else if !LoneCdnNode(cs, cfg, ht) {
      var o :| o in OutsideCdnNodeSeen(cs, cfg, ht);
      var c :| c in cs && (Direct(c, cfg, ht) || ViaCdnInbound(c, cfg, ht));
      assert Key(c, cfg, ht).value in DirectKeys(cs, cfg, ht);
    }
  }

  /** The partial count of a sample is at most the complete count of any sample
      that contains it, although the complete count is not monotone. */
  lemma PartialIsLowerBound(sub: set<Connection>, sup: set<Connection>, cfg: Config, ht: bool)
    requires sub <= sup
    ensures PartialCount(sub, cfg, ht) <= CompleteCount(sup, cfg, ht)
  {
    SubsetSize(DirectKeys(sub, cfg, ht), DirectKeys(sup, cfg, ht));
    if CdnNodeSeen(sub, cfg, ht) != {} {
      var o :| o in CdnNodeSeen(sub, cfg, ht);
      assert o in CdnNodeSeen(sup, cfg, ht);
      CdnEvidenceCounts(sup, cfg, ht);
    } else if CdnInboundKeys(sub, cfg, ht) != {} {
      var k :| k in CdnInboundKeys(sub, cfg, ht);
      assert k in CdnInboundKeys(sup, cfg, ht);
      CdnEvidenceCounts(sup, cfg, ht);
    }
  }

  /** A completion knows at least the eligible nodes of its sample. */
  predicate MoreEligible(cfg: Config, more: Option<set<int>>) {
    cfg.eligibleNodes.Some? ==> more.Some? && cfg.eligibleNodes.value <= more.value
  }

  /** A connection that is counted keeps its key when more nodes are eligible. */
  lemma MoreEligibleKey(c: Connection, cfg: Config, more: Option<set<int>>, ht: bool)
    requires MoreEligible(cfg, more)
    ensures cfg.mode == NodeMode ==>
      Key(c, cfg, ht).Some? ==> Key(c, cfg.(eligibleNodes := more), ht) == Key(c, cfg, ht) && Direct(c, cfg, ht)
    ensures cfg.mode != NodeMode ==> Key(c, cfg.(eligibleNodes := more), ht) == Key(c, cfg, ht)
  {
  }

  /** The same bound when the completion also knows more eligible nodes, as a complete log
      sample does. */
  lemma PartialIsLowerBoundAcross(sub: set<Connection>, sup: set<Connection>, cfg: Config, more: Option<set<int>>, ht: bool)
    requires sub <= sup && MoreEligible(cfg, more)
    ensures PartialCount(sub, cfg, ht) <= CompleteCount(sup, cfg.(eligibleNodes := more), ht)
  {
    var cfg2 := cfg.(eligibleNodes := more);
    forall c ensures cfg.mode != NodeMode ==> Key(c, cfg2, ht) == Key(c, cfg, ht)
             ensures cfg.mode == NodeMode && Key(c, cfg, ht).Some? ==> Key(c, cfg2, ht) == Key(c, cfg, ht) && Direct(c, cfg, ht) {
      MoreEligibleKey(c, cfg, more, ht);
    }
    hide SubnetKey, Key;
    forall k | k in DirectKeys(sub, cfg, ht) ensures k in DirectKeys(sub, cfg2, ht) {
      var c :| c in sub && Direct(c, cfg, ht) && Key(c, cfg, ht).value == k;
      assert Direct(c, cfg2, ht);
    }
    SubsetSize(DirectKeys(sub, cfg, ht), DirectKeys(sub, cfg2, ht));
    assert CdnNodeSeen(sub, cfg, ht) != {} ==> CdnNodeSeen(sub, cfg2, ht) != {} by {
      if o :| o in CdnNodeSeen(sub, cfg, ht) {
        var c :| c in sub && ViaCdnNode(c, cfg, ht) && Observed(c, cfg) == o;
        assert Observed(c, cfg2) in CdnNodeSeen(sub, cfg2, ht);
      }
    }
    assert CdnInboundKeys(sub, cfg, ht) != {} ==> CdnInboundKeys(sub, cfg2, ht) != {} by {
      if k :| k in CdnInboundKeys(sub, cfg, ht) {
        var c :| c in sub && ViaCdnInbound(c, cfg, ht) && Key(c, cfg, ht).value == k;
        assert Key(c, cfg2, ht).value in CdnInboundKeys(sub, cfg2, ht);
      }
    }
    PartialIsLowerBound(sub, sup, cfg2, ht);
  }

  const SHARED := Config({"cdn"}, {}, {}, false, false, 0.0, IpMode, None)
  const VIA_CDN := Connection("a", None, "cdn")
  const DIRECT := Connection("b", None, "direct")
  const DIRECT_VIA_CDN := Connection("b", None, "cdn")

  /** Why the partial form is needed: one more observation can lower the count. */
  lemma CompleteCountIsNotMonotone()
    ensures CompleteCount({VIA_CDN, DIRECT}, SHARED, false) == 2
    ensures CompleteCount({VIA_CDN, DIRECT, DIRECT_VIA_CDN}, SHARED, false) == 1
  {
    hide SubnetKey;
    assert Key(VIA_CDN, SHARED, false) == Some(CdnInboundGroup) == Key(DIRECT_VIA_CDN, SHARED, false);
    assert Key(DIRECT, SHARED, false) == Some(IpOnly("b"));
    CountOfShared({VIA_CDN, DIRECT}, false);
    CountOfShared({VIA_CDN, DIRECT, DIRECT_VIA_CDN}, true);
  }

  lemma CountOfShared(cs: set<Connection>, overlap: bool)
    requires {VIA_CDN, DIRECT} <= cs <= {VIA_CDN, DIRECT, DIRECT_VIA_CDN}
    requires overlap <==> DIRECT_VIA_CDN in cs
    requires Key(VIA_CDN, SHARED, false) == Some(CdnInboundGroup) == Key(DIRECT_VIA_CDN, SHARED, false)
    requires Key(DIRECT, SHARED, false) == Some(IpOnly("b"))
    ensures CompleteCount(cs, SHARED, false) == if overlap then 1 else 2
  {
    hide Key;
    assert DirectKeys(cs, SHARED, false) == {IpOnly("b")};
    assert DirectSeen(cs, SHARED, false) == {Observation("b", "")};
    assert Observed(VIA_CDN, SHARED) in BucketSeen(cs, SHARED, false, CdnInboundGroup);
    assert overlap ==> Observed(DIRECT_VIA_CDN, SHARED) in BucketSeen(cs, SHARED, false, CdnInboundGroup);
    assert CdnInboundKeys(cs, SHARED, false) == {CdnInboundGroup};
    assert LoneBuckets(cs, SHARED, false) == if overlap then {} else {CdnInboundGroup};
    assert CdnNodeSeen(cs, SHARED, false) == {};
  }

  // ---------------------------------------------------------------------------
  // The empty sample
  // ---------------------------------------------------------------------------

  /** What an empty sample may claim without exceeding any completion. */
  function SafeFallback(cfg: Config): int {
    if cfg.disabledNodes == {} then 1 else 0
  }

  predicate FallbackIgnored(cfg: Config) {
    cfg.mode == InboundMode || cfg.mode == NodeMode
  }

  lemma EveryConnectionCounts(cs: set<Connection>, cfg: Config, ht: bool)
    requires cs != {} && cfg.disabledNodes == {} && !FallbackIgnored(cfg)
    ensures CompleteCount(cs, cfg, ht) >= 1
  {
    var c :| c in cs;
    assert Key(c, cfg, ht).Some?;
    if Direct(c, cfg, ht) {
      assert Key(c, cfg, ht).value in DirectKeys(cs, cfg, ht);
    } else {
      assert ViaCdnInbound(c, cfg, ht) ==> Key(c, cfg, ht).value in CdnInboundKeys(cs, cfg, ht);
      assert ViaCdnNode(c, cfg, ht) ==> Observed(c, cfg) in CdnNodeSeen(cs, cfg, ht);
      CdnEvidenceCounts(cs, cfg, ht);
    }
  }

  lemma OneConnection(c: Connection, cfg: Config, ht: bool)
    ensures CompleteCount({c}, cfg, ht) <= 1
    ensures Key(c, cfg, ht).None? ==> CompleteCount({c}, cfg, ht) == 0
  {
    var o := Observed(c, cfg);
    if Key(c, cfg, ht).Some? {
      var k := Key(c, cfg, ht).value;
      assert DirectKeys({c}, cfg, ht) == if Direct(c, cfg, ht) then {k} else {};
      assert CdnInboundKeys({c}, cfg, ht) == if ViaCdnInbound(c, cfg, ht) then {k} else {};
      SubsetSize(LoneBuckets({c}, cfg, ht), CdnInboundKeys({c}, cfg, ht));
      assert ViaCdnNode(c, cfg, ht) || CdnNodeSeen({c}, cfg, ht) == {};
    } else {
      assert DirectKeys({c}, cfg, ht) == {} && CdnInboundKeys({c}, cfg, ht) == {} && CdnNodeSeen({c}, cfg, ht) == {};
      assert LoneBuckets({c}, cfg, ht) == {};
    }
  }

  ghost predicate LowerBounds(sub: seq<Connection>, sup: seq<Connection>, cfg: Config, trustScore: real, fallback: int) {
    DeviceTotal(sub, cfg, true, trustScore, fallback) <= DeviceTotal(sup, cfg, false, trustScore, fallback)
  }

  /** count_devices on a partial sample never exceeds its count on any completion
      exactly when the sample has a connection, or the mode ignores the fallback,
      or the fallback is no more than any connection at all would count. */
  lemma PartialTotalIsSoundIff(sub: seq<Connection>, cfg: Config, trustScore: real, fallback: int)
    ensures (forall sup: seq<Connection> | Elements(sub) <= Elements(sup) :: LowerBounds(sub, sup, cfg, trustScore, fallback))
            <==> |sub| > 0 || FallbackIgnored(cfg) || fallback <= SafeFallback(cfg)
  {
    var ht := AppliesHighTrust(cfg, trustScore);
    if |sub| > 0 {
      forall sup: seq<Connection> | Elements(sub) <= Elements(sup) ensures LowerBounds(sub, sup, cfg, trustScore, fallback) {
        assert sub[0] in Elements(sub);
        PartialIsLowerBound(Elements(sub), Elements(sup), cfg, ht);
      }
    } else if FallbackIgnored(cfg) || fallback <= SafeFallback(cfg) {
      forall sup: seq<Connection> | Elements(sub) <= Elements(sup) ensures LowerBounds(sub, sup, cfg, trustScore, fallback) {
        if |sup| > 0 && !FallbackIgnored(cfg) && cfg.disabledNodes == {} {
          assert sup[0] in Elements(sup);
          EveryConnectionCounts(Elements(sup), cfg, ht);
        }
      }
    } else {
      var node := None;
      if cfg.disabledNodes != {} {
        var n := Member(cfg.disabledNodes);
        node := Some(n);
      }
      var c := Connection("", node, "");
      OneConnection(c, cfg, ht);
      var sup := [c];
      assert Elements(sup) == {c};
      assert node.Some? ==> Key(c, cfg, ht).None?;
      assert Elements(sub) <= Elements(sup) && !LowerBounds(sub, sup, cfg, trustScore, fallback);
    }
  }

  // ---------------------------------------------------------------------------
  // What one more connection does to a complete count
  // ---------------------------------------------------------------------------

  /** The lone buckets that an observation counted outside them suppresses. */
  function Suppressed(cs: set<Connection>, cfg: Config, ht: bool, o: Observation): set<DeviceKey> {
    set k | k in LoneBuckets(cs, cfg, ht) && o in BucketSeen(cs, cfg, ht, k)
  }

  function One(b: bool): nat {
    if b then 1 else 0
  }

  /** A new direct key, a new lone bucket, or the first lone CDN node. */
  function Gain(cs: set<Connection>, c: Connection, cfg: Config, ht: bool): nat {
    var o := Observed(c, cfg);
    if Direct(c, cfg, ht) then One(Key(c, cfg, ht).value !in DirectKeys(cs, cfg, ht))
    else if ViaCdnInbound(c, cfg, ht) then
      One(Key(c, cfg, ht).value !in CdnInboundKeys(cs, cfg, ht) && o !in DirectSeen(cs, cfg, ht))
    else if ViaCdnNode(c, cfg, ht) then One(CdnNodeSeen(cs, cfg, ht) == {} && o !in OutsideCdnNodeSeen(cs, cfg, ht))
    else 0
  }

  /** Buckets and the CDN node that the observation shows to be someone already counted. */
  function Loss(cs: set<Connection>, c: Connection, cfg: Config, ht: bool): nat {
    var o := Observed(c, cfg);
    var node := One(LoneCdnNode(cs, cfg, ht) && o in CdnNodeSeen(cs, cfg, ht));
    if Direct(c, cfg, ht) then |Suppressed(cs, cfg, ht, o)| + node
    else if ViaCdnInbound(c, cfg, ht) then
      One(Key(c, cfg, ht).value in LoneBuckets(cs, cfg, ht) && o in DirectSeen(cs, cfg, ht)) + node
    else if ViaCdnNode(c, cfg, ht) then One(LoneCdnNode(cs, cfg, ht) && o in OutsideCdnNodeSeen(cs, cfg, ht))
    else 0
  }

  /** Which buckets are lone after one more connection. */
  lemma LoneAt(cs: set<Connection>, c: Connection, cfg: Config, ht: bool, k: DeviceKey)
    ensures var o, lone := Observed(c, cfg), k in LoneBuckets(cs, cfg, ht);
      k in LoneBuckets(cs + {c}, cfg, ht) <==>
        if Direct(c, cfg, ht) then lone && o !in BucketSeen(cs, cfg, ht, k)
        else if ViaCdnInbound(c, cfg, ht) && Key(c, cfg, ht).value == k then
          o !in DirectSeen(cs, cfg, ht) && (lone || k !in CdnInboundKeys(cs, cfg, ht))
        else lone
  {
    DirectAdd(cs, c, cfg, ht);
    BucketAdd(cs, c, cfg, ht, k);
    hide Key, DirectSeen, BucketSeen, CdnInboundKeys, DirectKeys, CdnNodeSeen, OutsideCdnNodeSeen;
  }

  lemma LoneWithDirect(cs: set<Connection>, c: Connection, cfg: Config, ht: bool)
    requires Direct(c, cfg, ht)
    ensures LoneBuckets(cs + {c}, cfg, ht) == LoneBuckets(cs, cfg, ht) - Suppressed(cs, cfg, ht, Observed(c, cfg))
  {
    forall k ensures k in LoneBuckets(cs + {c}, cfg, ht) <==>
                     k in LoneBuckets(cs, cfg, ht) - Suppressed(cs, cfg, ht, Observed(c, cfg)) {
      LoneAt(cs, c, cfg, ht, k);
      hide LoneBuckets, BucketSeen;
    }
    hide LoneBuckets, Suppressed;
    SameSet(LoneBuckets(cs + {c}, cfg, ht), LoneBuckets(cs, cfg, ht) - Suppressed(cs, cfg, ht, Observed(c, cfg)));
  }

  lemma LoneWithInbound(cs: set<Connection>, c: Connection, cfg: Config, ht: bool)
    requires ViaCdnInbound(c, cfg, ht)
    ensures var o, k, lone := Observed(c, cfg), Key(c, cfg, ht).value, LoneBuckets(cs, cfg, ht);
      LoneBuckets(cs + {c}, cfg, ht) ==
        if o in DirectSeen(cs, cfg, ht) then lone - {k} else if k in CdnInboundKeys(cs, cfg, ht) then lone else lone + {k}
  {
    var o, k, lone := Observed(c, cfg), Key(c, cfg, ht).value, LoneBuckets(cs, cfg, ht);
    var want := if o in DirectSeen(cs, cfg, ht) then lone - {k} else if k in CdnInboundKeys(cs, cfg, ht) then lone else lone + {k};
    forall x ensures x in LoneBuckets(cs + {c}, cfg, ht) <==> x in want {
      LoneAt(cs, c, cfg, ht, x);
      hide LoneBuckets, BucketSeen, Key;
    }
    hide LoneBuckets;
    SameSet(LoneBuckets(cs + {c}, cfg, ht), want);
  }

  lemma LoneWithOther(cs: set<Connection>, c: Connection, cfg: Config, ht: bool)
    requires !Direct(c, cfg, ht) && !ViaCdnInbound(c, cfg, ht)
    ensures LoneBuckets(cs + {c}, cfg, ht) == LoneBuckets(cs, cfg, ht)
  {
    forall k ensures k in LoneBuckets(cs + {c}, cfg, ht) <==> k in LoneBuckets(cs, cfg, ht) {
      LoneAt(cs, c, cfg, ht, k);
      hide LoneBuckets, BucketSeen;
    }
    hide LoneBuckets;
    SameSet(LoneBuckets(cs + {c}, cfg, ht), LoneBuckets(cs, cfg, ht));
  }

  lemma NodeWith(cs: set<Connection>, c: Connection, cfg: Config, ht: bool)
    ensures var o, lone := Observed(c, cfg), LoneCdnNode(cs, cfg, ht);
      LoneCdnNode(cs + {c}, cfg, ht) <==>
        if ViaCdnNode(c, cfg, ht) then o !in OutsideCdnNodeSeen(cs, cfg, ht) && (lone || CdnNodeSeen(cs, cfg, ht) == {})
        else if Direct(c, cfg, ht) || ViaCdnInbound(c, cfg, ht) then lone && o !in CdnNodeSeen(cs, cfg, ht)
        else lone
  {
    OutsideAdd(cs, c, cfg, ht);
    hide Key, DirectKeys, DirectSeen, CdnInboundKeys, CdnNodeSeen, OutsideCdnNodeSeen;
  }

  lemma Plus<T>(a: set<T>, x: T)
    ensures |a + {x}| == |a| + One(x !in a)
  {
    if x in a {
      assert a + {x} == a;
    }
  }

  lemma PlusMinus<T>(a: set<T>, x: T)
    ensures |a + {x}| == |a| + One(x !in a) && |a - {x}| == |a| - One(x in a)
    ensures One(x in a) == if x in a then 1 else 0
  {
    Plus(a, x);
    if x in a {
      assert a == a - {x} + {x};
    } else {
      assert a - {x} == a;
    }
  }

  lemma Minus<T>(a: set<T>, b: set<T>)
    requires b <= a
    ensures |a - b| == |a| - |b|
  {
    assert a == (a - b) + b;
  }

  ghost predicate ChangesByGainAndLoss(cs: set<Connection>, c: Connection, cfg: Config, ht: bool) {
    CompleteCount(cs + {c}, cfg, ht) == CompleteCount(cs, cfg, ht) + Gain(cs, c, cfg, ht) - Loss(cs, c, cfg, ht)
  }

  lemma OneMoreDirect(cs: set<Connection>, c: Connection, cfg: Config, ht: bool)
    requires Direct(c, cfg, ht)
    ensures ChangesByGainAndLoss(cs, c, cfg, ht)
  {
    LoneAreKeys(cs, cfg, ht);
    NodeWith(cs, c, cfg, ht);
    DirectWith(cs, c, cfg, ht);
    hide DirectKeys, DirectSeen, BucketSeen, CdnInboundKeys, CdnNodeSeen, OutsideCdnNodeSeen, LoneBuckets, Suppressed, LoneCdnNode;
    LoneWithDirect(cs, c, cfg, ht);
    Minus(LoneBuckets(cs, cfg, ht), Suppressed(cs, cfg, ht, Observed(c, cfg)));
    Plus(DirectKeys(cs, cfg, ht), Key(c, cfg, ht).value);
  }

  lemma OneMoreInbound(cs: set<Connection>, c: Connection, cfg: Config, ht: bool)
    requires ViaCdnInbound(c, cfg, ht)
    ensures ChangesByGainAndLoss(cs, c, cfg, ht)
  {
    LoneAreKeys(cs, cfg, ht);
    NodeWith(cs, c, cfg, ht);
    DirectWith(cs, c, cfg, ht);
    hide DirectKeys, DirectSeen, BucketSeen, CdnInboundKeys, CdnNodeSeen, OutsideCdnNodeSeen, LoneBuckets, Suppressed, LoneCdnNode;
    LoneWithInbound(cs, c, cfg, ht);
    PlusMinus(LoneBuckets(cs, cfg, ht), Key(c, cfg, ht).value);
    hide Key, One;
  }

  lemma OneMoreOther(cs: set<Connection>, c: Connection, cfg: Config, ht: bool)
    requires !Direct(c, cfg, ht) && !ViaCdnInbound(c, cfg, ht)
    ensures ChangesByGainAndLoss(cs, c, cfg, ht)
  {
    NodeWith(cs, c, cfg, ht);
    DirectWith(cs, c, cfg, ht);
    hide DirectKeys, DirectSeen, BucketSeen, CdnInboundKeys, CdnNodeSeen, OutsideCdnNodeSeen, LoneBuckets, Suppressed, LoneCdnNode;
    LoneWithOther(cs, c, cfg, ht);
  }

  /** One more connection changes a complete count by exactly this; so it lowers the count
      exactly when it shows more of what was counted apart to be already counted than it
      adds. */
  lemma OneMoreConnection(cs: set<Connection>, c: Connection, cfg: Config, ht: bool)
    ensures CompleteCount(cs + {c}, cfg, ht) == CompleteCount(cs, cfg, ht) + Gain(cs, c, cfg, ht) - Loss(cs, c, cfg, ht)
    ensures CompleteCount(cs + {c}, cfg, ht) < CompleteCount(cs, cfg, ht) <==> Gain(cs, c, cfg, ht) < Loss(cs, c, cfg, ht)
  {
    hide CompleteCount, Gain, Loss, Key;
    if Direct(c, cfg, ht) {
      OneMoreDirect(cs, c, cfg, ht);
    } else if ViaCdnInbound(c, cfg, ht) {
      OneMoreInbound(cs, c, cfg, ht);
    } else {
      OneMoreOther(cs, c, cfg, ht);
    }
  }

  lemma DirectWith(cs: set<Connection>, c: Connection, cfg: Config, ht: bool)
    ensures DirectKeys(cs + {c}, cfg, ht) ==
      if Direct(c, cfg, ht) then DirectKeys(cs, cfg, ht) + {Key(c, cfg, ht).value} else DirectKeys(cs, cfg, ht)
    ensures LoneCdnNode(cs, cfg, ht) ==> CdnNodeSeen(cs, cfg, ht) != {}
  {
    DirectAdd(cs, c, cfg, ht);
  }

  lemma LoneAreKeys(cs: set<Connection>, cfg: Config, ht: bool)
    ensures LoneBuckets(cs, cfg, ht) <= CdnInboundKeys(cs, cfg, ht)
    ensures forall o :: Suppressed(cs, cfg, ht, o) <= LoneBuckets(cs, cfg, ht)
  {
  }

  // ---------------------------------------------------------------------------
  // Upper bounds
  // ---------------------------------------------------------------------------

  function Observations(cs: set<Connection>, cfg: Config): set<Observation> {
    set c | c in cs :: Observed(c, cfg)
  }

  /** In "device" mode no CDN inbound is ever suppressed: an observation carries its
      inbound tag, so traffic outside the bucket cannot match it. */
  lemma DeviceModeKeepsEveryCdnInbound(cs: set<Connection>, cfg: Config, ht: bool)
    requires cfg.mode == DeviceMode
    ensures LoneBuckets(cs, cfg, ht) == CdnInboundKeys(cs, cfg, ht)
  {
    forall k | k in CdnInboundKeys(cs, cfg, ht) ensures BucketSeen(cs, cfg, ht, k) !! DirectSeen(cs, cfg, ht) {
      forall o | o in BucketSeen(cs, cfg, ht, k) ensures o !in DirectSeen(cs, cfg, ht) {
        assert o.inbound in cfg.cdnInbounds;
      }
    }
  }

  /** Direct devices are at most their observations: a key is a function of what was
      observed, except that it never sees the node. */
  lemma DirectKeysBounded(cs: set<Connection>, cfg: Config, ht: bool)
    requires !FallbackIgnored(cfg)
    ensures |DirectKeys(cs, cfg, ht)| <= |DirectSeen(cs, cfg, ht)|
  {
    var f := (o: Observation) => DirectKeyOf(o, cfg, ht);
    forall k | k in DirectKeys(cs, cfg, ht) ensures exists o :: o in DirectSeen(cs, cfg, ht) && f(o) == k {
      var c :| c in cs && Direct(c, cfg, ht) && Key(c, cfg, ht).value == k;
      assert Observed(c, cfg) in DirectSeen(cs, cfg, ht) && f(Observed(c, cfg)) == k;
    }
    ImageSize(DirectSeen(cs, cfg, ht), DirectKeys(cs, cfg, ht), f);
  }

  function DirectKeyOf(o: Observation, cfg: Config, ht: bool): DeviceKey {
    if cfg.mode == IpMode then
      if cfg.subnetGrouping then SubnetGroup(SubnetKey(o.ip)) else IpOnly(o.ip)
    else if ht then HighTrust(o.inbound)
    else if cfg.subnetGrouping then SubnetInbound(SubnetKey(o.ip), o.inbound)
    else Address(o.ip, o.inbound)
  }

  /** The observations behind the lone CDN inbound buckets. */
  function LoneSeen(cs: set<Connection>, cfg: Config, ht: bool): set<Observation> {
    set c | c in cs && ViaCdnInbound(c, cfg, ht) && Key(c, cfg, ht).value in LoneBuckets(cs, cfg, ht) :: Observed(c, cfg)
  }

  lemma LoneBucketsBounded(cs: set<Connection>, cfg: Config, ht: bool)
    requires !FallbackIgnored(cfg)
    ensures |LoneBuckets(cs, cfg, ht)| <= |LoneSeen(cs, cfg, ht)|
  {
    hide DirectSeen, BucketSeen;
    var f := (o: Observation) => if cfg.mode == IpMode then CdnInboundGroup else CdnInbound(o.inbound);
    forall k | k in LoneBuckets(cs, cfg, ht) ensures exists o :: o in LoneSeen(cs, cfg, ht) && f(o) == k {
      var c :| c in cs && ViaCdnInbound(c, cfg, ht) && Key(c, cfg, ht).value == k;
      assert Observed(c, cfg) in LoneSeen(cs, cfg, ht) && f(Observed(c, cfg)) == k;
    }
    ImageSize(LoneSeen(cs, cfg, ht), LoneBuckets(cs, cfg, ht), f);
  }

  lemma LoneApart(cs: set<Connection>, cfg: Config, ht: bool)
    ensures LoneSeen(cs, cfg, ht) !! DirectSeen(cs, cfg, ht)
    ensures LoneSeen(cs, cfg, ht) + DirectSeen(cs, cfg, ht) <= OutsideCdnNodeSeen(cs, cfg, ht)
    ensures OutsideCdnNodeSeen(cs, cfg, ht) + CdnNodeSeen(cs, cfg, ht) <= Observations(cs, cfg)
  {
    hide Key, Observed;
    forall o | o in LoneSeen(cs, cfg, ht) ensures o !in DirectSeen(cs, cfg, ht) {
      var c :| c in cs && ViaCdnInbound(c, cfg, ht) && Key(c, cfg, ht).value in LoneBuckets(cs, cfg, ht) && Observed(c, cfg) == o;
      assert o in BucketSeen(cs, cfg, ht, Key(c, cfg, ht).value);
    }
  }

  /** A complete count never exceeds the distinct observations: distinct addresses
      in "ip" mode, distinct (address, inbound) pairs in "device" mode. */
  lemma CompleteCountBounded(cs: set<Connection>, cfg: Config, ht: bool)
    requires !FallbackIgnored(cfg)
    ensures CompleteCount(cs, cfg, ht) <= |Observations(cs, cfg)|
  {
    DirectKeysBounded(cs, cfg, ht);
    LoneBucketsBounded(cs, cfg, ht);
    LoneApart(cs, cfg, ht);
    hide DirectKeys, LoneBuckets, LoneSeen, DirectSeen, OutsideCdnNodeSeen, CdnNodeSeen, Observations;
    var node := if LoneCdnNode(cs, cfg, ht) then CdnNodeSeen(cs, cfg, ht) else {};
    assert node != {} ==> |node| >= 1;
    DisjointSizes(LoneSeen(cs, cfg, ht), DirectSeen(cs, cfg, ht), node, Observations(cs, cfg));
  }

  // ---------------------------------------------------------------------------
  // Bare addresses
  // ---------------------------------------------------------------------------

  /** The keys count_devices_from_ips collects. */
  function AddressKeys(ips: set<string>, cfg: Config): set<DeviceKey> {
    set ip | ip in ips && ip != "" :: if cfg.subnetGrouping then SubnetGroup(SubnetKey(ip)) else IpOnly(ip)
  }

  method CountDevicesFromIps(ips: seq<string>, cfg: Config) returns (count: nat)
    ensures count == if FallbackIgnored(cfg) then 0 else |AddressKeys(Elements(ips), cfg)|
  {
    if cfg.mode == InboundMode || cfg.mode == NodeMode {
      return 0;
    }
    var keys: set<DeviceKey> := {};
    var i := 0;
    assert Elements(ips[..0]) == {} && AddressKeys({}, cfg) == {};
    hide SubnetKey, AddressKeys, Elements;
    while i < |ips|
      invariant 0 <= i <= |ips|
      invariant keys == AddressKeys(Elements(ips[..i]), cfg)
    {
      AddressAdd(Elements(ips[..i]), ips[i], cfg);
      ElementsStep(ips, i);
      if ips[i] != "" {
        keys := keys + {if cfg.subnetGrouping then SubnetGroup(SubnetKey(ips[i])) else IpOnly(ips[i])};
      }
      i := i + 1;
    }
    assert ips[..i] == ips;
    count := |keys|;
  }

  lemma AddressAdd(ips: set<string>, ip: string, cfg: Config)
    ensures AddressKeys(ips + {ip}, cfg) == AddressKeys(ips, cfg) +
              (if ip == "" then {} else {if cfg.subnetGrouping then SubnetGroup(SubnetKey(ip)) else IpOnly(ip)})
  {
    hide SubnetKey;
  }

  function Addresses(cs: set<Connection>): set<string> {
    set c | c in cs :: c.ip
  }

  /** Where no CDN or disabled node applies and every address is known, the full
      count of "ip" mode is the count of the bare addresses. */
  lemma IpModeAgreesWithAddresses(cs: set<Connection>, cfg: Config, ht: bool)
    requires cfg.mode == IpMode
    requires forall c :: c in cs ==>
      c.ip != "" && c.inbound !in cfg.cdnInbounds && !NodeIn(c.node, cfg.cdnNodes) && !NodeIn(c.node, cfg.disabledNodes)
    ensures CompleteCount(cs, cfg, ht) == |AddressKeys(Addresses(cs), cfg)|
  {
    hide SubnetKey;
    forall k ensures k in DirectKeys(cs, cfg, ht) <==> k in AddressKeys(Addresses(cs), cfg) {
      if k in AddressKeys(Addresses(cs), cfg) {
        var ip :| ip in Addresses(cs) && k == if cfg.subnetGrouping then SubnetGroup(SubnetKey(ip)) else IpOnly(ip);
        var c :| c in cs && c.ip == ip;
        assert Direct(c, cfg, ht) && Key(c, cfg, ht).value == k;
      }
      if k in DirectKeys(cs, cfg, ht) {
        var c :| c in cs && Direct(c, cfg, ht) && Key(c, cfg, ht).value == k;
        assert c.ip in Addresses(cs);
      }
    }
    SameSet(DirectKeys(cs, cfg, ht), AddressKeys(Addresses(cs), cfg));
    assert CdnInboundKeys(cs, cfg, ht) == {} && CdnNodeSeen(cs, cfg, ht) == {};
    assert LoneBuckets(cs, cfg, ht) == {};
  }
}
