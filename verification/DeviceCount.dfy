/** Device counting (utils/device_count.py): how many distinct devices a user's
    connections represent, and what a partial sample of them proves. */
module DeviceCount {
  import opened Collections

  /** `count_mode`; every value that is not "ip", "inbound" or "node" acts as "device". */
  datatype Mode = DeviceMode | IpMode | InboundMode | NodeMode

  /** `node` is None when the node id is not an integer, `inbound` is "" when missing. */
  datatype Connection = Connection(ip: string, node: Option<int>, inbound: string)

  datatype Config = Config(
    cdnInbounds: set<string>, cdnNodes: set<int>, disabledNodes: set<int>, subnetGrouping: bool,
    highTrustGrouping: bool, highTrustThreshold: real, mode: Mode, eligibleNodes: Option<set<int>>)

  datatype DeviceKey =
    | NodeOnly(node: int)
    | InboundOnly(tag: string)
    | CdnNode
    | CdnInboundGroup
    | CdnInbound(tag: string)
    | SubnetGroup(net: string)
    | SubnetInbound(net: string, inbound: string)
    | IpOnly(ip: string)
    | HighTrust(inbound: string)
    | Address(ip: string, inbound: string)

  // ---------------------------------------------------------------------------
  // Subnets
  // ---------------------------------------------------------------------------

  /** The position of the last dot, when there is one. */
  function LastDot(s: string): (r: Option<nat>)
    ensures r.Some? ==> r.value < |s| && s[r.value] == '.'
  {
    if |s| == 0 then None
    else if s[|s| - 1] == '.' then Some(|s| - 1)
    else LastDot(s[..|s| - 1])
  }

  /** A decimal octet as the ipaddress module reads it: no sign, no leading zero. */
  predicate IsOctet(s: string) {
    && 1 <= |s| <= 3
    && (forall i :: 0 <= i < |s| ==> '0' <= s[i] <= '9')
    && (|s| > 1 ==> s[0] != '0')
    && (|s| == 3 ==> s[0] == '1' || (s[0] == '2' && (s[1] < '5' || (s[1] == '5' && s[2] <= '5'))))
  }

  /** `parts` octets separated by dots. */
  predicate IsDotted(s: string, parts: nat)
    requires parts >= 1
    decreases parts
  {
    if parts == 1 then IsOctet(s)
    else LastDot(s).Some? && IsOctet(s[LastDot(s).value + 1..]) && IsDotted(s[..LastDot(s).value], parts - 1)
  }

  predicate IsIPv4(ip: string) {
    IsDotted(ip, 4)
  }

  /** The /24 of an IPv4 address (its text is canonical); anything else as it is. */
  function SubnetKey(ip: string): string {
    if IsIPv4(ip) then ip[..LastDot(ip).value] else ip
  }

  lemma SubnetOf(net: string, x: string)
    requires IsDotted(net, 3) && IsOctet(x)
    ensures IsIPv4(net + "." + x) && SubnetKey(net + "." + x) == net
  {
    hide IsOctet, LastDot;
    var s := net + "." + x;
    LastDotOfOctet(net, x);
    assert s[..|net|] == net;
    assert s[|net| + 1..] == x;
  }

  /** Two IPv4 addresses share a subnet exactly when only their last octet differs. */
  lemma SameSubnet(net: string, ip: string)
    requires IsDotted(net, 3) && IsIPv4(ip)
    ensures SubnetKey(ip) == net <==> exists y :: IsOctet(y) && ip == net + "." + y
  {
    hide IsOctet, LastDot;
    if SubnetKey(ip) == net {
      var y := ip[LastDot(ip).value + 1..];
      assert IsOctet(y);
      assert ip == net + "." + y;
    }
    forall y | IsOctet(y) && ip == net + "." + y ensures SubnetKey(ip) == net {
      SubnetOf(net, y);
    }
  }

  lemma LastDotOfOctet(net: string, x: string)
    requires IsOctet(x)
    ensures LastDot(net + "." + x) == Some(|net|)
  {
    hide LastDot;
    NoDots(x);
    assert (net + "." + x)[|net| + 1..] == x;
    LastDotAt(net + "." + x, |net|);
  }

  lemma NoDots(x: string)
    requires IsOctet(x)
    ensures '.' !in x
  {
  }

  lemma {:induction false} LastDotAt(s: string, k: nat)
    requires k < |s| && s[k] == '.' && '.' !in s[k + 1..]
    ensures LastDot(s) == Some(k)
  {
    if k < |s| - 1 {
      assert s[|s| - 1] == s[k + 1..][|s| - k - 2];
      assert s[..|s| - 1][k + 1..] == s[k + 1..][..|s| - k - 2];
      LastDotAt(s[..|s| - 1], k);
    }
  }

  // ---------------------------------------------------------------------------
  // Keys
  // ---------------------------------------------------------------------------

  /** str.isspace */
  predicate IsSpace(c: char) {
    var n := c as int;
    || 9 <= n <= 13 || 28 <= n <= 32 || n in {0x85, 0xA0, 0x1680} || 0x2000 <= n <= 0x200A
    || n in {0x2028, 0x2029, 0x202F, 0x205F, 0x3000}
  }

  function Strip(s: string): string {
    if |s| > 0 && IsSpace(s[0]) then Strip(s[1..])
    else if |s| > 0 && IsSpace(s[|s| - 1]) then Strip(s[..|s| - 1])
    else s
  }

  predicate NodeIn(node: Option<int>, nodes: set<int>) {
    node.Some? && node.value in nodes
  }

  /** device_key: None is a connection that is not counted at all. */
  function Key(c: Connection, cfg: Config, highTrust: bool): Option<DeviceKey> {
    if cfg.mode == NodeMode then
      if c.node.None? || cfg.eligibleNodes.None? || c.node.value !in cfg.eligibleNodes.value
         || c.node.value in cfg.disabledNodes
      then None
      else Some(NodeOnly(c.node.value))
    else if NodeIn(c.node, cfg.disabledNodes) then None
    else if cfg.mode == InboundMode then
      var tag := Strip(c.inbound);
      if tag == "" || tag == "Unknown" then None else Some(InboundOnly(tag))
    else if NodeIn(c.node, cfg.cdnNodes) then Some(CdnNode)
    else if c.inbound in cfg.cdnInbounds then
      Some(if cfg.mode == IpMode then CdnInboundGroup else CdnInbound(c.inbound))
    else if cfg.mode == IpMode then
      Some(if cfg.subnetGrouping then SubnetGroup(SubnetKey(c.ip)) else IpOnly(c.ip))
    else if highTrust then Some(HighTrust(c.inbound))
    else if cfg.subnetGrouping then Some(SubnetInbound(SubnetKey(c.ip), c.inbound))
    else Some(Address(c.ip, c.inbound))
  }

  predicate IsCdnInbound(k: DeviceKey) {
    k.CdnInboundGroup? || k.CdnInbound?
  }

  /** What is really observed of a connection, before any grouping. */
  datatype Observation = Observation(ip: string, inbound: string)

  function Observed(c: Connection, cfg: Config): Observation {
    Observation(c.ip, if cfg.mode == IpMode then "" else c.inbound)
  }

  // ---------------------------------------------------------------------------
  // What the count means, on the set of connections
  // ---------------------------------------------------------------------------

  predicate Direct(c: Connection, cfg: Config, ht: bool) {
    Key(c, cfg, ht).Some? && !Key(c, cfg, ht).value.CdnNode? && !IsCdnInbound(Key(c, cfg, ht).value)
  }

  predicate ViaCdnInbound(c: Connection, cfg: Config, ht: bool) {
    Key(c, cfg, ht).Some? && IsCdnInbound(Key(c, cfg, ht).value)
  }

  predicate ViaCdnNode(c: Connection, cfg: Config, ht: bool) {
    Key(c, cfg, ht) == Some(CdnNode)
  }

  function DirectKeys(cs: set<Connection>, cfg: Config, ht: bool): set<DeviceKey> {
    set c | c in cs && Direct(c, cfg, ht) :: Key(c, cfg, ht).value
  }

  function DirectSeen(cs: set<Connection>, cfg: Config, ht: bool): set<Observation> {
    set c | c in cs && Direct(c, cfg, ht) :: Observed(c, cfg)
  }

  function CdnInboundKeys(cs: set<Connection>, cfg: Config, ht: bool): set<DeviceKey> {
    set c | c in cs && ViaCdnInbound(c, cfg, ht) :: Key(c, cfg, ht).value
  }

  /** The observations of one CDN inbound bucket. */
  function BucketSeen(cs: set<Connection>, cfg: Config, ht: bool, k: DeviceKey): set<Observation> {
    set c | c in cs && ViaCdnInbound(c, cfg, ht) && Key(c, cfg, ht).value == k :: Observed(c, cfg)
  }

  function CdnNodeSeen(cs: set<Connection>, cfg: Config, ht: bool): set<Observation> {
    set c | c in cs && ViaCdnNode(c, cfg, ht) :: Observed(c, cfg)
  }

  function OutsideCdnNodeSeen(cs: set<Connection>, cfg: Config, ht: bool): set<Observation> {
    set c | c in cs && (Direct(c, cfg, ht) || ViaCdnInbound(c, cfg, ht)) :: Observed(c, cfg)
  }

  /** The buckets none of whose observations is counted outside them. */
  function LoneBuckets(cs: set<Connection>, cfg: Config, ht: bool): set<DeviceKey> {
    set k | k in CdnInboundKeys(cs, cfg, ht) && BucketSeen(cs, cfg, ht, k) !! DirectSeen(cs, cfg, ht)
  }

  predicate LoneCdnNode(cs: set<Connection>, cfg: Config, ht: bool) {
    CdnNodeSeen(cs, cfg, ht) != {} && CdnNodeSeen(cs, cfg, ht) !! OutsideCdnNodeSeen(cs, cfg, ht)
  }

  /** The count of a complete sample. */
  function CompleteCount(cs: set<Connection>, cfg: Config, ht: bool): nat {
    |DirectKeys(cs, cfg, ht)| + |LoneBuckets(cs, cfg, ht)| + (if LoneCdnNode(cs, cfg, ht) then 1 else 0)
  }

  /** The count claimed from a sample that may be missing connections. */
  function PartialCount(cs: set<Connection>, cfg: Config, ht: bool): nat {
    var evidence := if CdnNodeSeen(cs, cfg, ht) != {} || CdnInboundKeys(cs, cfg, ht) != {} then 1 else 0;
    if |DirectKeys(cs, cfg, ht)| < evidence then evidence else |DirectKeys(cs, cfg, ht)|
  }

  predicate AppliesHighTrust(cfg: Config, trustScore: real) {
    cfg.highTrustGrouping && trustScore >= cfg.highTrustThreshold
  }

  function Elements<T>(s: seq<T>): set<T> {
    set x | x in s
  }

  lemma ElementsStep<T>(s: seq<T>, i: nat)
    requires i < |s|
    ensures Elements(s[..i + 1]) == Elements(s[..i]) + {s[i]}
  {
    assert s[..i + 1] == s[..i] + [s[i]];
  }

  /** What count_devices returns. */
  function DeviceTotal(cs: seq<Connection>, cfg: Config, partialEvidence: bool, trustScore: real, fallback: int): int {
    if |cs| == 0 then
      if cfg.mode == InboundMode || cfg.mode == NodeMode then 0 else fallback
    else if partialEvidence then PartialCount(Elements(cs), cfg, AppliesHighTrust(cfg, trustScore))
    else CompleteCount(Elements(cs), cfg, AppliesHighTrust(cfg, trustScore))
  }

  // ---------------------------------------------------------------------------
  // The loop of count_devices
  // ---------------------------------------------------------------------------

  /** The local sets of the loop after the connections in `cs`. */
  datatype Tally = Tally(
    unique: set<DeviceKey>, direct: set<Observation>, outsideCdnNode: set<Observation>,
    cdnNode: set<Observation>, cdnInbound: map<DeviceKey, set<Observation>>)

  ghost predicate Tallied(t: Tally, cs: set<Connection>, cfg: Config, ht: bool) {
    && t.unique == DirectKeys(cs, cfg, ht) && t.direct == DirectSeen(cs, cfg, ht)
    && t.outsideCdnNode == OutsideCdnNodeSeen(cs, cfg, ht) && t.cdnNode == CdnNodeSeen(cs, cfg, ht)
    && t.cdnInbound.Keys == CdnInboundKeys(cs, cfg, ht)
    && (forall k :: k in t.cdnInbound ==> t.cdnInbound[k] == BucketSeen(cs, cfg, ht, k))
  }

  function TallyOne(t: Tally, c: Connection, cfg: Config, ht: bool): Tally {
    var key := Key(c, cfg, ht);
    var o := Observed(c, cfg);
    if key.None? then t
    else if key.value == CdnNode then t.(cdnNode := t.cdnNode + {o})
    else if IsCdnInbound(key.value) then
      t.(cdnInbound := t.cdnInbound[key.value := (if key.value in t.cdnInbound then t.cdnInbound[key.value] else {}) + {o}],
         outsideCdnNode := t.outsideCdnNode + {o})
    else t.(unique := t.unique + {key.value}, direct := t.direct + {o}, outsideCdnNode := t.outsideCdnNode + {o})
  }

  lemma DirectAdd(cs: set<Connection>, c: Connection, cfg: Config, ht: bool)
    ensures DirectKeys(cs + {c}, cfg, ht) == DirectKeys(cs, cfg, ht) + (if Direct(c, cfg, ht) then {Key(c, cfg, ht).value} else {})
    ensures DirectSeen(cs + {c}, cfg, ht) == DirectSeen(cs, cfg, ht) + (if Direct(c, cfg, ht) then {Observed(c, cfg)} else {})
  {
    hide Key, Observed;
  }

  lemma OutsideAdd(cs: set<Connection>, c: Connection, cfg: Config, ht: bool)
    ensures OutsideCdnNodeSeen(cs + {c}, cfg, ht) ==
              OutsideCdnNodeSeen(cs, cfg, ht) + (if Direct(c, cfg, ht) || ViaCdnInbound(c, cfg, ht) then {Observed(c, cfg)} else {})
    ensures CdnNodeSeen(cs + {c}, cfg, ht) == CdnNodeSeen(cs, cfg, ht) + (if ViaCdnNode(c, cfg, ht) then {Observed(c, cfg)} else {})
  {
    hide Key, Observed;
  }

  lemma BucketAdd(cs: set<Connection>, c: Connection, cfg: Config, ht: bool, k: DeviceKey)
    ensures CdnInboundKeys(cs + {c}, cfg, ht) ==
              CdnInboundKeys(cs, cfg, ht) + (if ViaCdnInbound(c, cfg, ht) then {Key(c, cfg, ht).value} else {})
    ensures BucketSeen(cs + {c}, cfg, ht, k) ==
              BucketSeen(cs, cfg, ht, k) + (if ViaCdnInbound(c, cfg, ht) && Key(c, cfg, ht).value == k then {Observed(c, cfg)} else {})
    ensures k !in CdnInboundKeys(cs, cfg, ht) ==> BucketSeen(cs, cfg, ht, k) == {}
  {
    hide Key, Observed;
  }

  lemma TallyStep(t: Tally, cs: set<Connection>, c: Connection, cfg: Config, ht: bool)
    requires Tallied(t, cs, cfg, ht)
    ensures Tallied(TallyOne(t, c, cfg, ht), cs + {c}, cfg, ht)
  {
    hide Key, Observed, DirectKeys, DirectSeen, CdnInboundKeys, BucketSeen, CdnNodeSeen, OutsideCdnNodeSeen;
    DirectAdd(cs, c, cfg, ht);
    OutsideAdd(cs, c, cfg, ht);
    forall k ensures
      && CdnInboundKeys(cs + {c}, cfg, ht) ==
           CdnInboundKeys(cs, cfg, ht) + (if ViaCdnInbound(c, cfg, ht) then {Key(c, cfg, ht).value} else {})
      && BucketSeen(cs + {c}, cfg, ht, k) ==
           BucketSeen(cs, cfg, ht, k) + (if ViaCdnInbound(c, cfg, ht) && Key(c, cfg, ht).value == k then {Observed(c, cfg)} else {})
      && (k !in CdnInboundKeys(cs, cfg, ht) ==> BucketSeen(cs, cfg, ht, k) == {})
    {
      BucketAdd(cs, c, cfg, ht, k);
    }
  }

  lemma TalliedLone(t: Tally, cs: set<Connection>, cfg: Config, ht: bool)
    requires Tallied(t, cs, cfg, ht)
    ensures (set k | k in t.cdnInbound.Keys && t.cdnInbound[k] !! t.direct) == LoneBuckets(cs, cfg, ht)
    ensures t.cdnInbound == map[] <==> CdnInboundKeys(cs, cfg, ht) == {}
  {
    hide DirectKeys, DirectSeen, CdnInboundKeys, BucketSeen, CdnNodeSeen, OutsideCdnNodeSeen;
    assert t.cdnInbound == map[] <==> t.cdnInbound.Keys == {};
  }

  /** The loop over the connections. */
  method TallyAll(cs: seq<Connection>, cfg: Config, ht: bool) returns (t: Tally)
    ensures Tallied(t, Elements(cs), cfg, ht)
  {
    t := Tally({}, {}, {}, {}, map[]);
    var i := 0;
    assert Tallied(t, Elements(cs[..i]), cfg, ht);
    hide Tallied, Elements, Key, Observed;
    while i < |cs|
      invariant 0 <= i <= |cs|
      invariant Tallied(t, Elements(cs[..i]), cfg, ht)
    {
      TallyStep(t, Elements(cs[..i]), cs[i], cfg, ht);
      ElementsStep(cs, i);
      var c := cs[i];
      var key := Key(c, cfg, ht);
      if key.Some? {
        var observation := Observed(c, cfg);
        if key.value == CdnNode {
          t := t.(cdnNode := t.cdnNode + {observation});
        } else if IsCdnInbound(key.value) {
          var bucket := if key.value in t.cdnInbound then t.cdnInbound[key.value] else {};
          t := t.(cdnInbound := t.cdnInbound[key.value := bucket + {observation}]);
          t := t.(outsideCdnNode := t.outsideCdnNode + {observation});
        } else {
          t := t.(unique := t.unique + {key.value});
          t := t.(direct := t.direct + {observation});
          t := t.(outsideCdnNode := t.outsideCdnNode + {observation});
        }
      }
      i := i + 1;
    }
    assert cs[..i] == cs;
  }

  method CountDevices(cs: seq<Connection>, cfg: Config, partialEvidence: bool, trustScore: real, fallback: int)
    returns (count: int)
    ensures count == DeviceTotal(cs, cfg, partialEvidence, trustScore, fallback)
  {
    if |cs| == 0 {
      if cfg.mode == InboundMode || cfg.mode == NodeMode {
        return 0;
      }
      return fallback;
    }
    var ht := cfg.highTrustGrouping && trustScore >= cfg.highTrustThreshold;
    var t := TallyAll(cs, cfg, ht);
    TalliedLone(t, Elements(cs), cfg, ht);
    TalliedSets(t, Elements(cs), cfg, ht);
    hide Tallied, DirectKeys, DirectSeen, CdnInboundKeys, BucketSeen, CdnNodeSeen, OutsideCdnNodeSeen, LoneBuckets, Elements;
    if partialEvidence {
      var evidence := if t.cdnNode != {} || t.cdnInbound != map[] then 1 else 0;
      return if |t.unique| < evidence then evidence else |t.unique|;
    }
    var inboundCount := |set k | k in t.cdnInbound.Keys && t.cdnInbound[k] !! t.direct|;
    var nodeCount := if t.cdnNode != {} && t.cdnNode !! t.outsideCdnNode then 1 else 0;
    count := |t.unique| + inboundCount + nodeCount;
  }

  lemma TalliedSets(t: Tally, cs: set<Connection>, cfg: Config, ht: bool)
    requires Tallied(t, cs, cfg, ht)
    ensures t.unique == DirectKeys(cs, cfg, ht)
    ensures t.outsideCdnNode == OutsideCdnNodeSeen(cs, cfg, ht) && t.cdnNode == CdnNodeSeen(cs, cfg, ht)
  {
  }
}
