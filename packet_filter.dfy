/**
 * The packet-filter table (packet_filter_offload_config) as a value: its
 * entries, the end-of-configuration scan of GO_TO_LAST_FILTER_INDEX, and the
 * table each of the three builder calls leaves behind. The class in
 * wlan_offload.dfy performs these writes in place and is proved against the
 * functions here.
 */
module PacketFilter {
  import opened OffloadConfig

  /** The feature field of cy_pf_ol_cfg_t. FeatureTypeEmpty is
      FEATURE_TYPE_EMPTY (0), the value of a zero-initialised entry; the other
      three are the middleware's CY_PF_OL_FEAT_ETHTYPE, CY_PF_OL_FEAT_PORTNUM
      and CY_PF_OL_FEAT_LAST, whose values are taken to differ from 0. */
  datatype Feature = FeatureTypeEmpty | FeatEthType | FeatPortNum | FeatLast

  const FEATURE_TYPE_EMPTY := FeatureTypeEmpty

  /** cy_pn_direction_t and cy_pf_proto_t. */
  datatype Direction = PortSource | PortDest
  datatype Protocol = ProtocolTcp | ProtocolUdp

  /** The flags of the bits field: active while the host sleeps or wakes. */
  datatype ActiveState = ActiveSleep | ActiveWake

  /** The union u of cy_pf_ol_cfg_t: all zero, an EtherType, or a port rule. */
  datatype Payload =
    | Zeroed
    | Eth(ethType: uint16)
    | Port(portNum: uint16, range: uint16, direction: Direction, proto: Protocol)

  /** One cy_pf_ol_cfg_t. */
  datatype FilterEntry = FilterEntry(id: nat, feature: Feature, bits: set<ActiveState>, u: Payload)

  const EMPTY_ENTRY := FilterEntry(0, FeatureTypeEmpty, {}, Zeroed)
  const ACTIVE_BOTH := {ActiveSleep, ActiveWake}
  /** What mark_end_of_packet_filter_configuration makes of a zeroed slot. */
  const MARK_ENTRY := FilterEntry(0, FeatLast, {}, Zeroed)

  function EthEntry(index: nat, ethType: uint16): FilterEntry {
    FilterEntry(index, FeatEthType, ACTIVE_BOTH, Eth(ethType))
  }

  function PortEntry(index: nat, portNum: uint16, direction: Direction, protocol: Protocol): FilterEntry {
    FilterEntry(index, FeatPortNum, ACTIVE_BOTH, Port(portNum, 0, direction, protocol))
  }

  predicate IsEmpty(e: FilterEntry) {
    e.feature == FeatureTypeEmpty
  }

  /** The zero-initialised static table. */
  function EmptyTable(): seq<FilterEntry> {
    seq(MAX_PACKET_FILTER, _ => EMPTY_ENTRY)
  }

  /** Where the end-of-configuration scan started at x stops, with the bound
      tested before the slot is read: the first empty slot at or after x, or
      the table's length when there is none. */
  function LastFilterIndex(t: seq<FilterEntry>, x: nat): (r: nat)
    requires x <= |t|
    ensures x <= r <= |t|
    ensures forall j :: x <= j < r ==> !IsEmpty(t[j])
    ensures r < |t| ==> IsEmpty(t[r])
    decreases |t| - x
  {
    if x == |t| || IsEmpty(t[x]) then x else LastFilterIndex(t, x + 1)
  }

  /** The table after configure_eth_type_packet_filter(ethType). */
  function ConfigureEthType(t: seq<FilterEntry>, ethType: uint16): (r: seq<FilterEntry>)
    requires |t| == MAX_PACKET_FILTER
    ensures |r| == |t|
    ensures forall j :: 0 <= j < |t| && j != LastFilterIndex(t, 0) ==> r[j] == t[j]
  {
    var index := LastFilterIndex(t, 0);
    if index + 1 < MAX_PACKET_FILTER then
      t[index := t[index].(id := index, feature := FeatEthType, bits := ACTIVE_BOTH, u := Eth(ethType))]
    else
      t
  }

  /** The table after configure_port_type_packet_filter(portNum, direction, protocol). */
  function ConfigurePortType(t: seq<FilterEntry>, portNum: uint16, direction: Direction, protocol: Protocol)
    : (r: seq<FilterEntry>)
    requires |t| == MAX_PACKET_FILTER
    ensures |r| == |t|
    ensures forall j :: 0 <= j < |t| && j != LastFilterIndex(t, 0) ==> r[j] == t[j]
  {
    var index := LastFilterIndex(t, 0);
    if index + 1 < MAX_PACKET_FILTER then
      t[index := t[index].(id := index, feature := FeatPortNum, bits := ACTIVE_BOTH,
                           u := Port(portNum, 0, direction, protocol))]
    else
      t
  }

  /** The table after mark_end_of_packet_filter_configuration(). */
  function MarkEnd(t: seq<FilterEntry>): (r: seq<FilterEntry>)
    requires |t| == MAX_PACKET_FILTER
    ensures |r| == |t|
    ensures forall j :: 0 <= j < |t| && j != LastFilterIndex(t, 0) ==> r[j] == t[j]
  {
    var index := LastFilterIndex(t, 0);
    if MAX_PACKET_FILTER >= index + 1 then t[index := t[index].(feature := FeatLast)] else t
  }

  /** An entry the builder can have written at index j: a real filter whose id
      is its index and which is active in both power states, or an end marker. */
  predicate WellFormedEntry(e: FilterEntry, j: nat) {
    || e == MARK_ENTRY
    || (&& e.id == j && e.bits == ACTIVE_BOTH
        && ((e.feature == FeatEthType && e.u.Eth?)
            || (e.feature == FeatPortNum && e.u.Port? && e.u.range == 0)))
  }

  /** The table holds builder-written entries at [0, k) and zeroed slots from k on. */
  ghost predicate WellFormedUpTo(t: seq<FilterEntry>, k: nat) {
    && |t| == MAX_PACKET_FILTER
    && k <= |t|
    && (forall j :: 0 <= j < k ==> WellFormedEntry(t[j], j))
    && (forall j :: k <= j < |t| ==> t[j] == EMPTY_ENTRY)
  }

  /** On a well-formed table the scan, from any start before the count,
      stops exactly at the count of entries. */
  lemma {:induction false} WellFormedScanStopsAtCount(t: seq<FilterEntry>, k: nat, x: nat)
    requires WellFormedUpTo(t, k) && x <= k
    ensures LastFilterIndex(t, x) == k
    decreases k - x
  {
    if x < k {
      assert WellFormedEntry(t[x], x);
      WellFormedScanStopsAtCount(t, k, x + 1);
    }
  }

  /** On a well-formed table holding k entries, an EtherType filter goes to
      slot k when k + 1 < MAX_PACKET_FILTER, keeping the table well-formed;
      otherwise nothing is written. */
  lemma ConfigureEthTypeAppends(t: seq<FilterEntry>, k: nat, ethType: uint16)
    requires WellFormedUpTo(t, k)
    ensures ConfigureEthType(t, ethType) == if k + 1 < MAX_PACKET_FILTER then t[k := EthEntry(k, ethType)] else t
    ensures k + 1 < MAX_PACKET_FILTER ==> WellFormedUpTo(ConfigureEthType(t, ethType), k + 1)
  {
    WellFormedScanStopsAtCount(t, k, 0);
  }

  /** The same for a port filter, whose range is always 0. */
  lemma ConfigurePortTypeAppends(t: seq<FilterEntry>, k: nat, portNum: uint16, direction: Direction, protocol: Protocol)
    requires WellFormedUpTo(t, k)
    ensures ConfigurePortType(t, portNum, direction, protocol)
         == if k + 1 < MAX_PACKET_FILTER then t[k := PortEntry(k, portNum, direction, protocol)] else t
    ensures k + 1 < MAX_PACKET_FILTER ==> WellFormedUpTo(ConfigurePortType(t, portNum, direction, protocol), k + 1)
  {
    WellFormedScanStopsAtCount(t, k, 0);
  }

  /** The end marker goes to slot k whenever k < MAX_PACKET_FILTER (the last
      slot included), keeping the table well-formed. */
  lemma MarkEndAppends(t: seq<FilterEntry>, k: nat)
    requires WellFormedUpTo(t, k)
    ensures MarkEnd(t) == if k < MAX_PACKET_FILTER then t[k := MARK_ENTRY] else t
    ensures k < MAX_PACKET_FILTER ==> WellFormedUpTo(MarkEnd(t), k + 1)
  {
    WellFormedScanStopsAtCount(t, k, 0);
  }

  /** The scan skips an end marker, so a second mark_end call with no filter
      in between writes a second marker one slot further on. */
  lemma SecondMarkEndWritesAnotherMarker(t: seq<FilterEntry>, k: nat)
    requires WellFormedUpTo(t, k) && k + 2 <= MAX_PACKET_FILTER
    ensures MarkEnd(t)[k] == MARK_ENTRY
    ensures MarkEnd(MarkEnd(t)) == t[k := MARK_ENTRY][k + 1 := MARK_ENTRY]
    ensures MarkEnd(MarkEnd(t)) != MarkEnd(t)
  {
    MarkEndAppends(t, k);
    MarkEndAppends(MarkEnd(t), k + 1);
    assert MarkEnd(MarkEnd(t))[k + 1] != MarkEnd(t)[k + 1];
  }

  /** A filter added after mark_end lands after the marker, which stays put. */
  lemma FilterAfterMarkEndLandsBeyondMarker(t: seq<FilterEntry>, k: nat, ethType: uint16)
    requires WellFormedUpTo(t, k) && k + 2 < MAX_PACKET_FILTER
    ensures ConfigureEthType(MarkEnd(t), ethType) == t[k := MARK_ENTRY][k + 1 := EthEntry(k + 1, ethType)]
  {
    MarkEndAppends(t, k);
    ConfigureEthTypeAppends(MarkEnd(t), k + 1, ethType);
  }

  /** With 19 entries in place only the marker fits: both configure calls
      leave the table unchanged while mark_end fills the last slot. */
  lemma OnlyTheMarkerFitsInTheLastSlot(t: seq<FilterEntry>, ethType: uint16, portNum: uint16,
                                       direction: Direction, protocol: Protocol)
    requires WellFormedUpTo(t, MAX_PACKET_FILTER - 1)
    ensures ConfigureEthType(t, ethType) == t
    ensures ConfigurePortType(t, portNum, direction, protocol) == t
    ensures MarkEnd(t) == t[MAX_PACKET_FILTER - 1 := MARK_ENTRY]
  {
    ConfigureEthTypeAppends(t, MAX_PACKET_FILTER - 1, ethType);
    ConfigurePortTypeAppends(t, MAX_PACKET_FILTER - 1, portNum, direction, protocol);
    MarkEndAppends(t, MAX_PACKET_FILTER - 1);
  }

  /** With no empty slot left, no call writes anything. */
  lemma FullTableIsNeverWritten(t: seq<FilterEntry>, ethType: uint16, portNum: uint16,
                                direction: Direction, protocol: Protocol)
    requires |t| == MAX_PACKET_FILTER
    requires forall j :: 0 <= j < |t| ==> !IsEmpty(t[j])
    ensures ConfigureEthType(t, ethType) == t
    ensures ConfigurePortType(t, portNum, direction, protocol) == t
    ensures MarkEnd(t) == t
  {
  }

  /** The filter calls of olm_apply_offload_configuration, in order. */
  function DefaultFilterSequence(t: seq<FilterEntry>): (r: seq<FilterEntry>)
    requires |t| == MAX_PACKET_FILTER
    ensures |r| == MAX_PACKET_FILTER
  {
    var t1 := ConfigureEthType(t, ETH_TYPE_ARP_PACKET);
    var t2 := ConfigureEthType(t1, ETH_TYPE_8021X_PACKET);
    var t3 := ConfigurePortType(t2, PORT_TYPE_DHCP_UDP, PortDest, ProtocolUdp);
    var t4 := ConfigurePortType(t3, PORT_TYPE_DNS_UDP, PortDest, ProtocolUdp);
    var t5 := ConfigurePortType(t4, PORT_TYPE_TCP_CLIENT, PortSource, ProtocolTcp);
    var t6 := ConfigurePortType(t5, PORT_TYPE_TCP_SERVER, PortDest, ProtocolTcp);
    var t7 := ConfigurePortType(t6, PORT_TYPE_TCP_CLIENT, PortDest, ProtocolTcp);
    var t8 := ConfigurePortType(t7, PORT_TYPE_TCP_SERVER, PortSource, ProtocolTcp);
    MarkEnd(t8)
  }

  /** The table the application hands to the offload manager. */
  function DefaultFilterTable(): seq<FilterEntry> {
    [ EthEntry(0, ETH_TYPE_ARP_PACKET),
      EthEntry(1, ETH_TYPE_8021X_PACKET),
      PortEntry(2, PORT_TYPE_DHCP_UDP, PortDest, ProtocolUdp),
      PortEntry(3, PORT_TYPE_DNS_UDP, PortDest, ProtocolUdp),
      PortEntry(4, PORT_TYPE_TCP_CLIENT, PortSource, ProtocolTcp),
      PortEntry(5, PORT_TYPE_TCP_SERVER, PortDest, ProtocolTcp),
      PortEntry(6, PORT_TYPE_TCP_CLIENT, PortDest, ProtocolTcp),
      PortEntry(7, PORT_TYPE_TCP_SERVER, PortSource, ProtocolTcp),
      MARK_ENTRY ]
    + seq(MAX_PACKET_FILTER - 9, _ => EMPTY_ENTRY)
  }

  /** The default table while its first four filters are in place. */
  function HalfBuiltFilterTable(): (r: seq<FilterEntry>)
    ensures |r| == MAX_PACKET_FILTER
  {
    DefaultFilterTable()[4 := EMPTY_ENTRY][5 := EMPTY_ENTRY][6 := EMPTY_ENTRY][7 := EMPTY_ENTRY][8 := EMPTY_ENTRY]
  }

  /** Writing back the values of slots 4..8 undoes overwriting them. */
  lemma SlotsRestored(s: seq<FilterEntry>, e: FilterEntry)
    requires |s| > 8
    ensures s[4 := e][5 := e][6 := e][7 := e][8 := e][4 := s[4]][5 := s[5]][6 := s[6]][7 := s[7]][8 := s[8]] == s
  {
  }

  /** The EtherType and UDP filters go to slots 0..3. */
  lemma FirstFourDefaultFilters()
    ensures var t1 := ConfigureEthType(EmptyTable(), ETH_TYPE_ARP_PACKET);
            var t2 := ConfigureEthType(t1, ETH_TYPE_8021X_PACKET);
            var t3 := ConfigurePortType(t2, PORT_TYPE_DHCP_UDP, PortDest, ProtocolUdp);
            ConfigurePortType(t3, PORT_TYPE_DNS_UDP, PortDest, ProtocolUdp) == HalfBuiltFilterTable()
    ensures WellFormedUpTo(HalfBuiltFilterTable(), 4)
  {
    var t0 := EmptyTable();
    var t1 := ConfigureEthType(t0, ETH_TYPE_ARP_PACKET);
    ConfigureEthTypeAppends(t0, 0, ETH_TYPE_ARP_PACKET);
    var t2 := ConfigureEthType(t1, ETH_TYPE_8021X_PACKET);
    ConfigureEthTypeAppends(t1, 1, ETH_TYPE_8021X_PACKET);
    var t3 := ConfigurePortType(t2, PORT_TYPE_DHCP_UDP, PortDest, ProtocolUdp);
    ConfigurePortTypeAppends(t2, 2, PORT_TYPE_DHCP_UDP, PortDest, ProtocolUdp);
    ConfigurePortTypeAppends(t3, 3, PORT_TYPE_DNS_UDP, PortDest, ProtocolUdp);
    assert ConfigurePortType(t3, PORT_TYPE_DNS_UDP, PortDest, ProtocolUdp) == HalfBuiltFilterTable();
  }

  /** The four TCP port filters go to slots 4..7 and the marker to slot 8. */
  lemma LastFourDefaultFilters()
    requires WellFormedUpTo(HalfBuiltFilterTable(), 4)
    ensures var t4 := HalfBuiltFilterTable();
            var t5 := ConfigurePortType(t4, PORT_TYPE_TCP_CLIENT, PortSource, ProtocolTcp);
            var t6 := ConfigurePortType(t5, PORT_TYPE_TCP_SERVER, PortDest, ProtocolTcp);
            var t7 := ConfigurePortType(t6, PORT_TYPE_TCP_CLIENT, PortDest, ProtocolTcp);
            var t8 := ConfigurePortType(t7, PORT_TYPE_TCP_SERVER, PortSource, ProtocolTcp);
            MarkEnd(t8) == DefaultFilterTable()
    ensures WellFormedUpTo(DefaultFilterTable(), 9)
  {
    var t4 := HalfBuiltFilterTable();
    var t5 := ConfigurePortType(t4, PORT_TYPE_TCP_CLIENT, PortSource, ProtocolTcp);
    ConfigurePortTypeAppends(t4, 4, PORT_TYPE_TCP_CLIENT, PortSource, ProtocolTcp);
    var t6 := ConfigurePortType(t5, PORT_TYPE_TCP_SERVER, PortDest, ProtocolTcp);
    ConfigurePortTypeAppends(t5, 5, PORT_TYPE_TCP_SERVER, PortDest, ProtocolTcp);
    var t7 := ConfigurePortType(t6, PORT_TYPE_TCP_CLIENT, PortDest, ProtocolTcp);
    ConfigurePortTypeAppends(t6, 6, PORT_TYPE_TCP_CLIENT, PortDest, ProtocolTcp);
    var t8 := ConfigurePortType(t7, PORT_TYPE_TCP_SERVER, PortSource, ProtocolTcp);
    ConfigurePortTypeAppends(t7, 7, PORT_TYPE_TCP_SERVER, PortSource, ProtocolTcp);
    MarkEndAppends(t8, 8);
    var d := DefaultFilterTable();
    SlotsRestored(d, EMPTY_ENTRY);
    assert MarkEnd(t8) == t4[4 := d[4]][5 := d[5]][6 := d[6]][7 := d[7]][8 := d[8]];
  }

  /** From the zeroed table, the calls leave filters 0..7 in call order, the
      marker at 8 and slots 9..19 empty. */
  lemma DefaultFilterConfiguration()
    ensures DefaultFilterSequence(EmptyTable()) == DefaultFilterTable()
    ensures WellFormedUpTo(DefaultFilterTable(), 9)
  {
    FirstFourDefaultFilters();
    LastFourDefaultFilters();
  }

  // ---------------------------------------------------------------------
  // The scan as written at wlan_offload.h:153-154, which reads the slot
  // before testing the bound.

  /** What the as-written scan does: stop at an index, or read the slot one
      past the end of the table. */
  datatype FilterScan = StopsAt(index: nat) | ReadsPastEnd

  function AsWrittenFilterScan(t: seq<FilterEntry>, x: nat): (r: FilterScan)
    ensures r.StopsAt? ==> && x <= r.index < |t|
                           && (IsEmpty(t[r.index]) || r.index >= MAX_PACKET_FILTER)
                           && forall j :: x <= j < r.index ==> !IsEmpty(t[j])
    ensures r.ReadsPastEnd? ==> forall j :: x <= j < |t| ==> !IsEmpty(t[j])
    decreases |t| - x
  {
    if x >= |t| then ReadsPastEnd
    else if IsEmpty(t[x]) || !(MAX_PACKET_FILTER > x) then StopsAt(x)
    else AsWrittenFilterScan(t, x + 1)
  }

  /** The as-written scan agrees with LastFilterIndex wherever some slot from
      x on is empty, and reads past the table exactly when none is. */
  lemma {:induction false} AsWrittenFilterScanAgrees(t: seq<FilterEntry>, x: nat)
    requires |t| == MAX_PACKET_FILTER && x <= |t|
    ensures AsWrittenFilterScan(t, x)
         == if LastFilterIndex(t, x) < |t| then StopsAt(LastFilterIndex(t, x)) else ReadsPastEnd
    ensures AsWrittenFilterScan(t, x) == ReadsPastEnd <==> forall j :: x <= j < |t| ==> !IsEmpty(t[j])
    decreases |t| - x
  {
    if x < |t| && !IsEmpty(t[x]) {
      AsWrittenFilterScanAgrees(t, x + 1);
    }
  }

  /** n EtherType filters added one after another. */
  function RepeatEthType(t: seq<FilterEntry>, ethType: uint16, n: nat): (r: seq<FilterEntry>)
    requires |t| == MAX_PACKET_FILTER
    ensures |r| == MAX_PACKET_FILTER
  {
    if n == 0 then t else ConfigureEthType(RepeatEthType(t, ethType, n - 1), ethType)
  }

  lemma {:induction false} RepeatEthTypeFills(ethType: uint16, n: nat)
    requires n < MAX_PACKET_FILTER
    ensures WellFormedUpTo(RepeatEthType(EmptyTable(), ethType, n), n)
  {
    if n > 0 {
      RepeatEthTypeFills(ethType, n - 1);
      ConfigureEthTypeAppends(RepeatEthType(EmptyTable(), ethType, n - 1), n - 1, ethType);
    }
  }

  /** 19 filters and an end marker fill every slot, after which the as-written
      scan of the next builder call reads past the table. */
  lemma FullTableScanReadsPastEnd(ethType: uint16)
    ensures var full := MarkEnd(RepeatEthType(EmptyTable(), ethType, MAX_PACKET_FILTER - 1));
            && (forall j :: 0 <= j < MAX_PACKET_FILTER ==> !IsEmpty(full[j]))
            && AsWrittenFilterScan(full, 0) == ReadsPastEnd
  {
    var t := RepeatEthType(EmptyTable(), ethType, MAX_PACKET_FILTER - 1);
    RepeatEthTypeFills(ethType, MAX_PACKET_FILTER - 1);
    MarkEndAppends(t, MAX_PACKET_FILTER - 1);
    var full := MarkEnd(t);
    assert forall j :: 0 <= j < MAX_PACKET_FILTER ==> WellFormedEntry(full[j], j);
    AsWrittenFilterScanAgrees(full, 0);
  }
}
