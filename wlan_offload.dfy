/**
 * The static state of wlan_offload.c and the functions that update it in
 * place: the offload manager's descriptor list, the packet-filter table and
 * the keepalive socket handles. Each method is proved against the functions
 * of OlmRegistry, PacketFilter and TcpKeepalive.
 */
module WlanOffload {
  import opened OffloadConfig
  import opened OlmRegistry
  import opened PacketFilter
  import opened TcpKeepalive

  /** The descriptors olm_apply_offload_configuration registers. */
  const ARP_DESC := OlDesc(Str(ARP_NAME), AddressOf("arp_offload_config"),
                           AddressOf("arp_ol_fns"), AddressOf("arpol_context"))
  const PKT_FILTER_DESC := OlDesc(Str(PKT_FILTER_NAME), AddressOf("packet_filter_offload_config"),
                                  AddressOf("pf_ol_fns"), AddressOf("pfol_context"))
  const TKO_DESC := OlDesc(Str(TKO_NAME), AddressOf("tcp_keepalive_offload_config"),
                           AddressOf("tko_ol_fns"), AddressOf("tkol_context"))

  /** What olm_apply_offload_configuration leaves behind: its outcome, the
      descriptor list and the packet-filter table. */
  datatype Applied = Applied(outcome: Outcome, list: seq<OlDesc>, table: seq<FilterEntry>)

  /** The descriptors olm_apply_offload_configuration registers, in call order. */
  const APPLY_ORDER := [ARP_DESC, PKT_FILTER_DESC, TKO_DESC]

  /** The k-th registration of olm_apply_offload_configuration succeeds,
      given that the ones before it did. */
  predicate RegistrationSucceeds(list: seq<OlDesc>, k: nat)
    requires NUM_OFFLOAD_TYPES < |list| && k < |APPLY_ORDER|
  {
    AddToOlmList(RegisterAll(list, APPLY_ORDER[..k]), APPLY_ORDER[k]).result == CY_RSLT_SUCCESS
  }

  /** The lists after the first k registrations, one step at a time. */
  lemma ApplyOrderPrefixes(list: seq<OlDesc>)
    requires NUM_OFFLOAD_TYPES < |list|
    ensures RegisterAll(list, APPLY_ORDER[..1]) == AddToOlmList(list, ARP_DESC).list
    ensures RegisterAll(list, APPLY_ORDER[..2]) == AddToOlmList(RegisterAll(list, APPLY_ORDER[..1]), PKT_FILTER_DESC).list
    ensures RegisterAll(list, APPLY_ORDER) == AddToOlmList(RegisterAll(list, APPLY_ORDER[..2]), TKO_DESC).list
    ensures RegistrationSucceeds(list, 0) <==> AddToOlmList(list, ARP_DESC).result == CY_RSLT_SUCCESS
    ensures RegistrationSucceeds(list, 1)
            <==> AddToOlmList(RegisterAll(list, APPLY_ORDER[..1]), PKT_FILTER_DESC).result == CY_RSLT_SUCCESS
    ensures RegistrationSucceeds(list, 2)
            <==> AddToOlmList(RegisterAll(list, APPLY_ORDER[..2]), TKO_DESC).result == CY_RSLT_SUCCESS
  {
    assert APPLY_ORDER[..0] == [] && APPLY_ORDER[..1][..0] == [];
    assert APPLY_ORDER[..2][..1] == APPLY_ORDER[..1] && APPLY_ORDER[..3] == APPLY_ORDER;
  }

  /** olm_apply_offload_configuration on values: registers ARP, builds the
      filter table and registers it, registers TKO, then hands the list to
      the offload manager (cylpaRestartOlm gives its reply to the list it is
      handed). It stops at the first registration that fails, with the
      earlier registrations, and the filter table once ARP is in, left in
      place. The terminating slot is never written. */
  function ApplyOffloadConfiguration(list: seq<OlDesc>, table: seq<FilterEntry>,
                                     cylpaRestartOlm: seq<OlDesc> -> Rslt): (r: Applied)
    requires NUM_OFFLOAD_TYPES < |list| && |table| == MAX_PACKET_FILTER
    ensures |r.list| == |list| && r.list[NUM_OFFLOAD_TYPES] == list[NUM_OFFLOAD_TYPES]
    ensures r.outcome.Returned? <==>
              RegistrationSucceeds(list, 0) && RegistrationSucceeds(list, 1) && RegistrationSucceeds(list, 2)
    ensures r.outcome.Returned? ==>
              && r.list == RegisterAll(list, APPLY_ORDER)
              && r.table == DefaultFilterSequence(table)
              && r.outcome.rslt == cylpaRestartOlm(r.list)
    ensures !RegistrationSucceeds(list, 0) ==> r == Applied(Halted, list, table)
    ensures RegistrationSucceeds(list, 0) && !RegistrationSucceeds(list, 1) ==>
              r == Applied(Halted, RegisterAll(list, APPLY_ORDER[..1]), DefaultFilterSequence(table))
    ensures RegistrationSucceeds(list, 0) && RegistrationSucceeds(list, 1) && !RegistrationSucceeds(list, 2) ==>
              r == Applied(Halted, RegisterAll(list, APPLY_ORDER[..2]), DefaultFilterSequence(table))
  {
    ApplyOrderPrefixes(list);
    var r1 := AddToOlmList(list, ARP_DESC);
    if r1.result != CY_RSLT_SUCCESS then Applied(Halted, list, table)
    else
      var filters := DefaultFilterSequence(table);
      var r2 := AddToOlmList(r1.list, PKT_FILTER_DESC);
      if r2.result != CY_RSLT_SUCCESS then Applied(Halted, r1.list, filters)
      else
        var r3 := AddToOlmList(r2.list, TKO_DESC);
        if r3.result != CY_RSLT_SUCCESS then Applied(Halted, r2.list, filters)
        else Applied(Returned(cylpaRestartOlm(r3.list)), r3.list, filters)
  }

  /** From the zeroed statics, the list ends as ARP, Pkt_Filter, TKO and the
      untouched terminating slot, the table as DefaultFilterTable(), and the
      outcome is the offload manager's reply to that list. */
  lemma ApplyFromZeroedStatics(cylpaRestartOlm: seq<OlDesc> -> Rslt)
    ensures ApplyOffloadConfiguration(ZeroedList(), EmptyTable(), cylpaRestartOlm)
         == Applied(Returned(cylpaRestartOlm([ARP_DESC, PKT_FILTER_DESC, TKO_DESC, ZERO_DESC])),
                    [ARP_DESC, PKT_FILTER_DESC, TKO_DESC, ZERO_DESC], DefaultFilterTable())
  {
    var l0 := ZeroedList();
    AddToOlmListAppends(l0, 0, ARP_DESC);
    var l1 := l0[0 := ARP_DESC];
    AddToOlmListAppends(l1, 1, PKT_FILTER_DESC);
    var l2 := l1[1 := PKT_FILTER_DESC];
    AddToOlmListAppends(l2, 2, TKO_DESC);
    assert l2[2 := TKO_DESC] == [ARP_DESC, PKT_FILTER_DESC, TKO_DESC, ZERO_DESC];
    DefaultFilterConfiguration();
  }

  class WlanOffloadState {
    /** user_configuration_list[NUM_OFFLOAD_TYPES + 1] */
    const userConfigurationList: array<OlDesc>
    /** packet_filter_offload_config[MAX_PACKET_FILTER] */
    const packetFilterOffloadConfig: array<FilterEntry>
    /** global_socket[MAX_TKO_CONN] */
    const globalSocket: array<Socket>

    ghost predicate Valid() {
      && userConfigurationList.Length == NUM_OFFLOAD_TYPES + 1
      && packetFilterOffloadConfig.Length == MAX_PACKET_FILTER
      && globalSocket.Length == MAX_TKO_CONN
    }

    /** The statics as the C runtime zero-initialises them. */
    constructor ()
      ensures Valid()
      ensures fresh(userConfigurationList) && fresh(packetFilterOffloadConfig) && fresh(globalSocket)
      ensures userConfigurationList[..] == ZeroedList()
      ensures packetFilterOffloadConfig[..] == EmptyTable()
      ensures forall i :: 0 <= i < globalSocket.Length ==> globalSocket[i] == NullSocket
    {
      userConfigurationList := new OlDesc[NUM_OFFLOAD_TYPES + 1](_ => ZERO_DESC);
      packetFilterOffloadConfig := new FilterEntry[MAX_PACKET_FILTER](_ => EMPTY_ENTRY);
      globalSocket := new Socket[MAX_TKO_CONN](_ => NullSocket);
    }

    /** The scan of add_offload_configuration_to_olm_list: the first slot with
        a null or empty name, bounded by NUM_OFFLOAD_TYPES. */
    method FindOlmListSlot() returns (index: nat)
      requires Valid()
      ensures index <= NUM_OFFLOAD_TYPES
      ensures forall j :: 0 <= j < index ==> !IsFreeSlot(userConfigurationList[j])
      ensures index < NUM_OFFLOAD_TYPES ==> IsFreeSlot(userConfigurationList[index])
      ensures index == FirstFreeSlot(userConfigurationList[..], 0)
    {
      index := 0;
      while !IsFreeSlot(userConfigurationList[index]) && index < NUM_OFFLOAD_TYPES
        invariant index <= NUM_OFFLOAD_TYPES
        invariant FirstFreeSlot(userConfigurationList[..], index) == FirstFreeSlot(userConfigurationList[..], 0)
        decreases NUM_OFFLOAD_TYPES - index
      {
        index := index + 1;
      }
    }

    /** add_offload_configuration_to_olm_list: writes the four fields into the
        first free slot, or reports CY_RSLT_TYPE_ERROR when the usable slots
        are all taken. */
    method AddOffloadConfigurationToOlmList(offloadName: CString, offloadConfig: Pointer,
                                            offloadFunctions: Pointer, offloadContext: Pointer)
      returns (result: Rslt)
      requires Valid()
      modifies userConfigurationList
      ensures Registration(result, userConfigurationList[..])
              == AddToOlmList(old(userConfigurationList[..]),
                              OlDesc(offloadName, offloadConfig, offloadFunctions, offloadContext))
    {
      var index := FindOlmListSlot();
      result := CY_RSLT_SUCCESS;
      if NUM_OFFLOAD_TYPES == index {
        result := CY_RSLT_TYPE_ERROR;
      } else {
        userConfigurationList[index] := userConfigurationList[index].(name := offloadName);
        userConfigurationList[index] := userConfigurationList[index].(cfg := offloadConfig);
        userConfigurationList[index] := userConfigurationList[index].(fns := offloadFunctions);
        userConfigurationList[index] := userConfigurationList[index].(ol := offloadContext);
      }
    }

    /** GO_TO_LAST_FILTER_INDEX(x), with the bound tested before the slot is
        read: only increments x, over non-empty slots, up to the first empty
        one or the end of the table. */
    method GoToLastFilterIndex(x0: nat) returns (x: nat)
      requires Valid() && x0 <= MAX_PACKET_FILTER
      ensures x0 <= x <= MAX_PACKET_FILTER
      ensures forall j :: x0 <= j < x ==> !IsEmpty(packetFilterOffloadConfig[j])
      ensures x < MAX_PACKET_FILTER ==> IsEmpty(packetFilterOffloadConfig[x])
      ensures x == LastFilterIndex(packetFilterOffloadConfig[..], x0)
    {
      x := x0;
      while MAX_PACKET_FILTER > x && FEATURE_TYPE_EMPTY != packetFilterOffloadConfig[x].feature
        invariant x0 <= x <= MAX_PACKET_FILTER
        invariant LastFilterIndex(packetFilterOffloadConfig[..], x) == LastFilterIndex(packetFilterOffloadConfig[..], x0)
        decreases MAX_PACKET_FILTER - x
      {
        x := x + 1;
      }
    }

    /** mark_end_of_packet_filter_configuration: the first empty slot becomes
        the end marker when it is inside the table. */
    method MarkEndOfPacketFilterConfiguration()
      requires Valid()
      modifies packetFilterOffloadConfig
      ensures packetFilterOffloadConfig[..] == MarkEnd(old(packetFilterOffloadConfig[..]))
    {
      var index := GoToLastFilterIndex(0);
      if MAX_PACKET_FILTER >= index + 1 {
        packetFilterOffloadConfig[index] := packetFilterOffloadConfig[index].(feature := FeatLast);
      }
    }

    /** configure_eth_type_packet_filter: an EtherType filter in the first
        empty slot, when a slot for the end marker remains after it. */
    method ConfigureEthTypePacketFilter(ethType: uint16)
      requires Valid()
      modifies packetFilterOffloadConfig
      ensures packetFilterOffloadConfig[..] == ConfigureEthType(old(packetFilterOffloadConfig[..]), ethType)
    {
      var index := GoToLastFilterIndex(0);
      if MAX_PACKET_FILTER > index + 1 {
        packetFilterOffloadConfig[index] := packetFilterOffloadConfig[index].(id := index);
        packetFilterOffloadConfig[index] := packetFilterOffloadConfig[index].(feature := FeatEthType);
        packetFilterOffloadConfig[index] := packetFilterOffloadConfig[index].(bits := ACTIVE_BOTH);
        packetFilterOffloadConfig[index] := packetFilterOffloadConfig[index].(u := Eth(ethType));
      }
    }

    /** configure_port_type_packet_filter: a port filter (range 0) in the
        first empty slot, when a slot for the end marker remains after it. */
    method ConfigurePortTypePacketFilter(portNum: uint16, direction: Direction, protocol: Protocol)
      requires Valid()
      modifies packetFilterOffloadConfig
      ensures packetFilterOffloadConfig[..]
              == ConfigurePortType(old(packetFilterOffloadConfig[..]), portNum, direction, protocol)
    {
      var index := GoToLastFilterIndex(0);
      if MAX_PACKET_FILTER > index + 1 {
        packetFilterOffloadConfig[index] := packetFilterOffloadConfig[index].(id := index);
        packetFilterOffloadConfig[index] := packetFilterOffloadConfig[index].(feature := FeatPortNum);
        packetFilterOffloadConfig[index] := packetFilterOffloadConfig[index].(bits := ACTIVE_BOTH);
        packetFilterOffloadConfig[index] :=
          packetFilterOffloadConfig[index].(u := Port(portNum, 0, direction, protocol));
      }
    }

    /** The filter calls of olm_apply_offload_configuration: ARP and 802.1X
        EtherTypes, DHCP and DNS over UDP, the client and server TCP ports in
        both directions, then the end marker. */
    method ConfigureDefaultPacketFilters()
      requires Valid()
      modifies packetFilterOffloadConfig
      ensures packetFilterOffloadConfig[..] == DefaultFilterSequence(old(packetFilterOffloadConfig[..]))
    {
      ConfigureEthTypePacketFilter(ETH_TYPE_ARP_PACKET);
      ConfigureEthTypePacketFilter(ETH_TYPE_8021X_PACKET);
      ConfigurePortTypePacketFilter(PORT_TYPE_DHCP_UDP, PortDest, ProtocolUdp);
      ConfigurePortTypePacketFilter(PORT_TYPE_DNS_UDP, PortDest, ProtocolUdp);
      ConfigurePortTypePacketFilter(PORT_TYPE_TCP_CLIENT, PortSource, ProtocolTcp);
      ConfigurePortTypePacketFilter(PORT_TYPE_TCP_SERVER, PortDest, ProtocolTcp);
      ConfigurePortTypePacketFilter(PORT_TYPE_TCP_CLIENT, PortDest, ProtocolTcp);
      ConfigurePortTypePacketFilter(PORT_TYPE_TCP_SERVER, PortSource, ProtocolTcp);
      MarkEndOfPacketFilterConfiguration();
    }

    /** olm_apply_offload_configuration, in place: the outcome and the new
        list and table are those ApplyOffloadConfiguration gives for the old
        ones. */
    method OlmApplyOffloadConfiguration(cylpaRestartOlm: seq<OlDesc> -> Rslt) returns (outcome: Outcome)
      requires Valid()
      modifies userConfigurationList, packetFilterOffloadConfig
      ensures Applied(outcome, userConfigurationList[..], packetFilterOffloadConfig[..])
              == ApplyOffloadConfiguration(old(userConfigurationList[..]), old(packetFilterOffloadConfig[..]),
                                           cylpaRestartOlm)
    {
      var result := AddOffloadConfigurationToOlmList(ARP_DESC.name, ARP_DESC.cfg, ARP_DESC.fns, ARP_DESC.ol);
      if CY_RSLT_SUCCESS != result {
        outcome := Halted;
        return;
      }

      ConfigureDefaultPacketFilters();

      result := AddOffloadConfigurationToOlmList(PKT_FILTER_DESC.name, PKT_FILTER_DESC.cfg,
                                                 PKT_FILTER_DESC.fns, PKT_FILTER_DESC.ol);
      if CY_RSLT_SUCCESS != result {
        outcome := Halted;
        return;
      }

      result := AddOffloadConfigurationToOlmList(TKO_DESC.name, TKO_DESC.cfg, TKO_DESC.fns, TKO_DESC.ol);
      if CY_RSLT_SUCCESS != result {
        outcome := Halted;
        return;
      }

      result := cylpaRestartOlm(userConfigurationList[..]);
      outcome := Returned(result);
    }

    /** The loop of tcp_socket_connection_start over the MAX_TKO_CONN
        bindings: each active one is connected through its own socket slot,
        and the status keeps the code of the last failure. */
    method ConnectActiveBindings(cfg: TkoConfig, connect: ConnectRequest -> ConnectReply)
      returns (socketConnectionStatus: Rslt, ghost attempted: seq<nat>)
      requires Valid() && |cfg.ports| == MAX_TKO_CONN
      modifies globalSocket
      ensures socketConnectionStatus == ConnectionStatus(cfg, connect, MAX_TKO_CONN)
      ensures attempted == ActiveIndices(cfg.ports, MAX_TKO_CONN)
      ensures globalSocket[..] == ConnectedSockets(cfg, connect, old(globalSocket[..]), MAX_TKO_CONN)
    {
      socketConnectionStatus := CY_RSLT_SUCCESS;
      attempted := [];
      var index := 0;
      while index < MAX_TKO_CONN
        invariant index <= MAX_TKO_CONN
        invariant attempted == ActiveIndices(cfg.ports, index)
        invariant socketConnectionStatus == ConnectionStatus(cfg, connect, index)
        invariant globalSocket[..] == ConnectedSockets(cfg, connect, old(globalSocket[..]), index)
      {
        assert ActiveIndices(cfg.ports, index + 1)
            == attempted + (if IsActiveBinding(cfg.ports[index]) then [index] else []);
        var port := cfg.ports[index];
        if IsActiveBinding(port) {
          var reply := connect(ConnectRequestFor(cfg, index));
          globalSocket[index] := reply.socket;
          attempted := attempted + [index];
          var result := reply.status;
          if CY_RSLT_SUCCESS != result {
            socketConnectionStatus := result;
          }
        }
        index := index + 1;
      }
    }

    /** tcp_socket_connection_start. A failed SOCKETS_Init stops the device.
        The configuration is the one found, which may be none, in the
        configurator build, and the local tcp_keepalive_offload_config
        otherwise. With none it reports success without connecting anything.
        Otherwise it connects every active binding once, in index order,
        through that index's socket slot, keeps going after failures, and
        reports the code of the last failure or success; inactive bindings'
        slots are left alone. */
    method TcpSocketConnectionStart(socketsInitPassed: bool, useConfigurator: bool,
                                    found: Option<TkoConfig>, connect: ConnectRequest -> ConnectReply)
      returns (outcome: Outcome, ghost attempted: seq<nat>)
      requires Valid()
      requires useConfigurator && found.Some? ==> |found.value.ports| == MAX_TKO_CONN
      modifies globalSocket
      ensures !socketsInitPassed ==> outcome == Halted && attempted == [] && globalSocket[..] == old(globalSocket[..])
      ensures socketsInitPassed && useConfigurator && found.None? ==>
                && outcome == Returned(CY_RSLT_SUCCESS)
                && attempted == []
                && globalSocket[..] == old(globalSocket[..])
      ensures socketsInitPassed && (useConfigurator ==> found.Some?) ==>
                var cfg := if useConfigurator then found.value else LocalTkoConfig();
                && outcome == Returned(ConnectionStatus(cfg, connect, MAX_TKO_CONN))
                && attempted == ActiveIndices(cfg.ports, MAX_TKO_CONN)
                && forall i :: 0 <= i < MAX_TKO_CONN ==>
                     globalSocket[i] == if IsActiveBinding(cfg.ports[i]) then connect(ConnectRequestFor(cfg, i)).socket
                                        else old(globalSocket[i])
      ensures socketsInitPassed && !useConfigurator ==>
                && outcome == Returned(connect(ConnectRequestFor(LocalTkoConfig(), 0)).status)
                && attempted == [0]
    {
      attempted := [];
      if !socketsInitPassed {
        outcome := Halted;
        return;
      }
      var downloaded := if useConfigurator then found else Some(LocalTkoConfig());
      var socketConnectionStatus := CY_RSLT_SUCCESS;
      if downloaded.Some? {
        socketConnectionStatus, attempted := ConnectActiveBindings(downloaded.value, connect);
        ConnectedSocketsAreReplies(downloaded.value, connect, old(globalSocket[..]), MAX_TKO_CONN);
        LocalConfigConnectsOnlyBindingZero(connect);
      } else if !useConfigurator {
        socketConnectionStatus := CY_RSLT_TYPE_ERROR;
      } else {
        socketConnectionStatus := CY_RSLT_SUCCESS;
      }
      outcome := Returned(socketConnectionStatus);
    }
  }
}
