/**
 * The TCP keepalive configuration and what tcp_socket_connection_start's
 * loop computes over its port bindings: which bindings it connects, in what
 * order, and the status it reports. The connect primitive of the Low Power
 * Assistant middleware is a function parameter: the reply it gives to each
 * request.
 */
module TcpKeepalive {
  import opened OffloadConfig

  /** cy_tko_ol_connect_t: one port binding. */
  datatype TkoConnect = TkoConnect(localPort: uint16, remotePort: uint16, remoteIp: string)

  /** cy_tko_ol_cfg_t: keepalive timing and MAX_TKO_CONN bindings. */
  datatype TkoConfig = TkoConfig(interval: uint16, retryInterval: uint16, retryCount: uint16,
                                 ports: seq<TkoConnect>)

  /** A Socket_t slot of global_socket: null or a handle. */
  datatype Socket = NullSocket | SocketHandle(handle: nat)

  /** The arguments of one cy_tcp_create_socket_connection call; socketSlot
      is the index of the global_socket entry whose address is passed. */
  datatype ConnectRequest = ConnectRequest(socketSlot: nat, remoteIp: string, remotePort: uint16,
                                           localPort: uint16, config: TkoConfig, hostKeepalive: bool)

  /** What the call returns and what it leaves in the socket slot. */
  datatype ConnectReply = ConnectReply(status: Rslt, socket: Socket)

  /** A binding is connected only when its remote address is not 0.0.0.0 and
      both ports are non-zero. */
  predicate IsActiveBinding(port: TkoConnect) {
    port.remoteIp != NULL_IP_ADDRESS && port.remotePort > 0 && port.localPort > 0
  }

  function ConnectRequestFor(cfg: TkoConfig, index: nat): ConnectRequest
    requires index < |cfg.ports|
  {
    var port := cfg.ports[index];
    ConnectRequest(index, port.remoteIp, port.remotePort, port.localPort, cfg, ENABLE_HOST_TCP_KEEPALIVE)
  }

  /** The indices below n whose binding is active, in increasing order. */
  function ActiveIndices(ports: seq<TkoConnect>, n: nat): (r: seq<nat>)
    requires n <= |ports|
    ensures forall k :: 0 <= k < |r| ==> r[k] < n && IsActiveBinding(ports[r[k]])
    ensures forall i :: 0 <= i < n && IsActiveBinding(ports[i]) ==> i in r
    ensures forall k, l :: 0 <= k < l < |r| ==> r[k] < r[l]
  {
    if n == 0 then []
    else ActiveIndices(ports, n - 1) + (if IsActiveBinding(ports[n - 1]) then [n - 1] else [])
  }

  /** Binding i was connected and the connect call failed. */
  predicate Failed(cfg: TkoConfig, connect: ConnectRequest -> ConnectReply, i: nat)
    requires i < |cfg.ports|
  {
    IsActiveBinding(cfg.ports[i]) && connect(ConnectRequestFor(cfg, i)).status != CY_RSLT_SUCCESS
  }

  /** socket_connection_status once bindings [0, n) have been handled. */
  function ConnectionStatus(cfg: TkoConfig, connect: ConnectRequest -> ConnectReply, n: nat): Rslt
    requires n <= |cfg.ports|
  {
    if n == 0 then CY_RSLT_SUCCESS
    else if Failed(cfg, connect, n - 1) then connect(ConnectRequestFor(cfg, n - 1)).status
    else ConnectionStatus(cfg, connect, n - 1)
  }

  /** The status is success exactly when no connected binding failed, and
      otherwise the code of the last failing one. */
  lemma {:induction false} ConnectionStatusIsLastFailure(cfg: TkoConfig, connect: ConnectRequest -> ConnectReply, n: nat)
    requires n <= |cfg.ports|
    ensures ConnectionStatus(cfg, connect, n) == CY_RSLT_SUCCESS
            <==> forall i :: 0 <= i < n ==> !Failed(cfg, connect, i)
    ensures ConnectionStatus(cfg, connect, n) != CY_RSLT_SUCCESS ==>
              exists i :: 0 <= i < n && Failed(cfg, connect, i)
                          && ConnectionStatus(cfg, connect, n) == connect(ConnectRequestFor(cfg, i)).status
                          && (forall j :: i < j < n ==> !Failed(cfg, connect, j))
  {
    if n > 0 {
      ConnectionStatusIsLastFailure(cfg, connect, n - 1);
      if !Failed(cfg, connect, n - 1) && ConnectionStatus(cfg, connect, n) != CY_RSLT_SUCCESS {
        var i :| 0 <= i < n - 1 && Failed(cfg, connect, i)
                 && ConnectionStatus(cfg, connect, n - 1) == connect(ConnectRequestFor(cfg, i)).status
                 && (forall j :: i < j < n - 1 ==> !Failed(cfg, connect, j));
        assert forall j :: i < j < n ==> !Failed(cfg, connect, j);
      }
    }
  }

  /** global_socket once bindings [0, n) have been handled: each connected
      binding's slot holds the socket its reply left. */
  function ConnectedSockets(cfg: TkoConfig, connect: ConnectRequest -> ConnectReply,
                            sockets: seq<Socket>, n: nat): (r: seq<Socket>)
    requires n <= |cfg.ports| == |sockets|
    ensures |r| == |sockets|
  {
    if n == 0 then sockets
    else
      var before := ConnectedSockets(cfg, connect, sockets, n - 1);
      if IsActiveBinding(cfg.ports[n - 1]) then before[n - 1 := connect(ConnectRequestFor(cfg, n - 1)).socket]
      else before
  }

  /** Slot i holds binding i's reply socket when binding i is active and was
      handled, and its old value otherwise: no other slot is written. */
  lemma {:induction false} ConnectedSocketsAreReplies(cfg: TkoConfig, connect: ConnectRequest -> ConnectReply,
                                                      sockets: seq<Socket>, n: nat)
    requires n <= |cfg.ports| == |sockets|
    ensures forall i :: 0 <= i < |sockets| ==>
              ConnectedSockets(cfg, connect, sockets, n)[i]
              == if i < n && IsActiveBinding(cfg.ports[i]) then connect(ConnectRequestFor(cfg, i)).socket
                 else sockets[i]
  {
    if n > 0 {
      ConnectedSocketsAreReplies(cfg, connect, sockets, n - 1);
    }
  }

  /** A configuration without an active binding makes no connect call and
      reports success. */
  lemma {:induction false} NoActiveBindingSucceedsVacuously(cfg: TkoConfig, connect: ConnectRequest -> ConnectReply, n: nat)
    requires n <= |cfg.ports|
    requires forall i :: 0 <= i < |cfg.ports| ==> !IsActiveBinding(cfg.ports[i])
    ensures ActiveIndices(cfg.ports, n) == []
    ensures ConnectionStatus(cfg, connect, n) == CY_RSLT_SUCCESS
  {
    if n > 0 {
      NoActiveBindingSucceedsVacuously(cfg, connect, n - 1);
    }
  }

  /** tcp_keepalive_offload_config: one binding (3353 to 3360 on
      192.168.0.108) and three zero-initialised ones. */
  function LocalTkoConfig(): TkoConfig {
    var unused := TkoConnect(0, 0, "");
    TkoConfig(TKO_INTERVAL_SECS, TKO_RETRY_INTERVAL_SECS, TKO_RETRY_COUNT,
              [TkoConnect(TCP_CLIENT_PORT_NUMBER, TCP_SERVER_PORT_NUMBER, REMOTE_TCP_SERVER_IP_ADDRESS),
               unused, unused, unused])
  }

  /** The local configuration connects binding 0 only, and its status is that
      one call's. */
  lemma LocalConfigConnectsOnlyBindingZero(connect: ConnectRequest -> ConnectReply)
    ensures |LocalTkoConfig().ports| == MAX_TKO_CONN
    ensures ActiveIndices(LocalTkoConfig().ports, MAX_TKO_CONN) == [0]
    ensures ConnectionStatus(LocalTkoConfig(), connect, MAX_TKO_CONN)
            == connect(ConnectRequestFor(LocalTkoConfig(), 0)).status
  {
    var ports := LocalTkoConfig().ports;
    assert IsActiveBinding(ports[0]) by {
      assert ports[0].remoteIp[0] != NULL_IP_ADDRESS[0];
    }
  }
}
