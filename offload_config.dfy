/**
 * Scalar types and build-time constants of the WLAN offload example
 * (wlan_offload.h and wifi_config.h), plus the result codes and the
 * halting outcome shared by the operations.
 */
module OffloadConfig {

  /** C's uint16_t and uint32_t. */
  newtype uint16 = x: int | 0 <= x < 0x1_0000
  newtype uint32 = x: int | 0 <= x < 0x1_0000_0000

  /** cy_rslt_t: a 32-bit result code, zero meaning success. */
  type Rslt = uint32

  const CY_RSLT_SUCCESS: Rslt := 0
  /** The middleware's error type code; its value comes from a header outside
      this model, and only its being non-zero matters here. */
  const CY_RSLT_TYPE_ERROR: Rslt := 2

  datatype Option<T> = None | Some(value: T)

  /** What a call that may hit CY_ASSERT(0) or PRINT_AND_ASSERT does: it
      either returns a result code or stops the device. */
  datatype Outcome = Returned(rslt: Rslt) | Halted

  /** Three offload types (ARP, packet filter, TCP keepalive); the registry
      has one more slot, the terminating entry. */
  const NUM_OFFLOAD_TYPES := 3

  /** Size of the packet-filter table: 19 filters and one slot for the end
      marker. */
  const MAX_PACKET_FILTER := 20

  const ETH_TYPE_ARP_PACKET: uint16 := 0x806
  const ETH_TYPE_8021X_PACKET: uint16 := 0x888E
  const PORT_TYPE_DHCP_UDP: uint16 := 68
  const PORT_TYPE_DNS_UDP: uint16 := 53
  const TCP_CLIENT_PORT_NUMBER: uint16 := 3353
  const TCP_SERVER_PORT_NUMBER: uint16 := 3360
  const PORT_TYPE_TCP_CLIENT := TCP_CLIENT_PORT_NUMBER
  const PORT_TYPE_TCP_SERVER := TCP_SERVER_PORT_NUMBER

  const TKO_INTERVAL_SECS: uint16 := 5
  const TKO_RETRY_INTERVAL_SECS: uint16 := 3
  const TKO_RETRY_COUNT: uint16 := 3
  const REMOTE_TCP_SERVER_IP_ADDRESS := "192.168.0.108"
  const ENABLE_HOST_TCP_KEEPALIVE := true

  /** Number of keepalive connections the radio firmware supports (the
      middleware's default of 4). */
  const MAX_TKO_CONN := 4

  const MAX_WIFI_RETRY_COUNT := 3
  const NULL_IP_ADDRESS := "0.0.0.0"

  /** Offload names used by the offload manager to find its descriptors. */
  const ARP_NAME := "ARP"
  const PKT_FILTER_NAME := "Pkt_Filter"
  const TKO_NAME := "TKO"
}
