# WLAN offload configuration, modelled in Dafny

This project models the state bookkeeping of the Infineon WLAN-offloads
example application, `wlan_offload.c` and the constants and scan macro of
`wlan_offload.h`. Four pieces are modelled.

- **Offload descriptor registry.** `add_offload_configuration_to_olm_list`
  places an `ol_desc_t` into the static `user_configuration_list`. That list
  has `NUM_OFFLOAD_TYPES` usable slots and one terminating slot.
  `olm_apply_offload_configuration` registers ARP, then Pkt_Filter, then TKO,
  and hands the list to the offload manager.
- **Packet-filter table builder.** Three functions fill the static
  `packet_filter_offload_config[MAX_PACKET_FILTER]`:
  - `configure_eth_type_packet_filter`;
  - `configure_port_type_packet_filter`;
  - `mark_end_of_packet_filter_configuration`.

  Each one first runs the `GO_TO_LAST_FILTER_INDEX` scan to find the first
  empty slot.
- **TCP keepalive connection loop.** `tcp_socket_connection_start` connects
  every active port binding through its own `global_socket` slot. It reports
  the code of the last failure.
- **Association retry loop.** `prvWifiConnect` makes up to
  `MAX_WIFI_RETRY_COUNT` association attempts, then queries the IP address
  once.

The files:

- `offload_config.dfy` (module `OffloadConfig`): integer types, result
  codes and the constants of `wlan_offload.h` and `wifi_config.h`.
- `olm_registry.dfy` (module `OlmRegistry`): the descriptor list as a value.
  It holds the registration function `AddToOlmList` and its lemmas, and the
  scan as written.
- `packet_filter.dfy` (module `PacketFilter`): the filter table as a value.
  It holds the scan `LastFilterIndex`, the three builder functions, the
  default configuration and the scan as written.
- `tcp_keepalive.dfy` (module `TcpKeepalive`): the keepalive configuration,
  the binding-activeness test and the status fold of the connection loop.
- `wifi_association.dfy` (module `WifiAssociation`): the retry loop, as a
  method with a `while` loop.
- `wlan_offload.dfy` (module `WlanOffload`): the class
  `WlanOffloadState`. It holds the three static arrays and the methods that
  update them in place. Each method is proved equal to the value-level
  function of the modules above.

External calls are parameters of the methods that make them:
- `WIFI_ConnectAP` is a function from the attempt number to the status that
  attempt returns.
- `WIFI_GetIP` is the status it returns.
- `cy_tcp_create_socket_connection` is a function from the request to the
  status and the socket it leaves.
- `cylpa_restart_olm` is a function from the list it is handed to its result.
- `SOCKETS_Init` is whether it passed.
- The descriptor that `cylpa_find_my_descriptor` finds is an `Option`.

A halt (`CY_ASSERT(0)`, or `PRINT_AND_ASSERT` on a failure) is the outcome
`Halted`.

Where the code and its design description differ, the model follows the
code:
- The filter functions return nothing. A full table is only logged.
- `mark_end` is not idempotent: the scan skips an existing end marker, so a
  second call writes a second marker one slot further on.
- A filter added after the end marker lands after it.
- After a successful association, a failed IP query makes `prvWifiConnect`
  return `CY_RSLT_TYPE_ERROR`. The association is not retried.
- In the local build, `tcp_socket_connection_start` always uses the local
  keepalive configuration (wlan_offload.c:531), so its branch for a missing
  descriptor, which would report `CY_RSLT_TYPE_ERROR` (wlan_offload.c:582-587),
  never runs. The model keeps that branch and proves the local build
  connects binding 0 and reports that call's status.

## Model

| member | source | states |
|---|---|---|
| OlmRegistry.FirstFreeSlot | wlan_offload.c:207-211 | The scan stops at the first slot before `NUM_OFFLOAD_TYPES` whose name is null or empty. Every slot before it is taken. It stops at `NUM_OFFLOAD_TYPES` only when all usable slots are taken. |
| OlmRegistry.AddToOlmList | wlan_offload.c:197-230 | A registration succeeds iff some usable slot is free. On success, the descriptor replaces one free slot and nothing else changes. Otherwise the result is `CY_RSLT_TYPE_ERROR` and the list is unchanged. The terminating slot is never written. |
| OlmRegistry.OccupiedScanStopsAtCount | wlan_offload.c:207-211 | On a list holding n descriptors in a prefix, the scan stops at n. |
| OlmRegistry.AddToOlmListAppends | wlan_offload.c:207-227 | With n descriptors in place, a registration writes slot n when n < 3 and keeps the prefix contiguous. Otherwise it fails and writes nothing. |
| OlmRegistry.RegistrationsFillInCallOrder | wlan_offload.c:197-230 | Up to three registrations into the zeroed list fill slots 0.. in call order. The rest, terminating slot included, stays zeroed. |
| OlmRegistry.RegistrationBeyondCapacityFails | wlan_offload.c:213-216 | A fourth registration fails with `CY_RSLT_TYPE_ERROR` and leaves the list unchanged. |
| OlmRegistry.DuplicateNamesAreStoredTwice | wlan_offload.c:207-227 | Names are not compared: the outcome does not depend on the descriptor, and registering the same descriptor twice stores it twice. |
| OlmRegistry.AsWrittenOlmScanAgrees | wlan_offload.c:207-208 | The scan as written reaches the slot where the corrected scan stops. It dereferences a null pointer there exactly when that slot's name is null. |
| OlmRegistry.AsWrittenOlmScan | wlan_offload.c:207-211 | The scan in the source's test order passes only taken slots and ends at or before `NUM_OFFLOAD_TYPES`. It faults exactly at a slot whose name is a null pointer; otherwise it stops at an empty name or at the bound. |
| OlmRegistry.EveryAsWrittenScanDereferencesNull | wlan_offload.c:207-208 | On every list the application can build, the scan as written reads `name[0]` through the null name of the first zeroed slot. |
| PacketFilter.LastFilterIndex | wlan_offload.h:153-157 | The scan only moves forward. It passes only non-empty slots and stops at the first empty slot at or after its start, or at the end of the table. |
| PacketFilter.ConfigureEthType | wlan_offload.c:280-302 | Only the scanned slot can change. The table length is preserved. |
| PacketFilter.ConfigurePortType | wlan_offload.c:321-353 | Only the scanned slot can change. The table length is preserved. |
| PacketFilter.MarkEnd | wlan_offload.c:247-263 | Only the scanned slot can change. The table length is preserved. |
| PacketFilter.WellFormedScanStopsAtCount | wlan_offload.h:153-157 | On a table holding k builder-written entries, the scan stops at k. |
| PacketFilter.ConfigureEthTypeAppends | wlan_offload.c:290-301 | With k entries, an EtherType filter goes to slot k with id k, both power states and the EtherType, only when k+1 < 20. Otherwise the table is unchanged. |
| PacketFilter.ConfigurePortTypeAppends | wlan_offload.c:333-352 | With k entries, a port filter (range 0) goes to slot k with id k, both power states and its port, direction and protocol, only when k+1 < 20. Otherwise the table is unchanged. |
| PacketFilter.MarkEndAppends | wlan_offload.c:255-262 | With k entries, the end marker goes to slot k when k+1 ≤ 20. Otherwise the table is unchanged. |
| PacketFilter.SecondMarkEndWritesAnotherMarker | wlan_offload.h:143-157 | The scan skips the end marker, so a second `mark_end` writes a second marker one slot further on. The call is not idempotent. |
| PacketFilter.FilterAfterMarkEndLandsBeyondMarker | wlan_offload.h:143-157 | A filter added after `mark_end` lands after the marker, which stays where it is. |
| PacketFilter.OnlyTheMarkerFitsInTheLastSlot | wlan_offload.h:136-140 | With 19 entries, neither configure call writes, and `mark_end` fills slot 19. 19 filters are usable; the 20th slot is for the marker. |
| PacketFilter.FullTableIsNeverWritten | wlan_offload.c:247-353 | With no empty slot left, no builder call writes anything. |
| PacketFilter.FirstFourDefaultFilters | wlan_offload.c:399-402 | From the zeroed table, the ARP and 802.1X EtherType filters and the DHCP and DNS port filters go to slots 0..3 in call order. |
| PacketFilter.LastFourDefaultFilters | wlan_offload.c:407-415 | After those four, the four TCP port filters go to slots 4..7 and the end marker to slot 8. |
| PacketFilter.DefaultFilterConfiguration | wlan_offload.c:399-415 | From the zeroed table, the filter calls leave filters 0..7 in call order: ARP and 802.1X EtherTypes, DHCP and DNS over UDP, then the client and server TCP ports in both directions. The marker is at 8 and slots 9..19 are empty. |
| PacketFilter.DefaultFilterSequence | wlan_offload.c:399-415 | The nine builder calls of the application in call order, on any table; the table keeps its 20 slots. Its value from the zeroed table is `DefaultFilterConfiguration`. |
| PacketFilter.AsWrittenFilterScanAgrees | wlan_offload.h:153-154 | The scan as written agrees with the corrected scan when an empty slot remains. It reads index 20, past the table, exactly when no slot from its start on is empty. |
| PacketFilter.AsWrittenFilterScan | wlan_offload.h:153-157 | The macro in the source's test order passes only non-empty slots. It stops inside the table at an empty slot or at the bound, and it reads past the table only when every slot from its start on is non-empty. |
| PacketFilter.RepeatEthTypeFills | wlan_offload.c:290-297 | n < 20 EtherType calls from the zeroed table leave n well-formed entries. |
| PacketFilter.FullTableScanReadsPastEnd | wlan_offload.h:153-154 | After 19 filters and an end marker, every slot is non-empty, and the next call's scan as written reads past the table. |
| TcpKeepalive.ActiveIndices | wlan_offload.c:539-546 | The connected indices are exactly those whose binding is active, in increasing order. |
| TcpKeepalive.IsActiveBinding | wlan_offload.c:543-545 | A binding is connected only when its remote address is not "0.0.0.0" and both ports are non-zero; `ActiveIndices` and `ConnectedSocketsAreReplies` state what follows from it. |
| TcpKeepalive.ConnectionStatusIsLastFailure | wlan_offload.c:506-598 | The status is success iff no connected binding failed. Otherwise it is the code of the last failing binding. |
| TcpKeepalive.ConnectionStatus | wlan_offload.c:506-568 | The status starts at success and is overwritten by each failing connect call; `ConnectionStatusIsLastFailure` states what it computes. |
| TcpKeepalive.ConnectedSocketsAreReplies | wlan_offload.c:543-560 | After the loop, each active binding's `global_socket` slot holds the socket its own connect call left. Every other slot keeps its old value. |
| TcpKeepalive.ConnectedSockets | wlan_offload.c:554-555 | Each connect call writes the socket it leaves into its own `global_socket` slot and keeps the array's length; `ConnectedSocketsAreReplies` states the slots. |
| TcpKeepalive.NoActiveBindingSucceedsVacuously | wlan_offload.c:506-580 | A configuration with no active binding connects nothing and reports success. |
| TcpKeepalive.LocalConfigConnectsOnlyBindingZero | wlan_offload.c:133-143 | The local configuration has four bindings, only binding 0 (3353 to 3360 on 192.168.0.108) is connected, and the status is that call's. |
| TcpKeepalive.LocalTkoConfig | wlan_offload.c:133-143 | The local keepalive configuration: interval 5, retry interval 3, retry count 3, binding 0 from 3353 to 3360 on 192.168.0.108 and three zeroed bindings; `LocalConfigConnectsOnlyBindingZero` states what it connects. |
| WifiAssociation.FirstAssociation | wlan_offload.c:635-655 | The first attempt whose association succeeds. Every earlier attempt failed. |
| WifiAssociation.PrvWifiConnect | wlan_offload.c:617-666 | At most `MAX_WIFI_RETRY_COUNT` attempts, stopping after the first success. The IP is queried once, only after that success. The result is success iff an association and then the IP query succeeded, and `CY_RSLT_TYPE_ERROR` otherwise. |
| WlanOffload.ApplyOffloadConfiguration | wlan_offload.c:374-440 | It returns iff all three registrations (ARP, Pkt_Filter, TKO, in that order) succeed. It then gives the list with all three registered, the table after the default filter calls, and the offload manager's reply to that list. A failed ARP registration halts with nothing changed. A failed Pkt_Filter or TKO registration halts with the earlier registrations and the built table in place. The terminating slot is never written. |
| WlanOffload.ApplyFromZeroedStatics | wlan_offload.c:379-437 | From the zeroed statics the list is ARP, Pkt_Filter, TKO and an untouched terminating slot, and the table is the default filter table. The outcome is the offload manager's reply to that list. |
| WlanOffload.WlanOffloadState.constructor | wlan_offload.c:106-153 | The statics start zero-initialised: a list of four zeroed descriptors, a table of 20 empty filters, and four null sockets. |
| WlanOffload.WlanOffloadState.FindOlmListSlot | wlan_offload.c:202-211 | The in-place scan returns `FirstFreeSlot` of the list. |
| WlanOffload.WlanOffloadState.AddOffloadConfigurationToOlmList | wlan_offload.c:197-230 | Writes the four fields into the array exactly as `AddToOlmList` says, and returns its result. |
| WlanOffload.WlanOffloadState.GoToLastFilterIndex | wlan_offload.h:153-157 | The loop returns `LastFilterIndex` of the table and reads it without changing it. |
| WlanOffload.WlanOffloadState.MarkEndOfPacketFilterConfiguration | wlan_offload.c:247-263 | The new table is `MarkEnd` of the old one. |
| WlanOffload.WlanOffloadState.ConfigureEthTypePacketFilter | wlan_offload.c:280-302 | The new table is `ConfigureEthType` of the old one. |
| WlanOffload.WlanOffloadState.ConfigurePortTypePacketFilter | wlan_offload.c:321-353 | The new table is `ConfigurePortType` of the old one. |
| WlanOffload.WlanOffloadState.ConfigureDefaultPacketFilters | wlan_offload.c:399-415 | The new table is `DefaultFilterSequence` of the old one. |
| WlanOffload.WlanOffloadState.OlmApplyOffloadConfiguration | wlan_offload.c:374-440 | The outcome and the new list and table are those `ApplyOffloadConfiguration` gives for the old ones. |
| WlanOffload.WlanOffloadState.ConnectActiveBindings | wlan_offload.c:539-580 | Connects the active bindings in index order, recorded by a ghost trace equal to `ActiveIndices`. The new socket array is `ConnectedSockets` of the old one, and the status is `ConnectionStatus`. |
| WlanOffload.WlanOffloadState.TcpSocketConnectionStart | wlan_offload.c:499-599 | A failed `SOCKETS_Init` halts. The configurator build with no descriptor reports success and connects nothing. Otherwise the configuration (the one found, or the local one) is connected as `ConnectActiveBindings` states, with the full socket array given. The local build connects binding 0 only and reports that call's status. |

## Left out

- `RunApplicationTask` and `InitApplication` (wlan_offload.c:172-176, 457-481): an endless loop of blocking RTOS calls, and a thread creation. Neither has state of its own.
- main.c is not part of this model. It holds board bring-up, the RTOS start and hooks, including the start-up sequence that calls the modelled functions.
- Logging (`APP_INFO`, `ERR_INFO`), string formatting and `ip4addr_ntoa` produce no state and are left out.
- The Wi-Fi credentials and `xNetworkParams` are left out: they are passed unchanged to `WIFI_ConnectAP`, which is a parameter here.
- `CY_ASSERT` and `PRINT_AND_ASSERT` are modelled as halting. In a build where the assert is compiled out, execution would continue after a failed registration; that path is not modelled.
- The external calls are parameters with no contract. These are `cylpa_restart_olm`, `cylpa_find_my_descriptor`, `get_default_ol_list`, `cy_tcp_create_socket_connection`, `SOCKETS_Init`, `WIFI_ConnectAP`, `WIFI_GetIP` and `cy_lwip_get_interface`. The network interface handle is not modelled.
- `USE_CONFIGURATOR_GENERATED_CONFIG` is a parameter of `TcpSocketConnectionStart` rather than a compile-time switch. The other compile-time switches (`ARP_OFFLOAD`, `PACKET_FILTER_OFFLOAD`, `TCP_KEEPALIVE_OFFLOAD`) are taken as enabled, as the header sets them.
- The union `u` of `cy_pf_ol_cfg_t` is a datatype with one variant per filter kind. The bytes that one kind's fields share with another's are not modelled.
- The ARP configuration, the function tables and the offload contexts are opaque pointers, named by the object they point at.
- The C `uint32_t`/`int` index arithmetic is unbounded here. All indices stay below 21, so no wrap-around can occur.
- The values of `CY_PF_OL_FEAT_ETHTYPE`, `CY_PF_OL_FEAT_PORTNUM` and `CY_PF_OL_FEAT_LAST` come from a header that is not part of this model. The datatype `Feature` assumes each differs from `FEATURE_TYPE_EMPTY` (0), so that the scan skips the end marker.
- Other constants from headers that are not part of this model:
  - `CY_RSLT_TYPE_ERROR` is taken as 2. Only its difference from `CY_RSLT_SUCCESS` (0) matters.
  - `MAX_TKO_CONN` is taken as 4.
  - The descriptor names are taken as "ARP", "Pkt_Filter" and "TKO".
- The type of a binding's `remote_ip` is declared in a header that is not part of this model. It is modelled as a string. The three zero-initialised bindings of the local configuration are taken to have the empty string there, so they are inactive because of their zero ports.
- WifiAssociation.PrvWifiConnect: the attempt counts and IP queries are ghost out-parameters counting the calls of the loop; the C code has no such counters.

## Findings

| source | as written | input that shows it | evidently intended | confidence | as-written member | corrected member |
|---|---|---|---|---|---|---|
| wlan_offload.c:207 | The loop tests `offload_list->name[0] != '\0'` before `index < NUM_OFFLOAD_TYPES`. The zero-initialised slots have a null `name`. | The first registration into the zeroed `user_configuration_list` reads `name[0]` through the null name of slot 0. On a full list, the scan reads the null name of the terminating slot. | Treat a null name as a free slot, and test the index first. | high (undefined behaviour in C); not executed | OlmRegistry.EveryAsWrittenScanDereferencesNull | OlmRegistry.FirstFreeSlot |
| wlan_offload.h:153-154 | `GO_TO_LAST_FILTER_INDEX` reads `packet_filter_offload_config[x].feature` before testing `MAX_PACKET_FILTER > x`. | 19 `configure_eth_type_packet_filter` calls, then `mark_end_of_packet_filter_configuration`, then any builder call: every slot is non-empty, so the scan reads index 20, past the array. | Test the bound first, as in `while (MAX_PACKET_FILTER > x && FEATURE_TYPE_EMPTY != …)`. | high (out-of-bounds read in C); not executed | PacketFilter.FullTableScanReadsPastEnd | WlanOffload.WlanOffloadState.GoToLastFilterIndex |
