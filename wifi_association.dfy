/**
 * prvWifiConnect: up to MAX_WIFI_RETRY_COUNT association attempts, an IP
 * query after the first success. The Wi-Fi driver calls are parameters:
 * connectAP(k) is what the k-th WIFI_ConnectAP call returns, ipStatus what
 * the WIFI_GetIP call returns.
 */
module WifiAssociation {
  import opened OffloadConfig

  /** WIFIReturnCode_t. */
  datatype WiFiReturnCode = WiFiSuccess | WiFiFailure | WiFiTimeout | WiFiNotSupported

  /** The first attempt, from k on, whose association succeeds, or
      MAX_WIFI_RETRY_COUNT when none of the remaining attempts does. */
  function FirstAssociation(connectAP: nat -> WiFiReturnCode, k: nat): (r: nat)
    requires k <= MAX_WIFI_RETRY_COUNT
    ensures k <= r <= MAX_WIFI_RETRY_COUNT
    ensures forall j :: k <= j < r ==> connectAP(j) != WiFiSuccess
    ensures r < MAX_WIFI_RETRY_COUNT ==> connectAP(r) == WiFiSuccess
    decreases MAX_WIFI_RETRY_COUNT - k
  {
    if k == MAX_WIFI_RETRY_COUNT || connectAP(k) == WiFiSuccess then k
    else FirstAssociation(connectAP, k + 1)
  }

  /** Associates with the access point. It makes association attempts until
      one succeeds, at most MAX_WIFI_RETRY_COUNT of them, queries the IP
      address once right after that success, and succeeds exactly when an
      association and then the IP query succeeded: the IP query's status
      replaces the association's. */
  method PrvWifiConnect(connectAP: nat -> WiFiReturnCode, ipStatus: WiFiReturnCode)
    returns (result: Rslt, ghost attempts: nat, ghost ipQueries: nat)
    ensures 1 <= attempts <= MAX_WIFI_RETRY_COUNT
    ensures forall k :: 0 <= k < attempts - 1 ==> connectAP(k) != WiFiSuccess
    ensures attempts < MAX_WIFI_RETRY_COUNT ==> connectAP(attempts - 1) == WiFiSuccess
    ensures var first := FirstAssociation(connectAP, 0);
            && attempts == (if first < MAX_WIFI_RETRY_COUNT then first + 1 else MAX_WIFI_RETRY_COUNT)
            && ipQueries == (if first < MAX_WIFI_RETRY_COUNT then 1 else 0)
            && (result == CY_RSLT_SUCCESS <==> first < MAX_WIFI_RETRY_COUNT && ipStatus == WiFiSuccess)
    ensures result == CY_RSLT_SUCCESS || result == CY_RSLT_TYPE_ERROR
  {
    // The C variable starts uninitialised; the loop body always runs at
    // least once, so this value is never read.
    var xWifiStatus := WiFiFailure;
    var retryCount := 0;
    attempts, ipQueries := 0, 0;
    result := CY_RSLT_SUCCESS;
    while retryCount < MAX_WIFI_RETRY_COUNT
      invariant retryCount <= MAX_WIFI_RETRY_COUNT
      invariant attempts == retryCount && ipQueries == 0
      invariant forall j :: 0 <= j < retryCount ==> connectAP(j) != WiFiSuccess
      invariant xWifiStatus != WiFiSuccess
    {
      xWifiStatus := connectAP(retryCount);
      attempts := attempts + 1;
      if xWifiStatus == WiFiSuccess {
        xWifiStatus := ipStatus;
        ipQueries := ipQueries + 1;
        break;
      }
      retryCount := retryCount + 1;
    }
    if xWifiStatus != WiFiSuccess {
      result := CY_RSLT_TYPE_ERROR;
    }
  }
}
