/**
 * The offload manager's descriptor list (user_configuration_list) as a
 * value: which slot a registration takes, what it writes, and the scan as
 * written, which reads the first character of a name that may be a null
 * pointer. The class in wlan_offload.dfy performs the writes in place.
 */
module OlmRegistry {
  import opened OffloadConfig

  /** A `const char *`: a null pointer or a zero-terminated string. */
  datatype CString = NullString | Str(chars: string)

  /** A pointer to an object this model does not look into (a configuration,
      a function table, a context), named by the object it points at. */
  datatype Pointer = NullPointer | AddressOf(target: string)

  /** ol_desc_t: one offload descriptor. */
  datatype OlDesc = OlDesc(name: CString, cfg: Pointer, fns: Pointer, ol: Pointer)

  /** A zero-initialised descriptor, as every slot of the static list starts. */
  const ZERO_DESC := OlDesc(NullString, NullPointer, NullPointer, NullPointer)

  /** The static list: NUM_OFFLOAD_TYPES usable slots and the terminating one. */
  function ZeroedList(): seq<OlDesc> {
    seq(NUM_OFFLOAD_TYPES + 1, _ => ZERO_DESC)
  }

  /** A slot the registration scan treats as free: its name is a null pointer
      or an empty string. */
  predicate IsFreeSlot(d: OlDesc) {
    d.name == NullString || d.name == Str("")
  }

  /** Where the registration scan started at index stops: the first free slot
      before NUM_OFFLOAD_TYPES, or NUM_OFFLOAD_TYPES when there is none. */
  function FirstFreeSlot(list: seq<OlDesc>, index: nat): (r: nat)
    requires index <= NUM_OFFLOAD_TYPES < |list|
    ensures index <= r <= NUM_OFFLOAD_TYPES
    ensures forall j :: index <= j < r ==> !IsFreeSlot(list[j])
    ensures r < NUM_OFFLOAD_TYPES ==> IsFreeSlot(list[r])
    decreases NUM_OFFLOAD_TYPES - index
  {
    if IsFreeSlot(list[index]) || index == NUM_OFFLOAD_TYPES then index
    else FirstFreeSlot(list, index + 1)
  }

  /** The result code and the list after add_offload_configuration_to_olm_list. */
  datatype Registration = Registration(result: Rslt, list: seq<OlDesc>)

  /** Registering d: it fails, changing nothing, exactly when the usable slots
      are all taken; otherwise d goes to one usable slot. The terminating
      slot is never written, and d's name is not compared with the names
      already present. */
  function AddToOlmList(list: seq<OlDesc>, d: OlDesc): (r: Registration)
    requires NUM_OFFLOAD_TYPES < |list|
    ensures |r.list| == |list|
    ensures r.result == CY_RSLT_SUCCESS <==> exists j :: 0 <= j < NUM_OFFLOAD_TYPES && IsFreeSlot(list[j])
    ensures r.result != CY_RSLT_SUCCESS ==> r.result == CY_RSLT_TYPE_ERROR && r.list == list
    ensures r.result == CY_RSLT_SUCCESS ==>
              exists j :: 0 <= j < NUM_OFFLOAD_TYPES && IsFreeSlot(list[j]) && r.list == list[j := d]
    ensures forall j :: NUM_OFFLOAD_TYPES <= j < |list| ==> r.list[j] == list[j]
  {
    var index := FirstFreeSlot(list, 0);
    if index == NUM_OFFLOAD_TYPES then Registration(CY_RSLT_TYPE_ERROR, list)
    else Registration(CY_RSLT_SUCCESS, list[index := d])
  }

  /** The list holds registered descriptors at [0, n) and zeroed slots from n on. */
  ghost predicate OccupiedUpTo(list: seq<OlDesc>, n: nat) {
    && |list| == NUM_OFFLOAD_TYPES + 1
    && n <= NUM_OFFLOAD_TYPES
    && (forall j :: 0 <= j < n ==> !IsFreeSlot(list[j]))
    && (forall j :: n <= j < |list| ==> list[j] == ZERO_DESC)
  }

  lemma {:induction false} OccupiedScanStopsAtCount(list: seq<OlDesc>, n: nat, index: nat)
    requires OccupiedUpTo(list, n) && index <= n
    ensures FirstFreeSlot(list, index) == n
    decreases n - index
  {
    if index < n {
      OccupiedScanStopsAtCount(list, n, index + 1);
    }
  }

  /** With n descriptors in place, a named descriptor goes to slot n when
      n < NUM_OFFLOAD_TYPES and the list stays contiguous; when all usable
      slots are taken the call fails and writes nothing. */
  lemma AddToOlmListAppends(list: seq<OlDesc>, n: nat, d: OlDesc)
    requires OccupiedUpTo(list, n)
    ensures AddToOlmList(list, d)
         == if n < NUM_OFFLOAD_TYPES then Registration(CY_RSLT_SUCCESS, list[n := d])
            else Registration(CY_RSLT_TYPE_ERROR, list)
    ensures n < NUM_OFFLOAD_TYPES && !IsFreeSlot(d) ==> OccupiedUpTo(AddToOlmList(list, d).list, n + 1)
  {
    OccupiedScanStopsAtCount(list, n, 0);
  }

  /** The list after registering ds one after another, failures included. */
  function RegisterAll(list: seq<OlDesc>, ds: seq<OlDesc>): (r: seq<OlDesc>)
    requires NUM_OFFLOAD_TYPES < |list|
    ensures |r| == |list|
  {
    if ds == [] then list
    else AddToOlmList(RegisterAll(list, ds[..|ds| - 1]), ds[|ds| - 1]).list
  }

  /** Registering up to NUM_OFFLOAD_TYPES named descriptors into the zeroed
      list fills a contiguous prefix in call order and leaves the rest,
      terminating slot included, zeroed. */
  lemma {:induction false} RegistrationsFillInCallOrder(ds: seq<OlDesc>)
    requires |ds| <= NUM_OFFLOAD_TYPES
    requires forall j :: 0 <= j < |ds| ==> !IsFreeSlot(ds[j])
    ensures RegisterAll(ZeroedList(), ds) == ds + seq(NUM_OFFLOAD_TYPES + 1 - |ds|, _ => ZERO_DESC)
    ensures OccupiedUpTo(RegisterAll(ZeroedList(), ds), |ds|)
  {
    if ds != [] {
      var front := ds[..|ds| - 1];
      RegistrationsFillInCallOrder(front);
      AddToOlmListAppends(RegisterAll(ZeroedList(), front), |front|, ds[|ds| - 1]);
      assert ds == front + [ds[|ds| - 1]];
    }
  }

  /** A registration beyond the usable slots fails and changes nothing. */
  lemma {:induction false} RegistrationBeyondCapacityFails(ds: seq<OlDesc>, d: OlDesc)
    requires |ds| == NUM_OFFLOAD_TYPES
    requires forall j :: 0 <= j < |ds| ==> !IsFreeSlot(ds[j])
    ensures AddToOlmList(RegisterAll(ZeroedList(), ds), d)
         == Registration(CY_RSLT_TYPE_ERROR, RegisterAll(ZeroedList(), ds))
  {
    RegistrationsFillInCallOrder(ds);
    AddToOlmListAppends(RegisterAll(ZeroedList(), ds), |ds|, d);
  }

  /** No duplicate check: the outcome of a registration does not depend on the
      descriptor, so registering the same one twice stores it twice. */
  lemma DuplicateNamesAreStoredTwice(list: seq<OlDesc>, d: OlDesc, e: OlDesc)
    requires NUM_OFFLOAD_TYPES < |list|
    ensures AddToOlmList(list, d).result == AddToOlmList(list, e).result
    ensures !IsFreeSlot(d) ==> RegisterAll(ZeroedList(), [d, d])[..2] == [d, d]
  {
    if !IsFreeSlot(d) {
      RegistrationsFillInCallOrder([d, d]);
    }
  }

  // ---------------------------------------------------------------------
  // The scan as written at wlan_offload.c:207-211: it reads name[0] of the
  // slot before testing the index, and a zeroed slot's name is a null pointer.

  /** What the as-written scan does: stop at a slot, or dereference the null
      name of a slot. */
  datatype NameScan = StopsAtSlot(index: nat) | DereferencesNull(index: nat)

  function AsWrittenOlmScan(list: seq<OlDesc>, index: nat): (r: NameScan)
    requires index <= NUM_OFFLOAD_TYPES < |list|
    ensures index <= r.index <= NUM_OFFLOAD_TYPES
    ensures forall j :: index <= j < r.index ==> !IsFreeSlot(list[j])
    ensures r.DereferencesNull? <==> list[r.index].name == NullString
    ensures r.StopsAtSlot? ==> list[r.index].name == Str("") || r.index == NUM_OFFLOAD_TYPES
    decreases NUM_OFFLOAD_TYPES - index
  {
    match list[index].name
    case NullString => DereferencesNull(index)
    case Str(s) =>
      if s == "" || !(index < NUM_OFFLOAD_TYPES) then StopsAtSlot(index)
      else AsWrittenOlmScan(list, index + 1)
  }

  /** The as-written scan reaches the slot where FirstFreeSlot stops, and
      faults there exactly when that slot's name is a null pointer. */
  lemma {:induction false} AsWrittenOlmScanAgrees(list: seq<OlDesc>, index: nat)
    requires index <= NUM_OFFLOAD_TYPES < |list|
    ensures var r := FirstFreeSlot(list, index);
            AsWrittenOlmScan(list, index)
            == if list[r].name == NullString then DereferencesNull(r) else StopsAtSlot(r)
    decreases NUM_OFFLOAD_TYPES - index
  {
    if !IsFreeSlot(list[index]) && index < NUM_OFFLOAD_TYPES {
      AsWrittenOlmScanAgrees(list, index + 1);
    }
  }

  /** On every list the application can build (named descriptors in a prefix,
      zeroed slots after), the as-written scan dereferences the null name of
      the first zeroed slot, the terminating slot when the list is full. */
  lemma EveryAsWrittenScanDereferencesNull(list: seq<OlDesc>, n: nat)
    requires OccupiedUpTo(list, n)
    ensures AsWrittenOlmScan(list, 0) == DereferencesNull(n)
  {
    OccupiedScanStopsAtCount(list, n, 0);
    AsWrittenOlmScanAgrees(list, 0);
  }
}
