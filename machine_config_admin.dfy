/**
 * The machine-configuration admin screen
 * (components/admin/MachineConfigAdmin.tsx): searching, filtering and paging
 * the machines and the machine–attachment links, the lookups of existing
 * hydraulic connections, and the input→hose selection that requests a new
 * hydraulic connection.
 */
module MachineConfigAdmin {
  import opened Wrappers
  import opened Text
  import opened Seqs

  datatype Machine = Machine(id: string, naam: string, machineType: string, kenteken: Option<string>)

  datatype Attachment = Attachment(id: string, naam: string, attachmentType: string, identificatienummer: Option<string>)

  /** A machine–attachment link, with the joined machine and attachment rows. */
  datatype Link = Link(id: string, machineId: string, attachmentId: string,
                       machine: Option<Machine>, attachment: Option<Attachment>)

  datatype HydraulicInput = HydraulicInput(id: string, machineId: string, inputNummer: int, kleur: string, volgorde: int)

  datatype AttachmentHose = AttachmentHose(id: string, attachmentId: string, kleur: string, volgorde: int)

  datatype HydraulicConnection = HydraulicConnection(id: string, machineId: string, attachmentId: string,
                                                     machineInputId: string, attachmentHoseId: string)

  /** The "connection" filter: every machine, only linked ones, or only unlinked ones. */
  datatype LinkFilter = All | Connected | Unconnected

  const PageSize: nat := 8

  /** `text.toLowerCase().includes(search.toLowerCase())` */
  predicate Matches(text: string, search: string) {
    Contains(Lower(text), Lower(search))
  }

  predicate SearchMatch(m: Machine, search: string) {
    Matches(m.naam, search) || Matches(m.kenteken.GetOr(""), search) || Matches(m.machineType, search)
  }

  predicate TypeMatch(machineType: string, filterType: string) {
    filterType == "all" || machineType == filterType
  }

  /** `connections.some(c => c.machine_id === machine.id)` */
  predicate Linked(links: seq<Link>, m: Machine) {
    exists i :: 0 <= i < |links| && links[i].machineId == m.id
  }

  predicate LinkMatch(filter: LinkFilter, linked: bool) {
    match filter
    case All => true
    case Connected => linked
    case Unconnected => !linked
  }

  predicate KeepMachine(links: seq<Link>, search: string, filterType: string, filter: LinkFilter, m: Machine) {
    SearchMatch(m, search) && TypeMatch(m.machineType, filterType) && LinkMatch(filter, Linked(links, m))
  }

  /** `filteredMachines`: the machines that pass search, type and link
      filter, in their original order. */
  function FilteredMachines(machines: seq<Machine>, links: seq<Link>, search: string, filterType: string,
                            filter: LinkFilter): (r: seq<Machine>)
    ensures SubsequenceOf(r, machines)
    ensures forall m :: m in r <==> m in machines && SearchMatch(m, search) && TypeMatch(m.machineType, filterType)
                                    && (filter == Connected ==> Linked(links, m))
                                    && (filter == Unconnected ==> !Linked(links, m))
  {
    Filter(machines, m => KeepMachine(links, search, filterType, filter, m))
  }

  /** The "connected" and "unconnected" filters split the machines the other
      filters keep into two disjoint parts. */
  lemma LinkFilterSplits(machines: seq<Machine>, links: seq<Link>, search: string, filterType: string, m: Machine)
    ensures m in FilteredMachines(machines, links, search, filterType, All) <==>
            m in FilteredMachines(machines, links, search, filterType, Connected)
            || m in FilteredMachines(machines, links, search, filterType, Unconnected)
    ensures !(m in FilteredMachines(machines, links, search, filterType, Connected)
              && m in FilteredMachines(machines, links, search, filterType, Unconnected))
  {
  }

  /** The search ignores the case of what is typed (for ASCII letters). */
  lemma SearchIgnoresCase(m: Machine, search: string)
    ensures SearchMatch(m, Lower(search)) <==> SearchMatch(m, search)
  {
    LowerIdempotent(search);
  }

  /** With an empty search, type "all" and link filter "all", every machine is shown. */
  lemma {:induction false} NoFilterKeepsAll(machines: seq<Machine>, links: seq<Link>)
    ensures FilteredMachines(machines, links, "", "all", All) == machines
  {
    forall m: Machine ensures KeepMachine(links, "", "all", All, m) {
      assert OccursAt(Lower(m.naam), Lower(""), 0);
    }
    FilterKeepsAll(machines, m => KeepMachine(links, "", "all", All, m));
  }

  /** `Math.ceil(n / pageSize)` */
  function TotalPages(n: nat): (t: nat)
    ensures t * PageSize >= n
    ensures t > 0 ==> (t - 1) * PageSize < n
  {
    (n + PageSize - 1) / PageSize
  }

  function Min(a: int, b: int): int { if a <= b then a else b }

  /** `list.slice((page-1)*pageSize, page*pageSize)` for a page number of at
      least 1; `slice` stops at the end of the list. */
  function Page<T>(list: seq<T>, page: nat): (r: seq<T>)
    requires page >= 1
    ensures |r| <= PageSize
    ensures |r| == if (page - 1) * PageSize < |list| then Min(PageSize, |list| - (page - 1) * PageSize) else 0
    ensures forall i :: 0 <= i < |r| ==> r[i] == list[(page - 1) * PageSize + i]
  {
    var start := Min((page - 1) * PageSize, |list|);
    var end := Min(page * PageSize, |list|);
    list[start..end]
  }

  /** Pages 1..k, one after the other. */
  function Pages<T>(list: seq<T>, k: nat): seq<T> {
    if k == 0 then [] else Pages(list, k - 1) + Page(list, k)
  }

  lemma {:induction false} PagesPrefix<T>(list: seq<T>, k: nat)
    ensures Pages(list, k) == list[..Min(k * PageSize, |list|)]
  {
    if k > 0 {
      PagesPrefix(list, k - 1);
      var a := Min((k - 1) * PageSize, |list|);
      var b := Min(k * PageSize, |list|);
      assert list[..a] + list[a..b] == list[..b];
    }
  }

  /** Pages 1..totalPages show every filtered machine exactly once, in order. */
  lemma PagesPartition<T>(list: seq<T>)
    ensures Pages(list, TotalPages(|list|)) == list
  {
    PagesPrefix(list, TotalPages(|list|));
  }

  /** A page is empty exactly when it lies beyond the last page. */
  lemma PageEmptyIff<T>(list: seq<T>, page: nat)
    requires page >= 1
    ensures Page(list, page) == [] <==> page > TotalPages(|list|)
  {
  }

  /** `Array.from(new Set(machines.map(m => m.type)))` */
  function AllTypes(machines: seq<Machine>): (r: seq<string>)
    ensures forall t :: t in r <==> exists i :: 0 <= i < |machines| && machines[i].machineType == t
    ensures forall i, j :: 0 <= i < j < |r| ==> r[i] != r[j]
  {
    var types := seq(|machines|, i requires 0 <= i < |machines| => machines[i].machineType);
    forall t ensures t in types <==> exists i :: 0 <= i < |machines| && machines[i].machineType == t {
      if t in types {
        var i :| 0 <= i < |types| && types[i] == t;
        assert machines[i].machineType == t;
      }
      if exists i :: 0 <= i < |machines| && machines[i].machineType == t {
        var i :| 0 <= i < |machines| && machines[i].machineType == t;
        assert types[i] == t;
      }
    }
    Distinct(types)
  }

  /** The six texts a link's search looks at; a missing attachment reads as ''. */
  predicate LinkSearchMatch(m: Machine, a: Option<Attachment>, search: string) {
    Matches(m.naam, search) || Matches(m.kenteken.GetOr(""), search) || Matches(m.machineType, search)
    || Matches(if a.Some? then a.value.naam else "", search)
    || Matches(if a.Some? then a.value.identificatienummer.GetOr("") else "", search)
    || Matches(if a.Some? then a.value.attachmentType else "", search)
  }

  /** A link without its machine row is always kept; a link counts as connected. */
  predicate KeepLink(search: string, filterType: string, filter: LinkFilter, c: Link) {
    c.machine.None?
    || (LinkSearchMatch(c.machine.value, c.attachment, search) && TypeMatch(c.machine.value.machineType, filterType)
        && LinkMatch(filter, true))
  }

  /** `filteredConnections` */
  function FilteredConnections(links: seq<Link>, search: string, filterType: string, filter: LinkFilter): (r: seq<Link>)
    ensures SubsequenceOf(r, links)
    ensures forall c :: c in links && c.machine.None? ==> c in r
    ensures filter == Unconnected ==> forall c :: c in r ==> c.machine.None?
    ensures forall c :: c in r && c.machine.Some? <==>
              c in links && c.machine.Some? && filter != Unconnected
              && LinkSearchMatch(c.machine.value, c.attachment, search) && TypeMatch(c.machine.value.machineType, filterType)
  {
    Filter(links, c => KeepLink(search, filterType, filter, c))
  }

  /** Every link is connected, so the "connected" filter shows what "all" shows. */
  lemma ConnectedLinksAreAll(links: seq<Link>, search: string, filterType: string)
    ensures FilteredConnections(links, search, filterType, Connected) == FilteredConnections(links, search, filterType, All)
  {
    FilterSamePredicate(links, c => KeepLink(search, filterType, Connected, c), c => KeepLink(search, filterType, All, c));
  }

  /** `getConnectionForInput`: the first connection that uses the input. */
  function ConnectionForInput(conns: seq<HydraulicConnection>, inputId: string): (r: Option<HydraulicConnection>)
    ensures r.Some? ==> exists i :: 0 <= i < |conns| && conns[i] == r.value && r.value.machineInputId == inputId
                                    && forall j :: 0 <= j < i ==> conns[j].machineInputId != inputId
    ensures r.None? <==> forall j :: 0 <= j < |conns| ==> conns[j].machineInputId != inputId
  {
    Find(conns, (c: HydraulicConnection) => c.machineInputId == inputId)
  }

  /** `getConnectionForHose`: the first connection that uses the hose. */
  function ConnectionForHose(conns: seq<HydraulicConnection>, hoseId: string): (r: Option<HydraulicConnection>)
    ensures r.Some? ==> exists i :: 0 <= i < |conns| && conns[i] == r.value && r.value.attachmentHoseId == hoseId
                                    && forall j :: 0 <= j < i ==> conns[j].attachmentHoseId != hoseId
    ensures r.None? <==> forall j :: 0 <= j < |conns| ==> conns[j].attachmentHoseId != hoseId
  {
    Find(conns, (c: HydraulicConnection) => c.attachmentHoseId == hoseId)
  }

  /** Whether a connection from this input to this hose exists already. */
  predicate PairExists(conns: seq<HydraulicConnection>, inputId: string, hoseId: string) {
    exists i :: 0 <= i < |conns| && conns[i].machineInputId == inputId && conns[i].attachmentHoseId == hoseId
  }

  /**
   * The selection state of the hydraulic-connection dialog: pick an input,
   * then a hose, and a connection between the two is requested.
   */
  class HoseLinker {
    var selectedInput: Option<HydraulicInput>
    var selectedHose: Option<AttachmentHose>
    var isConnecting: bool
    var hydraulicConnections: seq<HydraulicConnection>

    /** While connecting, an input is selected. */
    ghost predicate Valid()
      reads this
    {
      isConnecting ==> selectedInput.Some?
    }

    predicate Idle()
      reads this
    {
      selectedInput.None? && selectedHose.None? && !isConnecting
    }

    /** The state after loading, and after opening or closing the dialog. */
    constructor (conns: seq<HydraulicConnection>)
      ensures Idle() && Valid()
      ensures hydraulicConnections == conns
    {
      selectedInput := None;
      selectedHose := None;
      isConnecting := false;
      hydraulicConnections := conns;
    }

    /** `handleInputClick` */
    method HandleInputClick(input: HydraulicInput)
      modifies this`selectedInput, this`selectedHose, this`isConnecting
      ensures Valid()
      ensures !old(isConnecting) ==> selectedInput == Some(input) && selectedHose.None? && isConnecting
      ensures old(isConnecting) && old(selectedInput).Some? && old(selectedInput).value.id == input.id ==>
                selectedInput.None? && !isConnecting && selectedHose == old(selectedHose)
      ensures old(isConnecting) && !(old(selectedInput).Some? && old(selectedInput).value.id == input.id) ==>
                selectedInput == Some(input) && selectedHose.None? && isConnecting
    {
      if !isConnecting {
        selectedInput := Some(input);
        selectedHose := None;
        isConnecting := true;
      } else if selectedInput.Some? && selectedInput.value.id == input.id {
        selectedInput := None;
        isConnecting := false;
      } else {
        selectedInput := Some(input);
        selectedHose := None;
      }
    }

    /** `handleHoseClick`: returns the (input id, hose id) pair whose creation
        it requests, if any. */
    method HandleHoseClick(hose: AttachmentHose) returns (create: Option<(string, string)>)
      modifies this`selectedInput, this`selectedHose, this`isConnecting
      ensures old(Valid()) ==> Valid()
      ensures create.Some? ==> !PairExists(hydraulicConnections, create.value.0, create.value.1)
      ensures old(isConnecting) && old(selectedInput).Some?
              && PairExists(hydraulicConnections, old(selectedInput).value.id, hose.id) ==>
                create.None? && selectedInput == old(selectedInput) && selectedHose == old(selectedHose) && isConnecting
      ensures old(isConnecting) && old(selectedInput).Some?
              && !PairExists(hydraulicConnections, old(selectedInput).value.id, hose.id) ==>
                create == Some((old(selectedInput).value.id, hose.id)) && Idle()
      ensures !(old(isConnecting) && old(selectedInput).Some?) ==>
                create.None? && selectedHose == Some(hose)
                && selectedInput == old(selectedInput) && isConnecting == old(isConnecting)
    {
      if isConnecting && selectedInput.Some? {
        var inputId := selectedInput.value.id;
        var existing := Find(hydraulicConnections, (c: HydraulicConnection) => c.machineInputId == inputId && c.attachmentHoseId == hose.id);
        if existing.Some? {
          return None;
        }
        create := Some((inputId, hose.id));
        selectedInput := None;
        selectedHose := None;
        isConnecting := false;
      } else {
        create := None;
        selectedHose := Some(hose);
      }
    }
  }
}
