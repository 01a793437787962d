/**
 * The client list screen: the branch-of-activity ("ramo") filter and its
 * modal, the table's global text filter, the filter badges and the local
 * effect of a delete.
 */
module Clientes {
  import opened Wrappers
  import opened Text
  import opened Seqs

  datatype Ramo = Ramo(id: nat, descricao: string)

  /** A client row; `idRamo` is null or a number, and 0 counts as no branch. */
  datatype Cliente = Cliente(id: int, nome: string, telefone: Option<string>, idRamo: Option<nat>)

  /** The applied filter, the modal's working copy, and whether the modal is open. */
  datatype FilterState = FilterState(ramosFilter: seq<string>, tempRamosFilter: seq<string>, showFilterModal: bool)

  /** A badge for one selected branch. */
  datatype Badge = Badge(id: string, descricao: string)

  /** A table cell's value as the global filter receives it. */
  datatype CellValue = Text(s: string) | NonText

  /** `cliente.idRamo && ramosFilter.includes(cliente.idRamo.toString())`. */
  predicate InRamos(c: Cliente, ramosFilter: seq<string>)
  {
    c.idRamo.Some? && c.idRamo.value != 0 && NatToString(c.idRamo.value) in ramosFilter
  }

  /** `filteredData`: everything when no branch is selected, else the clients of a selected branch. */
  function FilterByRamos(clients: seq<Cliente>, ramosFilter: seq<string>): (r: seq<Cliente>)
    ensures ramosFilter == [] ==> r == clients
    ensures ramosFilter != [] ==> forall i :: 0 <= i < |r| ==> InRamos(r[i], ramosFilter)
    ensures ramosFilter != [] ==> forall c :: InRamos(c, ramosFilter) ==> multiset(r)[c] == multiset(clients)[c]
    ensures IsSubsequence(r, clients)
  {
    if |ramosFilter| == 0 then
      SubsequenceReflexive(clients);
      clients
    else
      Filter(clients, (c: Cliente) => InRamos(c, ramosFilter))
  }

  /** With a filter in place, clients without a branch (null or 0) never show. */
  lemma ClientsWithoutRamoHidden(clients: seq<Cliente>, ramosFilter: seq<string>, c: Cliente)
    requires ramosFilter != []
    requires c.idRamo == None || c.idRamo == Some(0)
    ensures c !in FilterByRamos(clients, ramosFilter)
  {
  }

  /**
   * `globalFilterFn`: false for anything but a string; for a string, whether
   * the filter text occurs in it at some offset, ignoring case.
   */
  function GlobalFilter(value: CellValue, filterValue: string): (b: bool)
    ensures b <==> value.Text? && exists k :: OccursAt(Lower(value.s), Lower(filterValue), k)
  {
    match value
    case NonText => false
    case Text(s) =>
      ContainsIffOccurs(Lower(s), Lower(filterValue));
      Contains(Lower(s), Lower(filterValue))
  }

  /** The global filter does not see case: lowering either side changes nothing. */
  lemma GlobalFilterIgnoresCase(s: string, filterValue: string)
    ensures GlobalFilter(Text(s), filterValue) == GlobalFilter(Text(Lower(s)), Lower(filterValue))
  {
    LowerIdempotent(s);
    LowerIdempotent(filterValue);
  }

  /** `handleTempRamoToggle`: flip whether `id` is selected, appending it when it was not. */
  function ToggleRamo(prev: seq<string>, id: string): (r: seq<string>)
    ensures id in r <==> id !in prev
    ensures forall x :: x != id ==> (x in r <==> x in prev)
    ensures id !in prev ==> r == prev + [id]
    ensures id in prev ==> IsSubsequence(r, prev)
  {
    if id in prev then RemoveRamo(prev, id) else prev + [id]
  }

  /** `removeRamoFilter`: drop every occurrence of `id`, keeping the rest in order. */
  function RemoveRamo(prev: seq<string>, id: string): (r: seq<string>)
    ensures IsSubsequence(r, prev)
    ensures id !in r
    ensures forall x :: x != id ==> multiset(r)[x] == multiset(prev)[x]
  {
    Filter(prev, (x: string) => x != id)
  }

  lemma RemoveAbsentRamo(prev: seq<string>, id: string)
    requires id !in prev
    ensures RemoveRamo(prev, id) == prev
  {
    FilterAll(prev, (x: string) => x != id);
  }

  /** Toggling an unselected branch twice restores the selection exactly. */
  lemma ToggleTwiceRestores(prev: seq<string>, id: string)
    requires id !in prev
    ensures ToggleRamo(ToggleRamo(prev, id), id) == prev
  {
    var keep := (x: string) => x != id;
    FilterConcat(prev, [id], keep);
    RemoveAbsentRamo(prev, id);
    assert Filter([id], keep) == [];
  }

  /** Toggling a selected branch twice keeps the same members (it moves to the end). */
  lemma ToggleTwiceSameMembers(prev: seq<string>, id: string)
    requires id in prev
    ensures forall x :: x in ToggleRamo(ToggleRamo(prev, id), id) <==> x in prev
  {
  }

  /** Opening the modal copies the applied selection into the working copy. */
  function OpenFilterModal(st: FilterState): (r: FilterState)
    ensures r.showFilterModal && r.tempRamosFilter == st.ramosFilter && r.ramosFilter == st.ramosFilter
  {
    st.(showFilterModal := true, tempRamosFilter := st.ramosFilter)
  }

  /** A toggle inside the modal touches only the working copy. */
  function ToggleInModal(st: FilterState, id: string): (r: FilterState)
    ensures r == st.(tempRamosFilter := r.tempRamosFilter)
    ensures id in r.tempRamosFilter <==> id !in st.tempRamosFilter
  {
    st.(tempRamosFilter := ToggleRamo(st.tempRamosFilter, id))
  }

  /** `applyFilters`. */
  function ApplyFilters(st: FilterState): (r: FilterState)
    ensures r.ramosFilter == st.tempRamosFilter && !r.showFilterModal
    ensures r.tempRamosFilter == st.tempRamosFilter
  {
    st.(ramosFilter := st.tempRamosFilter, showFilterModal := false)
  }

  /** `clearFilters`: no branch selected, modal closed, the list shown in full. */
  function ClearFilters(st: FilterState): (r: FilterState)
    ensures r.ramosFilter == [] && !r.showFilterModal
    ensures r.tempRamosFilter == st.tempRamosFilter
    ensures forall clients :: FilterByRamos(clients, r.ramosFilter) == clients
  {
    st.(ramosFilter := [], showFilterModal := false)
  }

  /** `clearTempFilters`: the modal's working copy is emptied; applying it then shows every client. */
  function ClearTempFilters(st: FilterState): (r: FilterState)
    ensures r.tempRamosFilter == [] && r.ramosFilter == st.ramosFilter && r.showFilterModal == st.showFilterModal
    ensures forall clients :: FilterByRamos(clients, ApplyFilters(r).ramosFilter) == clients
  {
    st.(tempRamosFilter := [])
  }

  /** Removing a badge updates the applied filter alone. */
  function RemoveRamoFilter(st: FilterState, id: string): (r: FilterState)
    ensures r == st.(ramosFilter := r.ramosFilter)
    ensures id !in r.ramosFilter
  {
    st.(ramosFilter := RemoveRamo(st.ramosFilter, id))
  }

  /** Opening the modal, toggling an unselected branch on and off, and applying changes nothing. */
  lemma ModalRoundTrip(st: FilterState, id: string)
    requires id !in st.ramosFilter
    ensures ApplyFilters(ToggleInModal(ToggleInModal(OpenFilterModal(st), id), id)).ramosFilter == st.ramosFilter
  {
    ToggleTwiceRestores(st.ramosFilter, id);
  }

  /** `ramos.find(r => r.id.toString() === ramoId)`: the first branch with that id. */
  function FindRamo(ramos: seq<Ramo>, ramoId: string): (r: Option<Ramo>)
    ensures r.None? <==> forall i :: 0 <= i < |ramos| ==> NatToString(ramos[i].id) != ramoId
    ensures r.Some? ==> r.value in ramos && NatToString(r.value.id) == ramoId
    ensures r.Some? ==> exists i :: 0 <= i < |ramos| && ramos[i] == r.value && (forall j :: 0 <= j < i ==> NatToString(ramos[j].id) != ramoId)
    decreases |ramos|
  {
    if ramos == [] then None
    else if NatToString(ramos[0].id) == ramoId then Some(ramos[0])
    else FindRamo(ramos[1..], ramoId)
  }

  /** `selectedRamosDescriptions`: one badge per selected id, its description or the id itself. */
  function RamoBadges(ramosFilter: seq<string>, ramos: seq<Ramo>): (r: seq<Badge>)
    ensures |r| == |ramosFilter|
    ensures forall i :: 0 <= i < |r| ==> r[i].id == ramosFilter[i]
    ensures forall i :: 0 <= i < |r| && FindRamo(ramos, ramosFilter[i]).None? ==> r[i].descricao == ramosFilter[i]
    ensures forall i :: 0 <= i < |r| && FindRamo(ramos, ramosFilter[i]).Some? && FindRamo(ramos, ramosFilter[i]).value.descricao != "" ==>
              r[i].descricao == FindRamo(ramos, ramosFilter[i]).value.descricao
    ensures forall i :: 0 <= i < |r| && FindRamo(ramos, ramosFilter[i]).Some? && FindRamo(ramos, ramosFilter[i]).value.descricao == "" ==>
              r[i].descricao == ramosFilter[i]
  {
    seq(|ramosFilter|, i requires 0 <= i < |ramosFilter| =>
      var found := FindRamo(ramos, ramosFilter[i]);
      Badge(ramosFilter[i], if found.Some? && found.value.descricao != "" then found.value.descricao else ramosFilter[i]))
  }

  /** The list after a delete succeeds: the deleted client's id is gone, the rest stay in order. */
  function RemoveClient(clients: seq<Cliente>, id: int): (r: seq<Cliente>)
    ensures IsSubsequence(r, clients)
    ensures forall i :: 0 <= i < |r| ==> r[i].id != id
    ensures forall c: Cliente :: c.id != id ==> multiset(r)[c] == multiset(clients)[c]
  {
    Filter(clients, (c: Cliente) => c.id != id)
  }
}
