/** LeadsTable: the table of leads with row selection for bulk actions, a sort toggle on the
    column headers and a profile panel for one lead. The selection is a JavaScript `Set` of lead
    ids; it is held as a duplicate-free sequence in insertion order, which is the order
    `Array.from` hands the ids to a bulk action. */
module LeadsTableView {
  import opened Types
  import opened Seqs
  import opened Strings

  /** `handleSort(field)`: descending only when the table is already sorted ascending by that
      same field; ascending otherwise. */
  function NextSort(current: LeadsTableSort, field: LeadField): (r: LeadsTableSort)
    ensures r.field == field
    ensures r.direction == Desc <==> current.field == field && current.direction == Asc
  {
    LeadsTableSort(field, if current.field == field && current.direction == Asc then Desc else Asc)
  }

  /** Clicking a new column sorts it ascending; clicking the same column again flips the
      direction, so repeated clicks alternate. */
  lemma NextSortAlternates(current: LeadsTableSort, field: LeadField)
    ensures current.field != field ==> NextSort(current, field).direction == Asc
    ensures NextSort(NextSort(current, field), field).direction != NextSort(current, field).direction
    ensures NextSort(NextSort(NextSort(current, field), field), field) == NextSort(current, field)
  {
  }

  /** The ids of the leads, as `new Set(leads.map(lead => lead.id))` holds them. */
  function AllIds(leads: seq<Lead>): (r: seq<string>)
    ensures NoDuplicates(r)
    ensures forall id :: id in r <==> exists l :: l in leads && l.id == id
  {
    var ids := seq(|leads|, k requires 0 <= k < |leads| => leads[k].id);
    assert forall l :: l in leads ==> l.id in ids by {
      forall l | l in leads ensures l.id in ids {
        var k :| 0 <= k < |leads| && leads[k] == l;
        assert ids[k] == l.id;
      }
    }
    Dedup(ids)
  }

  /** `Set` toggle of `handleSelectLead`: delete the id if present, else add it at the end. */
  function Toggle(selected: seq<string>, id: string): seq<string> {
    if id in selected then Remove(selected, id) else selected + [id]
  }

  /** Toggling flips whether `id` is selected, leaves every other id as it was, and keeps the
      selection free of duplicates. */
  lemma ToggleFlips(selected: seq<string>, id: string)
    requires NoDuplicates(selected)
    ensures id in Toggle(selected, id) <==> id !in selected
    ensures forall other :: other != id ==> (other in Toggle(selected, id) <==> other in selected)
    ensures NoDuplicates(Toggle(selected, id))
  {
    if id in selected {
      RemovePreservesNoDuplicates(selected, id);
    } else {
      var t := selected + [id];
      forall i, j | 0 <= i < j < |t| ensures t[i] != t[j] {
        if j == |selected| {
          assert t[i] == selected[i];
        } else {
          assert t[i] == selected[i] && t[j] == selected[j];
        }
      }
    }
  }

  /** Toggling the same id twice selects the same ids as before; when the id was not selected
      at first, even the order is restored. */
  lemma ToggleTwice(selected: seq<string>, id: string)
    requires NoDuplicates(selected)
    ensures forall x :: x in Toggle(Toggle(selected, id), id) <==> x in selected
    ensures id !in selected ==> Toggle(Toggle(selected, id), id) == selected
  {
    ToggleFlips(selected, id);
    ToggleFlips(Toggle(selected, id), id);
    if id !in selected {
      RemoveAppended(selected, id);
    }
  }

  /** The header checkbox: checked when as many ids are selected as there are leads and there
      is at least one lead. */
  function HeaderChecked(selectedCount: nat, leadCount: nat): bool {
    selectedCount == leadCount && leadCount > 0
  }

  /** Selecting all leads checks the header exactly when there are leads, provided no two leads
      share an id; with `handleSelectAll(false)` the header is never checked. */
  lemma SelectAllChecksHeader(leads: seq<Lead>)
    requires forall i, j :: 0 <= i < j < |leads| ==> leads[i].id != leads[j].id
    ensures HeaderChecked(|AllIds(leads)|, |leads|) <==> |leads| > 0
    ensures !HeaderChecked(0, |leads|)
  {
    var ids := seq(|leads|, k requires 0 <= k < |leads| => leads[k].id);
    assert NoDuplicates(ids);
    DedupOfDistinct(ids);
  }

  /** The colour family of a status badge. */
  datatype Badge = Blue | Yellow | Green | Purple | Gray

  /** The badge chain as written: the fourth test compares with the literal 'proposal', which no
      status has. */
  function StatusBadgeAsWritten(s: Status): Badge {
    var t := StatusLiteral(s);
    if t == "new" then Blue
    else if t == "contacted" then Yellow
    else if t == "qualified" then Green
    else if t == "proposal" then Purple
    else Gray
  }

  /** The purple badge is never shown: 'proposal sent' falls through to grey like the closing
      stages. */
  lemma PurpleBadgeUnreachable(s: Status)
    ensures StatusBadgeAsWritten(s) != Purple
    ensures StatusBadgeAsWritten(ProposalSent) == Gray
  {
    assert StatusLiteral(s) != "proposal" by {
      match s
      case ProposalSent => assert |StatusLiteral(s)| == 13;
      case _ =>
    }
  }

  /** The badge with the 'proposal sent' stage in the fourth test. */
  function StatusBadge(s: Status): (b: Badge)
    ensures b == Purple <==> s == ProposalSent
    ensures b == Gray <==> s in {Negotiation, ClosedWon, ClosedLost}
  {
    var t := StatusLiteral(s);
    if t == "new" then Blue
    else if t == "contacted" then Yellow
    else if t == "qualified" then Green
    else if t == "proposal sent" then Purple
    else Gray
  }

  /** `lead.status.charAt(0).toUpperCase() + lead.status.slice(1)`: only the first letter of the
      status is capitalised, so multi-word stages read "Closed won". */
  function StatusLabel(s: Status): (r: string)
    ensures |r| == |StatusLiteral(s)| && r[0] == UpperChar(StatusLiteral(s)[0])
    ensures r[1..] == StatusLiteral(s)[1..]
  {
    CapitalizeFirst(StatusLiteral(s))
  }

  class LeadsTable {
    const leads: seq<Lead>
    var selectedLeads: seq<string>
    var sortConfig: LeadsTableSort
    var selectedLead: Option<Lead>

    /** A set holds each id once. */
    ghost predicate Valid()
      reads this
    {
      NoDuplicates(selectedLeads)
    }

    /** Nothing selected, sorted by last contact descending, no profile open. */
    constructor(leads: seq<Lead>)
      ensures Valid()
      ensures this.leads == leads && selectedLeads == []
      ensures sortConfig == LeadsTableSort(LastContactField, Desc) && selectedLead == None
    {
      this.leads := leads;
      selectedLeads := [];
      sortConfig := LeadsTableSort(LastContactField, Desc);
      selectedLead := None;
    }

    /** `handleSort(field)`; the returned value is what `onSort` receives. */
    method HandleSort(field: LeadField) returns (newSort: LeadsTableSort)
      modifies this
      ensures newSort == NextSort(old(sortConfig), field) && sortConfig == newSort
      ensures selectedLeads == old(selectedLeads) && selectedLead == old(selectedLead)
    {
      var direction := if sortConfig.field == field && sortConfig.direction == Asc then Desc else Asc;
      newSort := LeadsTableSort(field, direction);
      sortConfig := newSort;
    }

    /** `handleSelectAll`: every lead id when checked, none otherwise. */
    method HandleSelectAll(checked: bool)
      modifies this
      ensures Valid()
      ensures checked ==> selectedLeads == AllIds(leads)
      ensures !checked ==> selectedLeads == []
      ensures ShowBulkFooter() <==> checked && |leads| > 0
      ensures !checked ==> !HeaderCheckboxChecked()
      ensures checked && (forall i, j :: 0 <= i < j < |leads| ==> leads[i].id != leads[j].id) ==>
        (HeaderCheckboxChecked() <==> |leads| > 0)
      ensures sortConfig == old(sortConfig) && selectedLead == old(selectedLead)
    {
      if |leads| > 0 {
        assert leads[0].id in AllIds(leads);
      }
      if forall i, j :: 0 <= i < j < |leads| ==> leads[i].id != leads[j].id {
        SelectAllChecksHeader(leads);
      }
      if checked {
        selectedLeads := AllIds(leads);
      } else {
        selectedLeads := [];
      }
    }

    /** `handleSelectLead(leadId)`. */
    method HandleSelectLead(leadId: string)
      requires Valid()
      modifies this
      ensures Valid()
      ensures selectedLeads == Toggle(old(selectedLeads), leadId)
      ensures leadId in selectedLeads <==> leadId !in old(selectedLeads)
      ensures forall other :: other != leadId ==> (other in selectedLeads <==> other in old(selectedLeads))
      ensures sortConfig == old(sortConfig) && selectedLead == old(selectedLead)
    {
      ToggleFlips(selectedLeads, leadId);
      if leadId in selectedLeads {
        selectedLeads := Remove(selectedLeads, leadId);
      } else {
        selectedLeads := selectedLeads + [leadId];
      }
    }

    /** Clicking a lead's name opens its profile. */
    method OpenProfile(lead: Lead)
      modifies this
      ensures selectedLead == Some(lead)
      ensures selectedLeads == old(selectedLeads) && sortConfig == old(sortConfig)
    {
      selectedLead := Some(lead);
    }

    /** The profile's `onClose`. */
    method CloseProfile()
      modifies this
      ensures selectedLead == None
      ensures selectedLeads == old(selectedLeads) && sortConfig == old(sortConfig)
    {
      selectedLead := None;
    }

    /** The header checkbox state: `selectedLeads.size === leads.length && leads.length > 0`. */
    function HeaderCheckboxChecked(): bool
      reads this
    {
      HeaderChecked(|selectedLeads|, |leads|)
    }

    /** The header checkbox is disabled when there are no leads. */
    function HeaderCheckboxDisabled(): bool
      reads this
    {
      |leads| == 0
    }

    /** The bulk-action footer shows while some lead is selected. */
    function ShowBulkFooter(): bool
      reads this
    {
      |selectedLeads| > 0
    }

    /** `Array.from(selectedLeads)`, the ids a Delete or Export receives: exactly the selected
        ids, each once, in the order they were selected. */
    method BulkActionIds() returns (ids: seq<string>)
      requires Valid()
      ensures ids == selectedLeads
      ensures NoDuplicates(ids) && (forall id :: id in ids <==> id in selectedLeads)
    {
      ids := selectedLeads;
    }
  }
}
