/** SearchBar: the search box in the header. Focusing it opens a drop-down with up to five
    recent leads and up to three recent searches; picking one of them, or pressing Enter,
    searches. A search is reported as the query handed to `onSearch`. */
module SearchBar {
  import opened Types
  import opened Seqs

  /** A key the input reacts to; every other key is `OtherKey`. */
  datatype Key = Escape | Enter | OtherKey

  /** `recentLeads.slice(0, 5)`: the leads listed in the drop-down. */
  function ShownRecentLeads(recentLeads: seq<Lead>): (r: seq<Lead>)
    ensures |r| == Min(5, |recentLeads|) && r <= recentLeads
  {
    Take(recentLeads, 5)
  }

  /** `searchHistory.slice(0, 3)`: the searches listed in the drop-down. */
  function ShownHistory(searchHistory: seq<SearchHistory>): (r: seq<SearchHistory>)
    ensures |r| == Min(3, |searchHistory|) && r <= searchHistory
  {
    Take(searchHistory, 3)
  }

  /** A section of the drop-down is rendered when its list is non-empty, and then it lists at
      least one entry; the entries are the first ones of the list, in order. */
  lemma SectionsShown(recentLeads: seq<Lead>, searchHistory: seq<SearchHistory>)
    ensures |recentLeads| > 0 <==> |ShownRecentLeads(recentLeads)| > 0
    ensures |searchHistory| > 0 <==> |ShownHistory(searchHistory)| > 0
    ensures forall k :: 0 <= k < |ShownRecentLeads(recentLeads)| ==> ShownRecentLeads(recentLeads)[k] == recentLeads[k]
    ensures |recentLeads| <= 5 ==> ShownRecentLeads(recentLeads) == recentLeads
    ensures |searchHistory| <= 3 ==> ShownHistory(searchHistory) == searchHistory
  {
  }

  class SearchBarState {
    var isOpen: bool
    var query: string

    constructor()
      ensures !isOpen && query == ""
    {
      isOpen := false;
      query := "";
    }

    /** `onFocus`. */
    method Focus()
      modifies this
      ensures isOpen && query == old(query)
    {
      isOpen := true;
    }

    /** `onChange`. */
    method Change(value: string)
      modifies this
      ensures query == value && isOpen == old(isOpen)
      ensures ShowClearButton() <==> value != ""
    {
      query := value;
    }

    /** `handleKeyDown`: Escape closes the drop-down; Enter searches for the current query and
        closes it; other keys change nothing. */
    method HandleKeyDown(key: Key) returns (searched: Option<string>)
      modifies this
      ensures query == old(query)
      ensures key == Escape ==> !isOpen && searched == None
      ensures key == Enter ==> !isOpen && searched == Some(old(query))
      ensures key == OtherKey ==> isOpen == old(isOpen) && searched == None
    {
      searched := None;
      if key == Escape {
        isOpen := false;
      }
      if key == Enter {
        searched := Some(query);
        isOpen := false;
      }
    }

    /** The clear button, shown while the query is non-empty: it empties the query and moves
        the focus back to the input. `inputFocused` says whether the input still held the focus
        when the button was pressed; when it did not (pressing a button normally moves the focus
        to it), the refocus runs `onFocus`, which opens the drop-down. */
    method Clear(inputFocused: bool)
      modifies this
      ensures query == "" && !ShowClearButton()
      ensures isOpen == (!inputFocused || old(isOpen))
    {
      query := "";
      if !inputFocused {
        Focus();
      }
    }

    /** Picking a recent lead: its name becomes the query and is searched for. */
    method SelectRecentLead(lead: Lead) returns (searched: Option<string>)
      modifies this
      ensures query == lead.name && searched == Some(lead.name) && !isOpen
    {
      query := lead.name;
      searched := Some(lead.name);
      isOpen := false;
    }

    /** Picking a recent search: its query becomes the query and is searched for again. */
    method SelectHistoryItem(item: SearchHistory) returns (searched: Option<string>)
      modifies this
      ensures query == item.query && searched == Some(item.query) && !isOpen
    {
      query := item.query;
      searched := Some(item.query);
      isOpen := false;
    }

    /** The clear button is shown while the query is non-empty. */
    predicate ShowClearButton()
      reads this
    {
      query != ""
    }
  }
}
