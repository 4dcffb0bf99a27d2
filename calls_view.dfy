/** CallsView: the list of analysed calls with a search box, the insights panel for a selected
    call or meeting, and the "Next Meetings" list whose entries can be asked for confirmation.
    The confirm-meeting update is shared with LeadProfile, which has an identical copy. */
module CallsView {
  import opened Types
  import opened Strings
  import opened Seqs

  /** A call matches a lower-cased query when its lower-cased lead name or agent name
      contains it. */
  predicate Matches(call: Call, lowerQuery: string) {
    Contains(ToLower(call.leadName), lowerQuery) || Contains(ToLower(call.agentName), lowerQuery)
  }

  /** `calls.filter(call => matches)`: the matching calls, each as often as in the input, in
      input order. */
  function FilterCalls(calls: seq<Call>, lowerQuery: string): (r: seq<Call>)
    ensures forall c :: c in r <==> c in calls && Matches(c, lowerQuery)
    ensures forall c :: multiset(r)[c] == if Matches(c, lowerQuery) then multiset(calls)[c] else 0
    ensures IsSubsequence(r, calls)
  {
    if calls == [] then []
    else
      assert calls == [calls[0]] + calls[1..];
      if Matches(calls[0], lowerQuery) then [calls[0]] + FilterCalls(calls[1..], lowerQuery)
      else FilterCalls(calls[1..], lowerQuery)
  }

  /** The search effect: all calls for an empty query, else the matching calls. */
  function SearchCalls(calls: seq<Call>, query: string): seq<Call> {
    var lowerQuery := ToLower(query);
    if lowerQuery == [] then calls else FilterCalls(calls, lowerQuery)
  }

  /** A call is listed exactly when the query is empty or the call matches the lower-cased
      query, as often as it occurs among the calls; the list keeps the order of the calls. */
  lemma SearchCallsSpec(calls: seq<Call>, query: string)
    ensures query == [] ==> SearchCalls(calls, query) == calls
    ensures forall c :: c in SearchCalls(calls, query) <==> c in calls && (query == [] || Matches(c, ToLower(query)))
    ensures forall c :: multiset(SearchCalls(calls, query))[c]
                          == if query == [] || Matches(c, ToLower(query)) then multiset(calls)[c] else 0
    ensures IsSubsequence(SearchCalls(calls, query), calls)
  {
    if query == [] {
      SubsequenceRefl(calls);
    }
  }

  /** The search ignores letter case: a query and its lower-cased form give the same list, and
      so do any two queries that lower-case alike. */
  lemma SearchCaseInsensitive(calls: seq<Call>, q1: string, q2: string)
    ensures SearchCalls(calls, q1) == SearchCalls(calls, ToLower(q1))
    ensures ToLower(q1) == ToLower(q2) ==> SearchCalls(calls, q1) == SearchCalls(calls, q2)
  {
    ToLowerIdempotent(q1);
  }

  /** The empty-query branch only saves work: filtering with the empty query keeps every call,
      because every string contains the empty string. */
  lemma {:induction false} EmptyFilterKeepsAll(calls: seq<Call>)
    ensures FilterCalls(calls, []) == calls
  {
    if calls != [] {
      assert Contains(ToLower(calls[0].leadName), []);
      EmptyFilterKeepsAll(calls[1..]);
      assert calls == [calls[0]] + calls[1..];
    }
  }

  /** `prev.map(m => m.id === meetingId ? { ...m, status: 'Confirmation Requested' } : m)`:
      the meetings with that id get the new status, and nothing else changes. */
  function ConfirmMeeting(meetings: seq<NextMeeting>, meetingId: string): (r: seq<NextMeeting>)
    ensures |r| == |meetings|
    ensures forall k :: 0 <= k < |r| && meetings[k].id == meetingId ==>
      r[k] == meetings[k].(status := "Confirmation Requested")
    ensures forall k :: 0 <= k < |r| && meetings[k].id != meetingId ==> r[k] == meetings[k]
  {
    seq(|meetings|, k requires 0 <= k < |meetings| =>
      if meetings[k].id == meetingId then meetings[k].(status := "Confirmation Requested") else meetings[k])
  }

  /** Asking twice for the same confirmation is the same as asking once, and requests for two
      meetings can be made in either order. */
  lemma ConfirmMeetingIdempotent(meetings: seq<NextMeeting>, a: string, b: string)
    ensures ConfirmMeeting(ConfirmMeeting(meetings, a), a) == ConfirmMeeting(meetings, a)
    ensures ConfirmMeeting(ConfirmMeeting(meetings, a), b) == ConfirmMeeting(ConfirmMeeting(meetings, b), a)
  {
  }

  const DayMs: int := 86400000

  /** The upcoming meetings listed in CallsView, dated from the current time `now`. */
  function MockNextMeetings(now: int): seq<NextMeeting> {
    [NextMeeting("nm1", Some("Alice Wonderland"), Some("Current User"), now + 2 * DayMs, "Videoconference",
                 "To be confirmed", Some("https://meet.google.com/xyz-abc-def")),
     NextMeeting("nm2", Some("Bob The Builder"), Some("Current User"), now + 5 * DayMs, "Call", "Confirmed", None)]
  }

  class CallsView {
    const allCalls: seq<Call>
    var selectedItem: Option<Item>
    var searchQuery: string
    var filteredCalls: seq<Call>
    var nextMeetings: seq<NextMeeting>

    /** The search effect has run for the current query. */
    ghost predicate Valid()
      reads this
    {
      filteredCalls == SearchCalls(allCalls, searchQuery)
    }

    constructor(calls: seq<Call>, now: int)
      ensures Valid()
      ensures allCalls == calls && filteredCalls == calls && searchQuery == []
      ensures selectedItem == None && nextMeetings == MockNextMeetings(now)
    {
      allCalls := calls;
      selectedItem := None;
      searchQuery := [];
      filteredCalls := calls;
      nextMeetings := MockNextMeetings(now);
    }

    /** Typing in the search box, followed by the effect that recomputes the list. */
    method SetSearchQuery(query: string)
      modifies this
      ensures Valid() && searchQuery == query
      ensures filteredCalls == SearchCalls(allCalls, query)
      ensures selectedItem == old(selectedItem) && nextMeetings == old(nextMeetings)
    {
      searchQuery := query;
      var lowerCaseQuery := ToLower(searchQuery);
      if lowerCaseQuery == [] {
        filteredCalls := allCalls;
      } else {
        filteredCalls := FilterCalls(allCalls, lowerCaseQuery);
      }
    }

    /** `handleItemClick`: opens the insights panel only for an item that has insights. */
    method HandleItemClick(item: Item)
      modifies this
      ensures item.Insights().Some? ==> selectedItem == Some(item)
      ensures item.Insights().None? ==> selectedItem == old(selectedItem)
      ensures searchQuery == old(searchQuery) && filteredCalls == old(filteredCalls)
      ensures nextMeetings == old(nextMeetings)
    {
      if item.Insights().Some? {
        selectedItem := Some(item);
      }
    }

    method HandleCloseInsights()
      modifies this
      ensures selectedItem == None
      ensures searchQuery == old(searchQuery) && filteredCalls == old(filteredCalls)
      ensures nextMeetings == old(nextMeetings)
    {
      selectedItem := None;
    }

    /** The state update that follows the simulated request delay of `handleConfirmMeeting`. */
    method HandleConfirmMeeting(meetingId: string)
      modifies this
      ensures nextMeetings == ConfirmMeeting(old(nextMeetings), meetingId)
      ensures selectedItem == old(selectedItem) && searchQuery == old(searchQuery)
      ensures filteredCalls == old(filteredCalls)
    {
      nextMeetings := ConfirmMeeting(nextMeetings, meetingId);
    }
  }
}
