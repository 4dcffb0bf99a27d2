/** LeadProfile: the profile panel of one lead, with its pipeline status (editable through a
    drop-down), free-text observations, its calls (one of which can be opened in the insights
    panel) and its upcoming meetings. */
module LeadProfile {
  import opened Types
  import opened Strings
  import opened Opportunities
  import CallsView

  /** The labels of the status drop-down, in pipeline order. */
  const LeadStatusOptions: seq<string> :=
    ["New", "Contacted", "Qualified", "Proposal Sent", "Negotiation", "Closed Won", "Closed Lost"]

  /** The `value` of each option as written: `opt.toLowerCase().replace(' ', '')`, which drops
      the first space of the label. */
  function OptionValueAsWritten(opt: string): string {
    RemoveFirst(ToLower(opt), ' ')
  }

  /** The value the options evidently mean to carry: the lower-cased label, which is the
      status literal itself. */
  function StatusOptionValue(opt: string): string {
    ToLower(opt)
  }

  lemma ToLowerKeepsSpaces(s: string)
    ensures ' ' in ToLower(s) <==> ' ' in s
  {
    if ' ' in s {
      var k :| 0 <= k < |s| && s[k] == ' ';
      assert ToLower(s)[k] == ' ';
    }
    if ' ' in ToLower(s) {
      var k :| 0 <= k < |s| && ToLower(s)[k] == ' ';
      assert s[k] == ' ';
    }
  }

  /** The written value agrees with the intended one exactly on the labels without a space. */
  lemma OptionValueAgreesIffOneWord(opt: string)
    ensures OptionValueAsWritten(opt) == StatusOptionValue(opt) <==> ' ' !in opt
  {
    ToLowerKeepsSpaces(opt);
    var t := ToLower(opt);
    if ' ' in t {
      assert |RemoveFirst(t, ' ')| == |t| - 1;
    }
  }

  /** Lower-casing, checked character by character. */
  lemma LowerCased(s: string, t: string)
    requires |s| == |t|
    requires forall i :: 0 <= i < |s| ==> LowerChar(s[i]) == t[i]
    ensures ToLower(s) == t
  {
  }

  /** The value of a two-word option as written: the two lower-cased words run together. */
  lemma TwoWordValue(a: string, b: string)
    requires ' ' !in a
    ensures OptionValueAsWritten(a + [' '] + b) == ToLower(a) + ToLower(b)
  {
    ToLowerKeepsSpaces(a);
    LowerCased(a + [' '] + b, ToLower(a) + [' '] + ToLower(b));
    RemoveFirstAfter(ToLower(a), ToLower(b), ' ');
  }

  /** 'Proposal Sent' gets 'proposalsent'. */
  lemma ProposalSentAsWritten(opt: string)
    requires opt == "Proposal Sent"
    ensures OptionValueAsWritten(opt) == "proposalsent"
  {
    assert opt == "Proposal" + [' '] + "Sent";
    TwoWordValue("Proposal", "Sent");
    LowerCased("Proposal", "proposal");
    LowerCased("Sent", "sent");
  }

  /** 'Closed Won' gets 'closedwon'. */
  lemma ClosedWonAsWritten(opt: string)
    requires opt == "Closed Won"
    ensures OptionValueAsWritten(opt) == "closedwon"
  {
    assert opt == "Closed" + [' '] + "Won";
    TwoWordValue("Closed", "Won");
    LowerCased("Closed", "closed");
    LowerCased("Won", "won");
  }

  /** 'Closed Lost' gets 'closedlost'. */
  lemma ClosedLostAsWritten(opt: string)
    requires opt == "Closed Lost"
    ensures OptionValueAsWritten(opt) == "closedlost"
  {
    assert opt == "Closed" + [' '] + "Lost";
    TwoWordValue("Closed", "Lost");
    LowerCased("Closed", "closed");
    LowerCased("Lost", "lost");
  }

  /** The three written values are no status literal. */
  lemma WrittenValuesNotStatuses(v: string)
    requires v == "proposalsent" || v == "closedwon" || v == "closedlost"
    ensures ParseStatus(v) == None
  {
  }

  /** As written, the three two-word labels get values that are no status literal, so a lead in
      one of those stages cannot be shown or chosen in the drop-down. */
  lemma OptionValuesAsWritten()
    ensures OptionValueAsWritten(LeadStatusOptions[3]) == "proposalsent"
    ensures OptionValueAsWritten(LeadStatusOptions[5]) == "closedwon"
    ensures OptionValueAsWritten(LeadStatusOptions[6]) == "closedlost"
    ensures ParseStatus(OptionValueAsWritten(LeadStatusOptions[3])) == None
    ensures ParseStatus(OptionValueAsWritten(LeadStatusOptions[5])) == None
    ensures ParseStatus(OptionValueAsWritten(LeadStatusOptions[6])) == None
  {
    ProposalSentAsWritten(LeadStatusOptions[3]);
    ClosedWonAsWritten(LeadStatusOptions[5]);
    ClosedLostAsWritten(LeadStatusOptions[6]);
    WrittenValuesNotStatuses("proposalsent");
    WrittenValuesNotStatuses("closedwon");
    WrittenValuesNotStatuses("closedlost");
  }

  /** With the intended value every option carries the literal of the stage at the same
      position, so every status can be shown and chosen. */
  lemma StatusOptionValuesAreLiterals()
    ensures |LeadStatusOptions| == |KanbanStages|
    ensures forall i :: 0 <= i < |LeadStatusOptions| ==>
      StatusOptionValue(LeadStatusOptions[i]) == StatusLiteral(KanbanStages[i])
  {
    forall i | 0 <= i < |LeadStatusOptions|
      ensures StatusOptionValue(LeadStatusOptions[i]) == StatusLiteral(KanbanStages[i])
    {
      LowerCased(LeadStatusOptions[i], StatusLiteral(KanbanStages[i]));
    }
  }

  /** The one-word options are unaffected: as written they already carry their stage's
      literal. */
  lemma OneWordOptionsAsWritten()
    ensures forall i :: 0 <= i < |LeadStatusOptions| && ' ' !in LeadStatusOptions[i] ==>
      OptionValueAsWritten(LeadStatusOptions[i]) == StatusLiteral(KanbanStages[i])
  {
    StatusOptionValuesAreLiterals();
    forall i | 0 <= i < |LeadStatusOptions| && ' ' !in LeadStatusOptions[i]
      ensures OptionValueAsWritten(LeadStatusOptions[i]) == StatusLiteral(KanbanStages[i])
    {
      OptionValueAgreesIffOneWord(LeadStatusOptions[i]);
    }
  }

  /** The upcoming meetings of the profile, dated from the current time `now`; they carry no
      lead or agent name. */
  function MockMeetings(now: int): seq<NextMeeting> {
    [NextMeeting("m1", None, None, now + 2 * CallsView.DayMs, "Videoconference", "To be confirmed",
                 Some("https://meet.google.com/xyz-abc-def")),
     NextMeeting("m2", None, None, now + 5 * CallsView.DayMs, "Call", "Confirmed", None)]
  }

  class LeadProfile {
    const lead: Lead
    var status: string
    var observations: string
    var meetings: seq<NextMeeting>
    var selectedCallInsight: Option<Call>

    /** The status is always one of the seven literals. */
    ghost predicate Valid()
      reads this
    {
      ParseStatus(status).Some?
    }

    /** The status starts as the lead's, the observations as its notes (empty when it has
        none). */
    constructor(lead: Lead, now: int)
      ensures Valid()
      ensures this.lead == lead && status == StatusLiteral(lead.status)
      ensures observations == lead.notes.GetOr([])
      ensures meetings == MockMeetings(now) && selectedCallInsight == None
    {
      this.lead := lead;
      status := StatusLiteral(lead.status);
      observations := lead.notes.GetOr([]);
      meetings := MockMeetings(now);
      selectedCallInsight := None;
      new;
      ParseStatusInverse(lead.status, status);
    }

    /** Choosing the option at `index` of the drop-down sets the status to that option's value
        (the intended value, see StatusOptionValue): the stage at the same position. */
    method HandleStatusChange(index: nat)
      requires index < |LeadStatusOptions|
      modifies this
      ensures Valid() && status == StatusLiteral(KanbanStages[index])
      ensures observations == old(observations) && meetings == old(meetings)
      ensures selectedCallInsight == old(selectedCallInsight)
    {
      StatusOptionValuesAreLiterals();
      status := StatusOptionValue(LeadStatusOptions[index]);
      ParseStatusInverse(KanbanStages[index], status);
    }

    /** `handleCallClick`: opens the insights panel only for a call that has insights. */
    method HandleCallClick(call: Call)
      modifies this
      ensures call.insights.Some? ==> selectedCallInsight == Some(call)
      ensures call.insights.None? ==> selectedCallInsight == old(selectedCallInsight)
      ensures status == old(status) && observations == old(observations) && meetings == old(meetings)
    {
      if call.insights.Some? {
        selectedCallInsight := Some(call);
      }
    }

    method HandleCloseInsights()
      modifies this
      ensures selectedCallInsight == None
      ensures status == old(status) && observations == old(observations) && meetings == old(meetings)
    {
      selectedCallInsight := None;
    }

    method HandleObservationsChange(value: string)
      modifies this
      ensures observations == value
      ensures status == old(status) && meetings == old(meetings)
      ensures selectedCallInsight == old(selectedCallInsight)
    {
      observations := value;
    }

    /** The state update that follows the simulated request delay of `handleConfirmMeeting`. */
    method HandleConfirmMeeting(meetingId: string)
      modifies this
      ensures meetings == CallsView.ConfirmMeeting(old(meetings), meetingId)
      ensures status == old(status) && observations == old(observations)
      ensures selectedCallInsight == old(selectedCallInsight)
    {
      meetings := CallsView.ConfirmMeeting(meetings, meetingId);
    }
  }
}
