/** SalesTrainingView: an accordion of training sections for a selected lead. Opening a section
    starts fetching its content unless it already has content or is loading; the request's
    completion later stores the content. The content record maps a section id to its text,
    `null` (`None`) while a fetch is pending; a missing key reads as `undefined`. */
module SalesTraining {
  import opened Types
  import opened Flags

  datatype TrainingSection = TrainingSection(id: string, title: string)

  const TrainingSections: seq<TrainingSection> := [
    TrainingSection("callPlan", "Call Plan"),
    TrainingSection("salesScript", "Sales Script"),
    TrainingSection("spinSelling", "SPIN Selling"),
    TrainingSection("mentalTriggers", "Mental Triggers"),
    TrainingSection("batna", "BATNA"),
    TrainingSection("bant", "BANT"),
    TrainingSection("negotiationTips", "Negotiation Tips")
  ]

  /** `trainingContent[sectionId]` is truthy: a non-empty text is stored. */
  predicate HasContent(content: map<string, Option<string>>, sectionId: string) {
    sectionId in content && content[sectionId].Some? && content[sectionId].value != ""
  }

  class SalesTrainingView {
    var selectedLeadId: string
    var trainingContent: map<string, Option<string>>
    var isLoading: map<string, bool>
    var openSection: Option<string>

    /** No lead, nothing fetched, every section closed. */
    constructor()
      ensures selectedLeadId == "" && trainingContent == map[] && isLoading == map[] && openSection == None
    {
      selectedLeadId := "";
      trainingContent := map[];
      isLoading := map[];
      openSection := None;
    }

    /** `handleLeadChange`: select the lead and forget everything fetched for the previous
        one. */
    method HandleLeadChange(leadId: string)
      modifies this
      ensures selectedLeadId == leadId && trainingContent == map[] && isLoading == map[] && openSection == None
    {
      selectedLeadId := leadId;
      trainingContent := map[];
      isLoading := map[];
      openSection := None;
    }

    /** The part of `fetchTrainingContent` that runs before the request: without a lead nothing
        happens; otherwise the section is marked loading and its content cleared. */
    method FetchStart(sectionId: string)
      modifies this
      ensures selectedLeadId == "" ==> trainingContent == old(trainingContent) && isLoading == old(isLoading)
      ensures selectedLeadId != "" ==>
        isLoading == old(isLoading)[sectionId := true] && trainingContent == old(trainingContent)[sectionId := None]
      ensures selectedLeadId == old(selectedLeadId) && openSection == old(openSection)
    {
      if selectedLeadId == "" {
        return;
      }
      isLoading := isLoading[sectionId := true];
      trainingContent := trainingContent[sectionId := None];
    }

    /** The state update after the request: the generated text, passed in as `content`, is
        stored and the section stops loading. */
    method FetchComplete(sectionId: string, content: string)
      modifies this
      ensures trainingContent == old(trainingContent)[sectionId := Some(content)]
      ensures isLoading == old(isLoading)[sectionId := false]
      ensures !IsSet(isLoading, sectionId) && (selectedLeadId != "" ==> !RefreshDisabled(sectionId))
      ensures selectedLeadId == old(selectedLeadId) && openSection == old(openSection)
    {
      trainingContent := trainingContent[sectionId := Some(content)];
      isLoading := isLoading[sectionId := false];
    }

    /** `toggleSection`: closing the open section, or opening another one and starting its
        fetch when it has no content and is not loading. */
    method ToggleSection(sectionId: string) returns (fetchStarted: bool)
      modifies this
      ensures openSection == NextOpen(old(openSection), sectionId)
      ensures IsOpen(sectionId) == !old(IsOpen(sectionId))
      ensures forall other :: other != sectionId ==> !IsOpen(other)
      ensures old(openSection) == Some(sectionId) ==> !fetchStarted
      ensures fetchStarted <==>
        old(openSection) != Some(sectionId) && !HasContent(old(trainingContent), sectionId)
        && !IsSet(old(isLoading), sectionId) && selectedLeadId != ""
      ensures fetchStarted ==>
        isLoading == old(isLoading)[sectionId := true] && trainingContent == old(trainingContent)[sectionId := None]
      ensures !fetchStarted ==> isLoading == old(isLoading) && trainingContent == old(trainingContent)
      ensures selectedLeadId == old(selectedLeadId)
    {
      fetchStarted := false;
      if openSection == Some(sectionId) {
        openSection := None;
      } else {
        openSection := Some(sectionId);
        if !HasContent(trainingContent, sectionId) && !IsSet(isLoading, sectionId) {
          fetchStarted := selectedLeadId != "";
          FetchStart(sectionId);
        }
      }
    }

    /** The refresh button is disabled while the section loads or when no lead is
        selected. */
    predicate RefreshDisabled(sectionId: string)
      reads this
    {
      IsSet(isLoading, sectionId) || selectedLeadId == ""
    }

    /** The refresh button's click. The button is disabled while the section loads or without
        a lead, so a click always has a lead: the section is refetched and opened, and the
        button is disabled until the content arrives. The handler's alert for a missing lead
        is unreachable. */
    method Refresh(sectionId: string)
      requires !RefreshDisabled(sectionId)
      modifies this
      ensures isLoading == old(isLoading)[sectionId := true] && trainingContent == old(trainingContent)[sectionId := None]
      ensures openSection == Some(sectionId) && IsOpen(sectionId)
      ensures RefreshDisabled(sectionId)
      ensures selectedLeadId == old(selectedLeadId)
    {
      if selectedLeadId != "" {
        FetchStart(sectionId);
        openSection := Some(sectionId);
      }
    }

    /** The chevron of a section points up exactly when it is the open one. */
    predicate IsOpen(sectionId: string)
      reads this
    {
      openSection == Some(sectionId)
    }
  }

  /** The open section after toggling `sectionId`: it closes when it was the open one, and
      otherwise it becomes the only open one. */
  function NextOpen(open: Option<string>, sectionId: string): (r: Option<string>)
    ensures r.None? <==> open == Some(sectionId)
    ensures r.Some? ==> r.value == sectionId
  {
    if open == Some(sectionId) then None else Some(sectionId)
  }

  /** The open section after the toggles `ids`, in order. */
  function OpenAfter(open: Option<string>, ids: seq<string>): Option<string>
    decreases |ids|
  {
    if ids == [] then open else OpenAfter(NextOpen(open, ids[0]), ids[1..])
  }

  /** After any non-empty sequence of toggles the accordion is closed or shows exactly the
      section toggled last. */
  lemma {:induction false} OpenIsLastToggled(open: Option<string>, ids: seq<string>)
    requires |ids| > 0
    ensures OpenAfter(open, ids) == None || OpenAfter(open, ids) == Some(ids[|ids| - 1])
    decreases |ids|
  {
    var next := NextOpen(open, ids[0]);
    if |ids| == 1 {
      assert OpenAfter(open, ids) == OpenAfter(next, []);
    } else {
      OpenIsLastToggled(next, ids[1..]);
      assert ids[1..][|ids[1..]| - 1] == ids[|ids| - 1];
    }
  }
}
