/** The records of the CRM, as declared in src/types/index.ts.
    Dates are held as their `getTime()` value: whole milliseconds since the epoch. */
module Types {

  datatype Option<+T> = None | Some(value: T) {
    /** `x || default` / `x ?? default` for an optional field. */
    function GetOr(default: T): T {
      match this
      case Some(v) => v
      case None => default
    }
  }

  /** The seven pipeline stages a lead can be in, in pipeline order. */
  datatype Status = New | Contacted | Qualified | ProposalSent | Negotiation | ClosedWon | ClosedLost

  /** The string literal TypeScript uses for each status. */
  function StatusLiteral(s: Status): string {
    match s
    case New => "new"
    case Contacted => "contacted"
    case Qualified => "qualified"
    case ProposalSent => "proposal sent"
    case Negotiation => "negotiation"
    case ClosedWon => "closed won"
    case ClosedLost => "closed lost"
  }

  /** Position of a status in the pipeline order of the union type. */
  function StatusRank(s: Status): (r: nat)
    ensures r < 7
  {
    match s
    case New => 0
    case Contacted => 1
    case Qualified => 2
    case ProposalSent => 3
    case Negotiation => 4
    case ClosedWon => 5
    case ClosedLost => 6
  }

  /** The status whose literal is `t`, if any: the inverse of StatusLiteral. */
  function ParseStatus(t: string): (r: Option<Status>)
    ensures r.Some? ==> StatusLiteral(r.value) == t
  {
    if t == "new" then Some(New)
    else if t == "contacted" then Some(Contacted)
    else if t == "qualified" then Some(Qualified)
    else if t == "proposal sent" then Some(ProposalSent)
    else if t == "negotiation" then Some(Negotiation)
    else if t == "closed won" then Some(ClosedWon)
    else if t == "closed lost" then Some(ClosedLost)
    else None
  }

  /** Parsing a literal gives back its status, and a string that is no literal parses to None:
      two statuses never share a literal, so comparing literals is comparing statuses. */
  lemma ParseStatusInverse(s: Status, t: string)
    ensures ParseStatus(StatusLiteral(s)) == Some(s)
    ensures ParseStatus(t).None? <==> forall u: Status :: StatusLiteral(u) != t
    ensures StatusLiteral(s) == t <==> ParseStatus(t) == Some(s)
  {
  }

  datatype Lead = Lead(
    id: string,
    name: string,
    email: string,
    phone: string,
    company: string,
    score: int,
    status: Status,
    lastContact: int,
    source: string,
    notes: Option<string>,
    customFields: Option<map<string, string>>,
    createdAt: int)

  /** `keyof Lead`: the field a lead table may be sorted by. */
  datatype LeadField =
    | IdField | NameField | EmailField | PhoneField | CompanyField | ScoreField | StatusField
    | LastContactField | SourceField | NotesField | CustomFieldsField | CreatedAtField

  datatype SortDirection = Asc | Desc

  datatype LeadsTableSort = LeadsTableSort(field: LeadField, direction: SortDirection)

  datatype SearchHistory = SearchHistory(id: string, query: string, timestamp: int)

  datatype TranscriptEntry = TranscriptEntry(timestamp: string, speaker: string, text: string)

  datatype CallInsights = CallInsights(
    summary: string,
    keyPoints: seq<string>,
    actionItems: seq<string>,
    todoList: seq<string>,
    overallScore: int,
    scriptAdherenceScore: int,
    dealClosureProbability: int,
    transcription: seq<TranscriptEntry>)

  datatype Call = Call(
    id: string,
    leadName: string,
    agentName: string,
    timestamp: int,
    duration: string,
    insights: Option<CallInsights>)

  datatype Platform = GoogleMeet | Zoom | Phone

  datatype Meeting = Meeting(
    id: string,
    leadName: string,
    agentName: string,
    timestamp: int,
    duration: string,
    platform: Platform,
    insights: Option<CallInsights>)

  /** `Call | Meeting`: an interaction shown in the calls list or a lead profile. */
  datatype Item = CallItem(call: Call) | MeetingItem(meeting: Meeting) {
    function Id(): string {
      match this
      case CallItem(c) => c.id
      case MeetingItem(m) => m.id
    }
    function Insights(): Option<CallInsights> {
      match this
      case CallItem(c) => c.insights
      case MeetingItem(m) => m.insights
    }
  }

  /** An upcoming meeting of the "Next Meetings" lists (CallsView and LeadProfile); the
      LeadProfile records carry no lead or agent name and only some carry a URL. */
  datatype NextMeeting = NextMeeting(
    id: string,
    leadName: Option<string>,
    agentName: Option<string>,
    date: int,
    kind: string,
    status: string,
    url: Option<string>)

  /** The label of one sparkline point: the day it stands for and whether a trailing space was
      appended to it (the locale date text itself is not modelled). */
  datatype DayLabel = DayLabel(timeMs: int, trailingSpace: bool)

  datatype GraphPoint = GraphPoint(name: DayLabel, value: int)

  datatype SalesMetric = SalesMetric(
    id: string,
    name: string,
    value: int,
    trend: real,
    icon: string,
    linkTo: Option<string>,
    graphData: Option<seq<GraphPoint>>)
}
