/** OpportunitiesView: the Kanban board of the sales pipeline. The leads are grouped into one
    column per pipeline stage, and each column header shows the capitalised stage name and the
    number of leads in it. */
module Opportunities {
  import opened Types
  import opened Strings
  import opened Seqs

  /** The columns of the board, one per status, in pipeline order. */
  const KanbanStages: seq<Status> :=
    [New, Contacted, Qualified, ProposalSent, Negotiation, ClosedWon, ClosedLost]

  /** Every status has exactly one column, and the columns follow the order of the status
      union type. */
  lemma KanbanStagesComplete()
    ensures |KanbanStages| == 7
    ensures forall s: Status :: s in KanbanStages
    ensures forall i :: 0 <= i < |KanbanStages| ==> StatusRank(KanbanStages[i]) == i
    ensures NoDuplicates(KanbanStages)
  {
    forall s: Status ensures s in KanbanStages {
      assert KanbanStages[StatusRank(s)] == s;
    }
  }

  // ---------------------------------------------------------------------------------------
  // formatStatusName: split on ' ', capitalise the first letter of each word, join with ' '.

  function CapitalizeWords(words: seq<string>): (r: seq<string>)
    ensures |r| == |words|
    ensures forall k :: 0 <= k < |words| ==> r[k] == CapitalizeFirst(words[k])
  {
    seq(|words|, k requires 0 <= k < |words| => CapitalizeFirst(words[k]))
  }

  /** `formatStatusName(status)`. */
  function FormatStatusName(status: string): string {
    Join(CapitalizeWords(Split(status, ' ')), ' ')
  }

  lemma CapitalizeWordsCons(w: string, rest: seq<string>)
    ensures CapitalizeWords([w] + rest) == [CapitalizeFirst(w)] + CapitalizeWords(rest)
  {
    var ws := [w] + rest;
    assert forall k :: 0 < k < |ws| ==> ws[k] == rest[k - 1];
  }

  /** Splitting a string at its first space unfolds the formatted name one word at a time. */
  lemma FormatStatusNameUnfold(s: string)
    requires ' ' in s
    ensures var i := IndexOf(s, ' ');
      FormatStatusName(s) == CapitalizeFirst(s[..i]) + [' '] + FormatStatusName(s[i + 1..])
  {
    var i := IndexOf(s, ' ');
    var rest := Split(s[i + 1..], ' ');
    SplitCons(s, ' ');
    CapitalizeWordsCons(s[..i], rest);
    JoinCons(CapitalizeFirst(s[..i]), CapitalizeWords(rest), ' ');
  }

  /** A single word is only capitalised. */
  lemma FormatStatusNameWord(w: string)
    requires ' ' !in w
    ensures FormatStatusName(w) == CapitalizeFirst(w)
  {
    assert Split(w, ' ') == [w];
  }

  /** Character by character, the formatted name is the status with every character that
      starts a word (the first one, and each one after a space) upper-cased, and every other
      character unchanged; in particular it has the same length. */
  lemma {:induction false} FormatStatusNameChars(s: string)
    ensures WordStartsCapitalized(s, FormatStatusName(s))
    decreases |s|
  {
    if ' ' !in s {
      FormatStatusNameWord(s);
      WordCapitalized(s);
    } else {
      var i := IndexOf(s, ' ');
      FormatStatusNameUnfold(s);
      FormatStatusNameChars(s[i + 1..]);
      FirstWordCapitalized(s, i, FormatStatusName(s[i + 1..]));
    }
  }

  /** `r` is `s` with the first character and every character after a space upper-cased. */
  ghost predicate WordStartsCapitalized(s: string, r: string) {
    |r| == |s| && forall k {:trigger r[k]} :: 0 <= k < |s| ==> r[k] == (if k == 0 || s[k - 1] == ' ' then UpperChar(s[k]) else s[k])
  }

  lemma WordCapitalized(w: string)
    requires ' ' !in w
    ensures WordStartsCapitalized(w, CapitalizeFirst(w))
  {
  }

  /** Capitalising the word before the first space, at `i`, and the rest as a whole keeps the
      property. */
  lemma FirstWordCapitalized(s: string, i: nat, tail: string)
    requires i < |s| && s[i] == ' ' && forall j :: 0 <= j < i ==> s[j] != ' '
    requires WordStartsCapitalized(s[i + 1..], tail)
    ensures WordStartsCapitalized(s, CapitalizeFirst(s[..i]) + [' '] + tail)
  {
    var rest := s[i + 1..];
    var head := CapitalizeFirst(s[..i]);
    var r := head + [' '] + tail;
    forall k | 0 <= k < |s|
      ensures r[k] == (if k == 0 || s[k - 1] == ' ' then UpperChar(s[k]) else s[k])
    {
      if k < i {
        assert r[k] == head[k];
        if k > 0 {
          assert head[k] == head[1..][k - 1] == s[..i][k];
        }
      } else if k == i {
        assert r[k] == ' ' == s[k];
      } else {
        var m := k - i - 1;
        assert 0 <= m < |rest| == |tail|;
        assert r[k] == tail[m];
        assert tail[m] == (if m == 0 || rest[m - 1] == ' ' then UpperChar(rest[m]) else rest[m]);
        assert rest[m] == s[k];
        if m > 0 {
          assert rest[m - 1] == s[k - 1];
        }
      }
    }
  }

  lemma CapitalizeFirstSpaceFree(w: string)
    requires ' ' !in w
    ensures ' ' !in CapitalizeFirst(w)
  {
    if w != [] {
      assert CapitalizeFirst(w) == [UpperChar(w[0])] + w[1..];
    }
  }

  /** The formatted name has the same words as the status, each one capitalised: the word
      count is kept, and e.g. "closed won" has the words "Closed" and "Won". */
  lemma FormatStatusNameWords(s: string)
    ensures Split(FormatStatusName(s), ' ') == CapitalizeWords(Split(s, ' '))
    ensures |Split(FormatStatusName(s), ' ')| == |Split(s, ' ')|
  {
    var words := Split(s, ' ');
    SplitPiecesFree(s, ' ');
    var caps := CapitalizeWords(words);
    forall k | 0 <= k < |caps| ensures ' ' !in caps[k] {
      CapitalizeFirstSpaceFree(words[k]);
    }
    SplitJoin(caps, ' ');
  }

  /** A two-word status comes out as its two capitalised words around the space. */
  lemma FormatTwoWords(a: string, b: string)
    requires ' ' !in a && ' ' !in b
    ensures FormatStatusName(a + " " + b) == CapitalizeFirst(a) + " " + CapitalizeFirst(b)
  {
    var s := a + " " + b;
    assert s[|a|] == ' ';
    assert IndexOf(s, ' ') == |a| by {
      assert forall j :: 0 <= j < |a| ==> s[j] == a[j];
    }
    assert s[..|a|] == a && s[|a| + 1..] == b;
    FormatStatusNameUnfold(s);
    FormatStatusNameWord(b);
  }

  /** The words of "closed won", held in variables so that the solver does not unfold the
      literal. */
  lemma FormatClosedWonWords(a: string, b: string)
    requires a == "closed" && b == "won"
    ensures FormatStatusName(a + " " + b) == "Closed Won"
  {
    assert ' ' !in a;
    assert ' ' !in b;
    FormatTwoWords(a, b);
    assert CapitalizeFirst(a) == "Closed";
    assert CapitalizeFirst(b) == "Won";
  }

  /** "closed won" comes out as the board shows it. */
  lemma FormatClosedWon()
    ensures FormatStatusName("closed won") == "Closed Won"
  {
    FormatClosedWonWords("closed", "won");
    assert "closed" + " " + "won" == "closed won";
  }

  // ---------------------------------------------------------------------------------------
  // leadsByStatus: for each stage, `leads.filter(lead => lead.status === stage)`.

  /** The leads whose status is `s`, in input order. */
  function LeadsWithStatus(leads: seq<Lead>, s: Status): (r: seq<Lead>)
    ensures forall l :: l in r <==> l in leads && l.status == s
    ensures IsSubsequence(r, leads)
    ensures |r| <= |leads|
  {
    if leads == [] then []
    else if leads[0].status == s then [leads[0]] + LeadsWithStatus(leads[1..], s)
    else LeadsWithStatus(leads[1..], s)
  }

  /** The grouping as a record from stage to column, one entry per stage. */
  function LeadsByStatus(leads: seq<Lead>): (r: map<Status, seq<Lead>>)
    ensures forall s: Status :: s in r
    ensures forall s: Status, l: Lead :: l in r[s] <==> l in leads && l.status == s
  {
    KanbanStagesComplete();
    map s | s in KanbanStages :: LeadsWithStatus(leads, s)
  }

  /** The `reduce` over `kanbanStages` that fills the accumulator one stage at a time. */
  method GroupByStatus(leads: seq<Lead>) returns (acc: map<Status, seq<Lead>>)
    ensures acc == LeadsByStatus(leads)
    ensures forall s: Status :: s in acc && acc[s] == LeadsWithStatus(leads, s)
  {
    acc := map[];
    for k := 0 to |KanbanStages|
      invariant acc.Keys == set j | 0 <= j < k :: KanbanStages[j]
      invariant forall j :: 0 <= j < k ==> acc[KanbanStages[j]] == LeadsWithStatus(leads, KanbanStages[j])
    {
      acc := acc[KanbanStages[k] := LeadsWithStatus(leads, KanbanStages[k])];
    }
    KanbanStagesComplete();
    assert acc.Keys == LeadsByStatus(leads).Keys;
  }

  /** A lead occurs in the column of its own status as often as it occurs in the input, and
      in every other column not at all. */
  lemma {:induction false} LeadsWithStatusCount(leads: seq<Lead>, s: Status, l: Lead)
    ensures multiset(LeadsWithStatus(leads, s))[l] == if l.status == s then multiset(leads)[l] else 0
  {
    if leads != [] {
      LeadsWithStatusCount(leads[1..], s, l);
      assert leads == [leads[0]] + leads[1..];
    }
  }

  /** The union of the seven columns of a lead list. */
  function Columns(leads: seq<Lead>): multiset<Lead> {
    multiset(LeadsWithStatus(leads, New)) + multiset(LeadsWithStatus(leads, Contacted))
    + multiset(LeadsWithStatus(leads, Qualified)) + multiset(LeadsWithStatus(leads, ProposalSent))
    + multiset(LeadsWithStatus(leads, Negotiation)) + multiset(LeadsWithStatus(leads, ClosedWon))
    + multiset(LeadsWithStatus(leads, ClosedLost))
  }

  /** The columns together hold every lead exactly as often as the input does. */
  lemma {:induction false} ColumnsUnion(leads: seq<Lead>)
    ensures Columns(leads) == multiset(leads)
  {
    forall l ensures Columns(leads)[l] == multiset(leads)[l] {
      LeadsWithStatusCount(leads, New, l);
      LeadsWithStatusCount(leads, Contacted, l);
      LeadsWithStatusCount(leads, Qualified, l);
      LeadsWithStatusCount(leads, ProposalSent, l);
      LeadsWithStatusCount(leads, Negotiation, l);
      LeadsWithStatusCount(leads, ClosedWon, l);
      LeadsWithStatusCount(leads, ClosedLost, l);
    }
  }

  /** The board partitions the leads: the union of its columns is the input, and the column
      sizes add up to the number of leads. */
  lemma ColumnsPartition(leads: seq<Lead>)
    ensures var m := LeadsByStatus(leads);
      multiset(m[New]) + multiset(m[Contacted]) + multiset(m[Qualified])
      + multiset(m[ProposalSent]) + multiset(m[Negotiation])
      + multiset(m[ClosedWon]) + multiset(m[ClosedLost]) == multiset(leads)
    ensures var m := LeadsByStatus(leads);
      |m[New]| + |m[Contacted]| + |m[Qualified]| + |m[ProposalSent]| + |m[Negotiation]|
      + |m[ClosedWon]| + |m[ClosedLost]| == |leads|
  {
    ColumnsUnion(leads);
    var m := LeadsByStatus(leads);
    assert m[New] == LeadsWithStatus(leads, New);
    assert m[Contacted] == LeadsWithStatus(leads, Contacted);
    assert m[Qualified] == LeadsWithStatus(leads, Qualified);
    assert m[ProposalSent] == LeadsWithStatus(leads, ProposalSent);
    assert m[Negotiation] == LeadsWithStatus(leads, Negotiation);
    assert m[ClosedWon] == LeadsWithStatus(leads, ClosedWon);
    assert m[ClosedLost] == LeadsWithStatus(leads, ClosedLost);
    assert |Columns(leads)| == |multiset(leads)|;
  }

  /** Two different columns share no lead. */
  lemma ColumnsDisjoint(leads: seq<Lead>, s: Status, t: Status)
    requires s != t
    ensures multiset(LeadsByStatus(leads)[s]) * multiset(LeadsByStatus(leads)[t]) == multiset{}
  {
    var a := multiset(LeadsByStatus(leads)[s]);
    var b := multiset(LeadsByStatus(leads)[t]);
    forall l ensures (a * b)[l] == 0 {
      LeadsWithStatusCount(leads, s, l);
      LeadsWithStatusCount(leads, t, l);
    }
  }

  /** `leadsByStatus[stage]?.length || 0`: the number shown in a column header. */
  function ColumnCount(byStatus: map<Status, seq<Lead>>, stage: Status): nat {
    if stage in byStatus then |byStatus[stage]| else 0
  }

  /** The header count is the size of the column, and it is 0 exactly when no lead has that
      status. */
  lemma ColumnCountIsSize(leads: seq<Lead>, stage: Status)
    ensures ColumnCount(LeadsByStatus(leads), stage) == |LeadsWithStatus(leads, stage)|
    ensures ColumnCount(LeadsByStatus(leads), stage) == 0 <==> forall l :: l in leads ==> l.status != stage
  {
    KanbanStagesComplete();
    var col := LeadsWithStatus(leads, stage);
    if col != [] {
      assert col[0] in col;
    }
  }
}
