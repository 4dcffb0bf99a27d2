/** ConversionView: the won and lost leads, the conversion rate over all leads, and the list of
    lead sources ordered by their conversion rate. Rates are exact reals; the one-decimal
    display (`toFixed(1)`) is not modelled. */
module Conversion {
  import opened Types
  import opened Seqs
  import opened Opportunities

  /** `leads.filter(lead => lead.status === 'closed won')`: the won leads, in input order. */
  function WonLeads(leads: seq<Lead>): (r: seq<Lead>)
    ensures forall l :: l in r <==> l in leads && l.status == ClosedWon
    ensures IsSubsequence(r, leads)
  {
    LeadsWithStatus(leads, ClosedWon)
  }

  /** `leads.filter(lead => lead.status === 'closed lost')`: the lost leads, in input order. */
  function LostLeads(leads: seq<Lead>): (r: seq<Lead>)
    ensures forall l :: l in r <==> l in leads && l.status == ClosedLost
    ensures IsSubsequence(r, leads)
  {
    LeadsWithStatus(leads, ClosedLost)
  }

  /** `total > 0 ? (won / total) * 100 : 0` with `total = leads.length`. The rate is the
      percentage of won leads: it lies between 0 and 100, and rate times the number of leads
      is 100 times the number of won leads (which pins it down when there are leads, and makes
      it 0 when there are none). */
  function ConversionRate(leads: seq<Lead>): (r: real)
    ensures 0.0 <= r <= 100.0
    ensures r * (|leads| as real) == 100.0 * (|WonLeads(leads)| as real)
    ensures |leads| == 0 ==> r == 0.0
  {
    var total := |leads|;
    var won := |WonLeads(leads)|;
    if total > 0 then
      PercentBounds(won, total);
      (won as real / total as real) * 100.0
    else 0.0
  }

  /** The share of `part` in `whole`, in percent, lies between 0 and 100 and times `whole` gives
      back 100 times `part`. */
  lemma PercentBounds(part: nat, whole: nat)
    requires 0 < whole && part <= whole
    ensures 0.0 <= (part as real / whole as real) * 100.0 <= 100.0
    ensures (part as real / whole as real) * 100.0 * (whole as real) == 100.0 * (part as real)
  {
    var q := part as real / whole as real;
    assert q * whole as real == part as real;
    assert 0.0 <= q <= 1.0;
  }

  /** Exactly the leads with status 'closed won' are won, each as often as in the input, and
      exactly those with 'closed lost' are lost; a lead of any other status is neither. */
  lemma WonLostExact(leads: seq<Lead>, l: Lead)
    ensures multiset(WonLeads(leads))[l] == if l.status == ClosedWon then multiset(leads)[l] else 0
    ensures multiset(LostLeads(leads))[l] == if l.status == ClosedLost then multiset(leads)[l] else 0
  {
    LeadsWithStatusCount(leads, ClosedWon, l);
    LeadsWithStatusCount(leads, ClosedLost, l);
  }

  /** No lead is both won and lost, and together they are at most all the leads. */
  lemma WonLostDisjoint(leads: seq<Lead>)
    ensures multiset(WonLeads(leads)) * multiset(LostLeads(leads)) == multiset{}
    ensures multiset(WonLeads(leads)) + multiset(LostLeads(leads)) <= multiset(leads)
    ensures |WonLeads(leads)| + |LostLeads(leads)| <= |leads|
  {
    var w := multiset(WonLeads(leads));
    var o := multiset(LostLeads(leads));
    forall l ensures (w * o)[l] == 0 && (w + o)[l] <= multiset(leads)[l] {
      WonLostExact(leads, l);
    }
    assert |w + o| <= |multiset(leads)| by {
      var d := multiset(leads) - (w + o);
      assert multiset(leads) == (w + o) + d;
    }
  }

  /** Reordering the leads changes neither the counts nor the rate. */
  lemma PermutationInvariant(a: seq<Lead>, b: seq<Lead>)
    requires multiset(a) == multiset(b)
    ensures |WonLeads(a)| == |WonLeads(b)|
    ensures |LostLeads(a)| == |LostLeads(b)|
    ensures ConversionRate(a) == ConversionRate(b)
  {
    forall l ensures multiset(WonLeads(a))[l] == multiset(WonLeads(b))[l]
      && multiset(LostLeads(a))[l] == multiset(LostLeads(b))[l]
    {
      WonLostExact(a, l);
      WonLostExact(b, l);
    }
    assert multiset(WonLeads(a)) == multiset(WonLeads(b));
    assert multiset(LostLeads(a)) == multiset(LostLeads(b));
    assert |multiset(WonLeads(a))| == |WonLeads(a)|;
    assert |a| == |multiset(a)| == |multiset(b)| == |b|;
  }

  // ---------------------------------------------------------------------------------------
  // Lead source effectiveness, sorted with `(a, b) => b.conversionRate - a.conversionRate`.

  datatype SourceRate = SourceRate(source: string, conversionRate: real)

  const LeadSourceEffectiveness: seq<SourceRate> := [
    SourceRate("Referral", 45.2),
    SourceRate("Website", 30.5),
    SourceRate("LinkedIn", 15.8),
    SourceRate("Cold Call", 5.1)
  ]

  /** Non-increasing conversion rate. */
  ghost predicate SortedByRateDesc(s: seq<SourceRate>) {
    forall p, q :: 0 <= p < q < |s| ==> s[p].conversionRate >= s[q].conversionRate
  }

  /** Exchanges two entries; no entry is lost or gained. */
  method Swap(a: array<SourceRate>, p: int, q: int)
    requires 0 <= p < a.Length && 0 <= q < a.Length
    modifies a
    ensures a[..] == old(a[..])[p := old(a[q])][q := old(a[p])]
    ensures multiset(a[..]) == multiset(old(a[..]))
  {
    a[p], a[q] := a[q], a[p];
  }

  /** Moves `a[i]` left past every smaller rate, so that a sorted prefix of length `i` becomes
      a sorted prefix of length `i + 1`; the rest of the array is untouched. */
  method SinkLeft(a: array<SourceRate>, i: int)
    requires 1 <= i < a.Length
    requires forall p, q :: 0 <= p < q < i ==> a[p].conversionRate >= a[q].conversionRate
    modifies a
    ensures forall p, q :: 0 <= p < q <= i ==> a[p].conversionRate >= a[q].conversionRate
    ensures multiset(a[..]) == multiset(old(a[..]))
    ensures forall k :: i < k < a.Length ==> a[k] == old(a[k])
  {
    var j := i;
    while j > 0 && a[j - 1].conversionRate < a[j].conversionRate
      invariant 0 <= j <= i
      invariant forall p, q :: 0 <= p < q <= i && p != j && q != j ==> a[p].conversionRate >= a[q].conversionRate
      invariant forall q :: j < q <= i ==> a[j].conversionRate > a[q].conversionRate
      invariant multiset(a[..]) == multiset(old(a[..]))
      invariant forall k :: i < k < a.Length ==> a[k] == old(a[k])
    {
      Swap(a, j - 1, j);
      j := j - 1;
    }
  }

  /** `leadSourceEffectiveness.sort(...)`: reorders the array in place so that rates never
      increase, keeping exactly the same entries. */
  method SortByRateDesc(a: array<SourceRate>)
    modifies a
    ensures SortedByRateDesc(a[..])
    ensures multiset(a[..]) == multiset(old(a[..]))
  {
    if a.Length < 2 {
      return;
    }
    var i := 1;
    while i < a.Length
      invariant 1 <= i <= a.Length
      invariant forall p, q :: 0 <= p < q < i ==> a[p].conversionRate >= a[q].conversionRate
      invariant multiset(a[..]) == multiset(old(a[..]))
    {
      SinkLeft(a, i);
      i := i + 1;
    }
  }

  /** The listed sources are already in non-increasing order. */
  lemma LeadSourceEffectivenessSorted()
    ensures SortedByRateDesc(LeadSourceEffectiveness)
  {
  }
}
