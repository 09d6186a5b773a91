/** From persisted observations to one bounded proposal
    (src/domain/model_feedback.py, propose_ir_cohort_feedback). */
module Cohort {
  import opened Types
  import opened Sorting
  import opened IrEstimator
  import opened IrExact

  const MAX_STEP := 0.002
  const MIN_PROPOSAL_DECREMENT := 0.001
  const MAX_COHORT_SPREAD_K := 0.0015
  const MAX_OBSERVATION_UNCERTAINTY_K := 0.0035
  const PROPOSAL_REASON := "cohort of independent natural blackout IR observations"

  datatype Proposal = Proposal(toValue: real, evidenceAt: int, reason: string)

  /** _coerce_observation accepts it. */
  predicate Acceptable(o: IrObservation) {
    MIN_K <= o.estimate <= MAX_K && o.uncertainty >= 0.0 && o.reason != ""
  }

  /** The acceptable candidates, the first one for each event. */
  function Unique(candidates: seq<IrObservation>): seq<IrObservation> {
    if candidates == [] then []
    else
      var n := |candidates| - 1;
      var kept, o := Unique(candidates[..n]), candidates[n];
      if Acceptable(o) && !HasEvent(kept, o.eventAt) then kept + [o] else kept
  }

  method UniqueObservations(candidates: seq<IrObservation>) returns (unique: seq<IrObservation>)
    ensures unique == Unique(candidates)
  {
    unique := [];
    for i := 0 to |candidates|
      invariant unique == Unique(candidates[..i])
    {
      assert candidates[..i + 1][..i] == candidates[..i];
      var o := candidates[i];
      if Acceptable(o) && !HasEvent(unique, o.eventAt) {
        unique := unique + [o];
      }
    }
    assert candidates[..|candidates|] == candidates;
  }

  function Map<T>(os: seq<IrObservation>, f: IrObservation -> T): (r: seq<T>)
    ensures |r| == |os|
  {
    seq(|os|, i requires 0 <= i < |os| => f(os[i]))
  }

  function EstimateOf(o: IrObservation): real { o.estimate }
  function UncertaintyOf(o: IrObservation): real { o.uncertainty }
  function EvidenceOf(o: IrObservation): int { o.evidenceAt }

  function Estimates(os: seq<IrObservation>): seq<real> { Map(os, EstimateOf) }
  function Uncertainties(os: seq<IrObservation>): seq<real> { Map(os, UncertaintyOf) }
  function Evidence(os: seq<IrObservation>): seq<int> { Map(os, EvidenceOf) }

  function Latest(s: seq<int>): (m: int)
    requires s != []
    ensures m in s && forall x :: x in s ==> x <= m
  {
    if |s| == 1 then s[0]
    else
      var m := Latest(s[1..]);
      assert forall x :: x in s ==> x == s[0] || x in s[1..];
      if s[0] >= m then s[0] else m
  }

  function MaxOf(s: seq<real>): (m: real)
    requires s != []
    ensures m in s && forall x :: x in s ==> x <= m
  {
    if |s| == 1 then s[0]
    else
      var m := MaxOf(s[1..]);
      assert forall x :: x in s ==> x == s[0] || x in s[1..];
      if s[0] >= m then s[0] else m
  }

  function MinOf(s: seq<real>): (m: real)
    requires s != []
    ensures m in s && forall x :: x in s ==> m <= x
  {
    if |s| == 1 then s[0]
    else
      var m := MinOf(s[1..]);
      assert forall x :: x in s ==> x == s[0] || x in s[1..];
      if s[0] <= m then s[0] else m
  }

  function DistinctEvents(os: seq<IrObservation>): nat {
    |set i | 0 <= i < |os| :: os[i].eventAt|
  }

  /** The guards on the cohort itself. */
  predicate Agreeing(os: seq<IrObservation>) {
    && |os| >= 3 && DistinctEvents(os) >= 2
    && MaxOf(Uncertainties(os)) <= MAX_OBSERVATION_UNCERTAINTY_K
    && MaxOf(Estimates(os)) - MinOf(Estimates(os)) <= MAX_COHORT_SPREAD_K
  }

  function ProposeFrom(os: seq<IrObservation>, k: real): Option<Proposal> {
    if !(MIN_K <= k <= MAX_K) || !Agreeing(os) then None
    else
      var target := Median(Estimates(os));
      if k - target < MIN_PROPOSAL_DECREMENT then None
      else
        var bounded := if k - MAX_STEP >= target then k - MAX_STEP else target;
        Some(Proposal(bounded, Latest(Evidence(os)), PROPOSAL_REASON))
  }

  function Candidates(saved: seq<IrObservation>, added: Option<IrObservation>): seq<IrObservation> {
    if added.Some? then saved + [added.value] else saved
  }

  function Propose(saved: seq<IrObservation>, added: Option<IrObservation>, k: real): Option<Proposal> {
    ProposeFrom(Unique(Candidates(saved, added)), k)
  }

  method ProposeIrCohortFeedback(saved: seq<IrObservation>, added: Option<IrObservation>, k: real)
    returns (proposal: Option<Proposal>)
    ensures proposal == Propose(saved, added, k)
  {
    if !(MIN_K <= k <= MAX_K) {
      return None;
    }
    var observations := UniqueObservations(Candidates(saved, added));
    if !Agreeing(observations) {
      return None;
    }
    var target := Median(Estimates(observations));
    if k - target < MIN_PROPOSAL_DECREMENT {
      return None;
    }
    var bounded := if k - MAX_STEP >= target then k - MAX_STEP else target;
    proposal := Some(Proposal(bounded, Latest(Evidence(observations)), PROPOSAL_REASON));
  }

  // ----- what survives ----------------------------------------------------------

  ghost predicate DistinctKeys(os: seq<IrObservation>) {
    forall i, j :: 0 <= i < j < |os| ==> os[i].eventAt != os[j].eventAt
  }

  /** Unique keeps only acceptable candidates, one per event, and covers every
      event that has an acceptable candidate. */
  lemma {:induction false} UniqueIsSound(candidates: seq<IrObservation>)
    ensures DistinctKeys(Unique(candidates))
    ensures forall o :: o in Unique(candidates) ==> Acceptable(o) && o in candidates
    ensures forall o :: o in candidates && Acceptable(o) ==> HasEvent(Unique(candidates), o.eventAt)
  {
    if candidates != [] {
      var n := |candidates| - 1;
      UniqueIsSound(candidates[..n]);
      assert candidates == candidates[..n] + [candidates[n]];
      var kept, u := Unique(candidates[..n]), Unique(candidates);
      assert forall i :: 0 <= i < |kept| ==> u[i] == kept[i];
      forall o | o in candidates && Acceptable(o) ensures HasEvent(u, o.eventAt) {
        if HasEvent(kept, o.eventAt) {
          var i :| 0 <= i < |kept| && kept[i].eventAt == o.eventAt;
          assert u[i].eventAt == o.eventAt;
        } else {
          assert o == candidates[n] && u[|kept|] == o;
        }
      }
    }
  }

  /** Each kept candidate is the first acceptable one of its event. */
  lemma {:induction false} UniqueIsFirst(candidates: seq<IrObservation>, o: IrObservation) returns (i: nat)
    requires o in Unique(candidates)
    ensures i < |candidates| && candidates[i] == o && Acceptable(o)
    ensures forall j :: 0 <= j < i && Acceptable(candidates[j]) ==> candidates[j].eventAt != o.eventAt
  {
    var n := |candidates| - 1;
    var front := candidates[..n];
    if o in Unique(front) {
      i := UniqueIsFirst(front, o);
      assert candidates[i] == front[i];
    } else {
      i := n;
      UniqueIsSound(front);
      forall j | 0 <= j < n && Acceptable(candidates[j]) ensures candidates[j].eventAt != o.eventAt {
        assert candidates[j] == front[j] && front[j] in front;
        assert HasEvent(Unique(front), candidates[j].eventAt);
      }
    }
  }

  lemma TwoEvents(os: seq<IrObservation>)
    requires DistinctKeys(os) && |os| >= 2
    ensures DistinctEvents(os) >= 2
  {
    var keys := set i | 0 <= i < |os| :: os[i].eventAt;
    assert os[0].eventAt in keys && os[1].eventAt in keys;
    assert os[0].eventAt != os[1].eventAt;
    assert {os[0].eventAt, os[1].eventAt} <= keys;
    SubsetCount({os[0].eventAt, os[1].eventAt}, keys);
  }

  lemma SubsetCount(a: set<int>, b: set<int>)
    requires a <= b
    ensures |a| <= |b|
  {
    assert b == a + (b - a);
  }

  // ----- bounds of a proposal -----------------------------------------------------

  /** A proposal lowers k by at least 0.001 and at most 0.002, never below 0.005,
      and never below the cohort's smallest estimate; it goes all the way to the
      cohort median unless the cap stops it. */
  lemma ProposalBounds(saved: seq<IrObservation>, added: Option<IrObservation>, k: real)
    requires Propose(saved, added, k).Some?
    ensures var p, u := Propose(saved, added, k).value, Unique(Candidates(saved, added));
            && |u| >= 3
            && MIN_PROPOSAL_DECREMENT <= k - p.toValue <= MAX_STEP
            && MIN_K <= p.toValue < k <= MAX_K
            && MinOf(Estimates(u)) <= Median(Estimates(u)) <= MaxOf(Estimates(u))
            && Median(Estimates(u)) <= p.toValue
            && (k - p.toValue < MAX_STEP ==> p.toValue == Median(Estimates(u)))
            && p.evidenceAt in Evidence(u) && (forall at :: at in Evidence(u) ==> at <= p.evidenceAt)
  {
    hide Median, MaxOf, MinOf, Latest, DistinctEvents, Unique;
    var u := Unique(Candidates(saved, added));
    UniqueIsSound(Candidates(saved, added));
    MedianInCohort(u);
  }

  lemma MedianInCohort(u: seq<IrObservation>)
    requires u != [] && forall o :: o in u ==> Acceptable(o)
    ensures MIN_K <= MinOf(Estimates(u)) <= Median(Estimates(u)) <= MaxOf(Estimates(u))
  {
    hide Median;
    var e := Estimates(u);
    MedianBetween(e, MinOf(e), MaxOf(e));
    var o := MapWitness(u, EstimateOf, MinOf(e));
    assert Acceptable(o) && o.estimate == MinOf(e);
  }

  lemma AgreeingMeaning(u: seq<IrObservation>)
    requires DistinctKeys(u)
    ensures Agreeing(u) <==>
              && |u| >= 3
              && (forall o :: o in u ==> o.uncertainty <= MAX_OBSERVATION_UNCERTAINTY_K)
              && (forall o, o' :: o in u && o' in u ==> o.estimate - o'.estimate <= MAX_COHORT_SPREAD_K)
  {
    hide MaxOf, MinOf, DistinctEvents, Map;
    if |u| >= 3 {
      TwoEvents(u);
      forall o | o in u
        ensures EstimateOf(o) in Estimates(u) && UncertaintyOf(o) in Uncertainties(u)
      {
        MapMember(u, EstimateOf, o);
        MapMember(u, UncertaintyOf, o);
      }
      var a := MapWitness(u, EstimateOf, MaxOf(Estimates(u)));
      var b := MapWitness(u, EstimateOf, MinOf(Estimates(u)));
      var c := MapWitness(u, UncertaintyOf, MaxOf(Uncertainties(u)));
      assert a.estimate == MaxOf(Estimates(u)) && b.estimate == MinOf(Estimates(u));
      assert c.uncertainty == MaxOf(Uncertainties(u));
    }
  }

  lemma MapMember<T>(os: seq<IrObservation>, f: IrObservation -> T, o: IrObservation)
    requires o in os
    ensures f(o) in Map(os, f)
  {
    var i :| 0 <= i < |os| && os[i] == o;
    assert Map(os, f)[i] == f(o);
  }

  lemma MapWitness<T>(os: seq<IrObservation>, f: IrObservation -> T, x: T) returns (o: IrObservation)
    requires x in Map(os, f)
    ensures o in os && f(o) == x
  {
    var i :| 0 <= i < |os| && Map(os, f)[i] == x;
    o := os[i];
  }

  /** When exactly a cohort yields a proposal. */
  lemma ProposalExactly(saved: seq<IrObservation>, added: Option<IrObservation>, k: real)
    ensures var u := Unique(Candidates(saved, added));
            Propose(saved, added, k).Some? <==>
              && MIN_K <= k <= MAX_K && |u| >= 3
              && (forall o :: o in u ==> o.uncertainty <= MAX_OBSERVATION_UNCERTAINTY_K)
              && (forall o, o' :: o in u && o' in u ==> o.estimate - o'.estimate <= MAX_COHORT_SPREAD_K)
              && k - Median(Estimates(u)) >= MIN_PROPOSAL_DECREMENT
  {
    hide Median, MaxOf, MinOf, Latest, DistinctEvents, Map;
    var u := Unique(Candidates(saved, added));
    UniqueIsSound(Candidates(saved, added));
    AgreeingMeaning(u);
  }

  // ----- order and replays do not matter --------------------------------------------

  function Filtered(os: seq<IrObservation>): seq<IrObservation> {
    if os == [] then []
    else
      var n := |os| - 1;
      if Acceptable(os[n]) then Filtered(os[..n]) + [os[n]] else Filtered(os[..n])
  }

  lemma {:induction false} FilteredCounts(os: seq<IrObservation>, o: IrObservation)
    ensures multiset(Filtered(os))[o] == if Acceptable(o) then multiset(os)[o] else 0
  {
    if os != [] {
      var n := |os| - 1;
      assert os == os[..n] + [os[n]];
      FilteredCounts(os[..n], o);
    }
  }

  lemma {:induction false} UniqueOfDistinct(os: seq<IrObservation>)
    requires DistinctKeys(os)
    ensures Unique(os) == Filtered(os)
  {
    if os != [] {
      var n := |os| - 1;
      UniqueOfDistinct(os[..n]);
      UniqueIsSound(os[..n]);
      var kept := Unique(os[..n]);
      forall i | 0 <= i < |kept| ensures kept[i].eventAt != os[n].eventAt {
        assert kept[i] in os[..n];
        var m :| 0 <= m < n && os[m] == kept[i];
        assert os[m].eventAt != os[n].eventAt;
      }
    }
  }

  lemma RemoveAt(os: seq<IrObservation>, i: nat)
    requires i < |os|
    ensures multiset(os[..i] + os[i + 1..]) == multiset(os) - multiset{os[i]}
  {
    assert os == os[..i] + [os[i]] + os[i + 1..];
  }

  /** The first element of a taken out of both. */
  lemma WithoutFirst(a: seq<IrObservation>, b: seq<IrObservation>) returns (i: nat)
    requires a != [] && multiset(a) == multiset(b)
    ensures i < |b| && b[i] == a[0] && a[..0] + a[1..] == a[1..]
    ensures multiset(a[1..]) == multiset(b[..i] + b[i + 1..])
  {
    i := IndexIn(a, b);
    WithoutHead(a);
    RemoveAt(b, i);
  }

  lemma IndexIn(a: seq<IrObservation>, b: seq<IrObservation>) returns (i: nat)
    requires a != [] && multiset(a) == multiset(b)
    ensures i < |b| && b[i] == a[0]
  {
    SameMembers(a, b);
    assert a[0] in b;
    i :| 0 <= i < |b| && b[i] == a[0];
  }

  lemma WithoutHead(a: seq<IrObservation>)
    requires a != []
    ensures a[..0] + a[1..] == a[1..] && multiset(a[1..]) == multiset(a) - multiset{a[0]}
  {
    assert a == [a[0]] + a[1..];
  }

  lemma {:induction false} PermutedMap<T>(a: seq<IrObservation>, b: seq<IrObservation>, f: IrObservation -> T)
    requires multiset(a) == multiset(b)
    ensures multiset(Map(a, f)) == multiset(Map(b, f))
    decreases |a|
  {
    hide Map;
    if a == [] {
      SameMembers(a, b);
    } else {
      var i := WithoutFirst(a, b);
      PermutedMap(a[1..], b[..i] + b[i + 1..], f);
      MapWithout(a, 0, f);
      MapWithout(b, i, f);
    }
  }

  lemma MapWithout<T>(os: seq<IrObservation>, i: nat, f: IrObservation -> T)
    requires i < |os|
    ensures multiset(Map(os, f)) == multiset(Map(os[..i] + os[i + 1..], f)) + multiset{f(os[i])}
  {
    var m := Map(os, f);
    assert m == m[..i] + [m[i]] + m[i + 1..];
    assert Map(os[..i] + os[i + 1..], f) == m[..i] + m[i + 1..];
  }

  lemma SameMembers<T>(a: seq<T>, b: seq<T>)
    requires multiset(a) == multiset(b)
    ensures |a| == |b| && forall x :: x in a <==> x in b
  {
    assert |a| == |multiset(a)| == |multiset(b)| == |b|;
    assert forall x :: (x in a <==> x in multiset(a)) && (x in b <==> x in multiset(b));
  }

  lemma MaxMinOfPermutation(a: seq<real>, b: seq<real>)
    requires a != [] && multiset(a) == multiset(b)
    ensures b != [] && MaxOf(a) == MaxOf(b) && MinOf(a) == MinOf(b)
  {
    SameMembers(a, b);
  }

  lemma LatestOfPermutation(a: seq<int>, b: seq<int>)
    requires a != [] && multiset(a) == multiset(b)
    ensures b != [] && Latest(a) == Latest(b)
  {
    SameMembers(a, b);
  }

  lemma SameEvents(a: seq<IrObservation>, b: seq<IrObservation>)
    requires multiset(a) == multiset(b)
    ensures DistinctEvents(a) == DistinctEvents(b)
  {
    var s, t := set i | 0 <= i < |a| :: a[i].eventAt, set i | 0 <= i < |b| :: b[i].eventAt;
    forall i | 0 <= i < |a| ensures a[i].eventAt in t {
      assert a[i] in multiset(b);
      var j :| 0 <= j < |b| && b[j] == a[i];
    }
    forall i | 0 <= i < |b| ensures b[i].eventAt in s {
      assert b[i] in multiset(a);
      var j :| 0 <= j < |a| && a[j] == b[i];
    }
    assert s == t;
  }

  lemma ProposeFromPermutation(a: seq<IrObservation>, b: seq<IrObservation>, k: real)
    requires multiset(a) == multiset(b)
    ensures ProposeFrom(a, k) == ProposeFrom(b, k)
  {
    hide DistinctEvents, Median, MaxOf, MinOf, Latest;
    SameMembers(a, b);
    PermutedMap(a, b, EstimateOf);
    PermutedMap(a, b, UncertaintyOf);
    PermutedMap(a, b, EvidenceOf);
    if |a| >= 3 {
      SameEvents(a, b);
      MaxMinOfPermutation(Estimates(a), Estimates(b));
      MaxMinOfPermutation(Uncertainties(a), Uncertainties(b));
      LatestOfPermutation(Evidence(a), Evidence(b));
      MedianOfPermutation(Estimates(a), Estimates(b));
    }
  }

  /** Distinct events may be presented in any order. */
  lemma ProposalIgnoresOrder(a: seq<IrObservation>, b: seq<IrObservation>, k: real)
    requires DistinctKeys(a) && DistinctKeys(b) && multiset(a) == multiset(b)
    ensures Propose(a, None, k) == Propose(b, None, k)
  {
    UniqueOfDistinct(a);
    UniqueOfDistinct(b);
    forall o ensures multiset(Filtered(a))[o] == multiset(Filtered(b))[o] {
      FilteredCounts(a, o);
      FilteredCounts(b, o);
    }
    assert multiset(Filtered(a)) == multiset(Filtered(b));
    ProposeFromPermutation(Filtered(a), Filtered(b), k);
  }

  /** Replays of events that are already represented change nothing. */
  lemma {:induction false} UniqueIgnoresReplays(a: seq<IrObservation>, replays: seq<IrObservation>)
    requires forall i :: 0 <= i < |replays| ==> HasEvent(Unique(a), replays[i].eventAt) || !Acceptable(replays[i])
    ensures Unique(a + replays) == Unique(a)
  {
    if replays == [] {
      assert a + replays == a;
    } else {
      var n := |replays| - 1;
      UniqueIgnoresReplays(a, replays[..n]);
      var all := a + replays;
      assert all[..|all| - 1] == a + replays[..n] && all[|all| - 1] == replays[n];
    }
  }

  lemma ProposalIgnoresReplays(a: seq<IrObservation>, replays: seq<IrObservation>, k: real)
    requires forall i :: 0 <= i < |replays| ==> HasEvent(Unique(a), replays[i].eventAt) || !Acceptable(replays[i])
    ensures Propose(a + replays, None, k) == Propose(a, None, k)
  {
    hide ProposeFrom, Unique;
    UniqueIgnoresReplays(a, replays);
  }

  /** Whatever blackout it came from, an extracted observation is accepted into a
      cohort and never trips the uncertainty guard. */
  lemma ExtractedIsCohortReady(rows: seq<Row>, eventAt: Option<int>)
    requires ExtractIr(rows, eventAt).Some?
    ensures var o := ExtractIr(rows, eventAt).value;
            Acceptable(o) && o.uncertainty <= MAX_OBSERVATION_UNCERTAINTY_K
  {
    ExtractedObservationBounds(rows, eventAt);
  }
}
