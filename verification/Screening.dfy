/** The industry-capped selection of the screening pipeline: a greedy pass over the
    score-sorted candidates, proved optimal among all selections that respect the caps. */
module Screening {
  import Sorting
  import opened Sets
  import opened Wrappers

  datatype Candidate = Candidate(tsCode: string, industry: Option<string>, totalScore: real)

  const UNCLASSIFIED := "未分类"

  /** A missing or empty industry counts as unclassified, which no cap limits. */
  function IndustryOf(c: Candidate): string {
    if c.industry.None? || c.industry.value == "" then UNCLASSIFIED else c.industry.value
  }

  function Ceiling(x: real): int {
    if x.Floor as real == x then x.Floor else x.Floor + 1
  }

  lemma {:induction false} CeilingIsLeast(x: real, n: int)
    ensures Ceiling(x) <= n <==> x <= n as real
  {
    assert x.Floor as real <= x < x.Floor as real + 1.0;
    assert Ceiling(x) <= n || n <= Ceiling(x) - 1;
    assert (Ceiling(x) - 1) as real < x;
  }

  function MaxPerIndustry(topN: nat, cap: real): nat {
    var share := Ceiling(topN as real * cap);
    if share < 1 then 1 else share
  }

  /** The cap is the smallest number of rows, at least one, that is not below the share. */
  lemma {:induction false} CapIsLeastShare(topN: nat, cap: real, n: nat)
    ensures MaxPerIndustry(topN, cap) <= n <==> 1 <= n && topN as real * cap <= n as real
  {
    CeilingIsLeast(topN as real * cap, n);
  }

  // ---- selections and what makes one admissible ----

  ghost function Prefix(s: set<nat>, p: nat): set<nat> {
    set i | i in s && i < p
  }

  ghost function OfIndustry(rows: seq<Candidate>, s: set<nat>, g: string): set<nat>
    requires forall i | i in s :: i < |rows|
  {
    set i | i in s && IndustryOf(rows[i]) == g
  }

  /** At most topN rows, and at most `most` rows of any one classified industry. */
  ghost predicate Feasible(rows: seq<Candidate>, s: set<nat>, topN: nat, most: nat) {
    && (forall i | i in s :: i < |rows|)
    && |s| <= topN
    && forall g | g != UNCLASSIFIED :: |OfIndustry(rows, s, g)| <= most
  }

  /** Admissible in terms of the table: no industry has too many rows, where a row without a name for
      its industry, or with the name of the unclassified ones, is in none. */
  lemma {:induction false} FeasibleMeans(rows: seq<Candidate>, s: set<nat>, topN: nat, most: nat)
    requires forall i | i in s :: i < |rows|
    ensures Feasible(rows, s, topN, most)
            <==> |s| <= topN && forall g: string | g != "" && g != "未分类" ::
                    |set i | i in s && rows[i].industry == Some(g)| <= most
  {
    forall g: string | g != "" && g != "未分类"
      ensures OfIndustry(rows, s, g) == set i | i in s && rows[i].industry == Some(g)
    {}
    assert OfIndustry(rows, s, "") == {};
  }

  /** Every row left out before position n was left out because the selection was full, or
      its industry was, by the time the row was reached. */
  ghost predicate LeftOutForCause(rows: seq<Candidate>, s: set<nat>, n: nat, topN: nat, most: nat)
    requires n <= |rows| && forall i | i in s :: i < |rows|
  {
    forall j | 0 <= j < n && j !in s ::
      || |Prefix(s, j)| >= topN
      || (IndustryOf(rows[j]) != UNCLASSIFIED && |OfIndustry(rows, Prefix(s, j), IndustryOf(rows[j]))| >= most)
  }

  /** No admissible selection has more rows than s among the best p candidates, whatever p. */
  ghost predicate Dominates(rows: seq<Candidate>, s: set<nat>, topN: nat, most: nat) {
    forall t: set<nat>, p: nat | Feasible(rows, t, topN, most) && p <= |rows| :: |Prefix(t, p)| <= |Prefix(s, p)|
  }

  // ---- counting ----

  /** A set that has no more members than another in any industry has no more members. */
  lemma {:induction false} CountByIndustry(rows: seq<Candidate>, a: set<nat>, b: set<nat>)
    requires forall i | i in a || i in b :: i < |rows|
    requires forall g :: |OfIndustry(rows, a, g)| <= |OfIndustry(rows, b, g)|
    ensures |a| <= |b|
    decreases |a|
  {
    if a != {} {
      var x :| x in a;
      var g := IndustryOf(rows[x]);
      var a', b' := OfIndustry(rows, a, g), OfIndustry(rows, b, g);
      assert x in a';
      forall h
        ensures |OfIndustry(rows, a - a', h)| <= |OfIndustry(rows, b - b', h)|
      {
        if h == g {
          assert OfIndustry(rows, a - a', h) == {};
        } else {
          assert OfIndustry(rows, a - a', h) == OfIndustry(rows, a, h);
          assert OfIndustry(rows, b - b', h) == OfIndustry(rows, b, h);
        }
      }
      Subset(a', a);
      Subset(b', b);
      CountByIndustry(rows, a - a', b - b');
    }
  }

  lemma PrefixGrows(s: set<nat>, p: nat)
    ensures Prefix(s, p + 1) == Prefix(s, p) + (if p in s then {p} else {})
    ensures |Prefix(s, p + 1)| == |Prefix(s, p)| + if p in s then 1 else 0
  {
    assert Prefix(s, p + 1) == Prefix(s, p) + (if p in s then {p} else {});
  }

  // ---- optimality ----

  /** The heart of the matter: within every prefix of the candidates, a selection that leaves
      rows out only for cause is a largest admissible one. */
  lemma GreedyDominates(rows: seq<Candidate>, s: set<nat>, t: set<nat>, topN: nat, most: nat, p: nat)
    requires p <= |rows| && Feasible(rows, s, topN, most) && Feasible(rows, t, topN, most)
    requires LeftOutForCause(rows, s, |rows|, topN, most)
    ensures |Prefix(t, p)| <= |Prefix(s, p)|
  {
    if j :| 0 <= j < p && j !in s && |Prefix(s, j)| >= topN {
      Subset(Prefix(s, j), Prefix(s, p));
      Subset(Prefix(t, p), t);
    } else {
      forall g
        ensures |OfIndustry(rows, Prefix(t, p), g)| <= |OfIndustry(rows, Prefix(s, p), g)|
      {
        if j :| 0 <= j < p && j !in s && IndustryOf(rows[j]) == g {
          Subset(OfIndustry(rows, Prefix(s, j), g), OfIndustry(rows, Prefix(s, p), g));
          Subset(OfIndustry(rows, Prefix(t, p), g), OfIndustry(rows, t, g));
        } else {
          Subset(OfIndustry(rows, Prefix(t, p), g), OfIndustry(rows, Prefix(s, p), g));
        }
      }
      CountByIndustry(rows, Prefix(t, p), Prefix(s, p));
    }
  }

  /** Only one admissible selection dominates all others, so Dominates leaves the result no freedom. */
  lemma DominatingSelectionIsUnique(rows: seq<Candidate>, s: set<nat>, t: set<nat>, topN: nat, most: nat)
    requires Feasible(rows, s, topN, most) && Dominates(rows, s, topN, most)
    requires Feasible(rows, t, topN, most) && Dominates(rows, t, topN, most)
    ensures s == t
  {
    forall i: nat
      ensures i in s <==> i in t
    {
      if i < |rows| {
        PrefixGrows(s, i);
        PrefixGrows(t, i);
      }
    }
  }

  /** The total score of the members of s among the first p rows. */
  ghost function ScoreSum(rows: seq<Candidate>, s: set<nat>, p: nat): real
    requires p <= |rows|
  {
    if p == 0 then 0.0
    else ScoreSum(rows, s, p - 1) + if p - 1 in s then rows[p - 1].totalScore else 0.0
  }

  const BY_SCORE: Candidate -> real := (c: Candidate) => c.totalScore

  ghost predicate SortedByScore(rows: seq<Candidate>) {
    Sorting.SortedBy(rows, BY_SCORE)
  }

  /** By how many rows s is ahead of t among the first p. */
  ghost function Lead(s: set<nat>, t: set<nat>, p: nat): real {
    if p == 0 then 0.0
    else Lead(s, t, p - 1) + (if p - 1 in s then 1.0 else 0.0) - (if p - 1 in t then 1.0 else 0.0)
  }

  lemma {:induction false} LeadCounts(s: set<nat>, t: set<nat>, p: nat)
    ensures Lead(s, t, p) == |Prefix(s, p)| as real - |Prefix(t, p)| as real
  {
    if p == 0 {
      assert Prefix(s, 0) == {} == Prefix(t, 0);
    } else {
      LeadCounts(s, t, p - 1);
      PrefixGrows(s, p - 1);
      PrefixGrows(t, p - 1);
    }
  }

  /** With sorted scores, the selection that is ahead in every prefix pays no more for its
      extra rows than the score of the last row seen. */
  lemma {:induction false} ExtraRowsAreCheap(rows: seq<Candidate>, s: set<nat>, t: set<nat>, p: nat)
    requires 0 < p <= |rows| && SortedByScore(rows)
    requires forall q: nat | q <= p :: Lead(s, t, q) >= 0.0
    ensures Worth(ScoreSum(rows, s, p) - ScoreSum(rows, t, p), rows[p - 1].totalScore, Lead(s, t, p))
  {
    var ahead := ScoreSum(rows, s, p - 1) - ScoreSum(rows, t, p - 1);
    var score := rows[p - 1].totalScore;
    var before := if p == 1 then score else rows[p - 2].totalScore;
    if p > 1 {
      ExtraRowsAreCheap(rows, s, t, p - 1);
      assert BY_SCORE(rows[p - 2]) <= BY_SCORE(rows[p - 1]);
    }
    OneRowMore(ahead, before, score, Lead(s, t, p - 1), p - 1 in s, p - 1 in t);
  }

  /** The amount is no more than what `lead` rows cost at this price. */
  ghost predicate Worth(amount: real, price: real, lead: real) {
    amount <= price * lead
  }

  lemma OneRowMore(ahead: real, before: real, score: real, lead: real, inS: bool, inT: bool)
    requires lead >= 0.0 && before <= score && Worth(ahead, before, lead)
    ensures Worth(ahead + (if inS then score else 0.0) - (if inT then score else 0.0), score,
                  lead + (if inS then 1.0 else 0.0) - (if inT then 1.0 else 0.0))
  {
    assert before * lead <= score * lead;
  }

  /** No admissible selection is larger than a dominating one, and none of the same size has
      a smaller (better) total score. */
  lemma DominatingSelectionIsOptimal(rows: seq<Candidate>, s: set<nat>, t: set<nat>, topN: nat, most: nat)
    requires SortedByScore(rows)
    requires Feasible(rows, s, topN, most) && Dominates(rows, s, topN, most)
    requires Feasible(rows, t, topN, most)
    ensures |t| <= |s|
    ensures |t| == |s| ==> ScoreSum(rows, s, |rows|) <= ScoreSum(rows, t, |rows|)
  {
    assert Prefix(s, |rows|) == s && Prefix(t, |rows|) == t;
    forall q: nat | q <= |rows|
      ensures Lead(s, t, q) >= 0.0
    {
      LeadCounts(s, t, q);
    }
    LeadCounts(s, t, |rows|);
    if |rows| > 0 {
      ExtraRowsAreCheap(rows, s, t, |rows|);
    }
  }

  // ---- the algorithm ----

  /** The counters hold the number of selected rows of every classified industry. */
  ghost predicate Counted(rows: seq<Candidate>, s: set<nat>, counts: map<string, nat>)
    requires forall i | i in s :: i < |rows|
  {
    forall g | g != UNCLASSIFIED :: |OfIndustry(rows, s, g)| == if g in counts then counts[g] else 0
  }

  /** What the pass knows when it reaches row n. */
  ghost predicate Reached(rows: seq<Candidate>, s: set<nat>, n: nat, counts: map<string, nat>, topN: nat, most: nat) {
    && n <= |rows|
    && (forall i | i in s :: i < n)
    && Feasible(rows, s, topN, most)
    && Counted(rows, s, counts)
    && LeftOutForCause(rows, s, n, topN, most)
  }

  lemma OneMoreOfIndustry(rows: seq<Candidate>, s: set<nat>, n: nat, g: string)
    requires n < |rows| && forall i | i in s :: i < n
    ensures |OfIndustry(rows, s + {n}, g)| == |OfIndustry(rows, s, g)| + if g == IndustryOf(rows[n]) then 1 else 0
  {
    assert OfIndustry(rows, s + {n}, g) == OfIndustry(rows, s, g) + if g == IndustryOf(rows[n]) then {n} else {};
  }

  /** Taking row n leaves the reasons for the rows left out before it as they were. */
  lemma KeepsCause(rows: seq<Candidate>, s: set<nat>, n: nat, topN: nat, most: nat)
    requires n < |rows| && (forall i | i in s :: i < n) && LeftOutForCause(rows, s, n, topN, most)
    ensures LeftOutForCause(rows, s + {n}, n + 1, topN, most)
  {
    forall j | 0 <= j < n
      ensures Prefix(s + {n}, j) == Prefix(s, j)
    {}
  }

  lemma TakeRow(rows: seq<Candidate>, s: set<nat>, n: nat, counts: map<string, nat>, topN: nat, most: nat)
    requires Reached(rows, s, n, counts, topN, most) && n < |rows| && |s| < topN
    requires var g := IndustryOf(rows[n]);
             g == UNCLASSIFIED || (if g in counts then counts[g] else 0) < most
    ensures var g := IndustryOf(rows[n]);
            var count := if g in counts then counts[g] else 0;
            Reached(rows, s + {n}, n + 1, if g == UNCLASSIFIED then counts else counts[g := count + 1], topN, most)
  {
    forall g
      ensures |OfIndustry(rows, s + {n}, g)| == |OfIndustry(rows, s, g)| + if g == IndustryOf(rows[n]) then 1 else 0
    {
      OneMoreOfIndustry(rows, s, n, g);
    }
    KeepsCause(rows, s, n, topN, most);
  }

  lemma LeaveRow(rows: seq<Candidate>, s: set<nat>, n: nat, counts: map<string, nat>, topN: nat, most: nat)
    requires Reached(rows, s, n, counts, topN, most) && n < |rows|
    requires var g := IndustryOf(rows[n]);
             g != UNCLASSIFIED && (if g in counts then counts[g] else 0) >= most
    ensures Reached(rows, s, n + 1, counts, topN, most)
  {
    assert Prefix(s, n) == s;
  }

  lemma StopWithReason(rows: seq<Candidate>, s: set<nat>, n: nat, counts: map<string, nat>, topN: nat, most: nat)
    requires Reached(rows, s, n, counts, topN, most) && (n == |rows| || |s| >= topN)
    ensures Dominates(rows, s, topN, most)
  {
    forall j | n <= j < |rows|
      ensures Prefix(s, j) == s
    {}
    forall t: set<nat>, p: nat | Feasible(rows, t, topN, most) && p <= |rows|
      ensures |Prefix(t, p)| <= |Prefix(s, p)|
    {
      GreedyDominates(rows, s, t, topN, most, p);
    }
  }

  ghost predicate Ascending(selected: seq<nat>, n: nat) {
    && (forall k | 0 <= k < |selected| :: selected[k] < n)
    && (forall k, l | 0 <= k < l < |selected| :: selected[k] < selected[l])
  }

  ghost function Members(selected: seq<nat>): set<nat> {
    set i | i in selected
  }

  lemma Append(selected: seq<nat>, n: nat)
    requires Ascending(selected, n) && |Members(selected)| == |selected|
    ensures Ascending(selected + [n], n + 1)
    ensures Members(selected + [n]) == Members(selected) + {n}
    ensures |Members(selected + [n])| == |selected + [n]|
  {
    assert Members(selected + [n]) == Members(selected) + {n};
    assert n !in Members(selected);
  }

  /** The list of selected rows and the counters, when the pass reaches row n. */
  ghost predicate Passed(rows: seq<Candidate>, selected: seq<nat>, n: nat, counts: map<string, nat>, topN: nat,
                         most: nat) {
    && Ascending(selected, n) && |Members(selected)| == |selected|
    && Reached(rows, Members(selected), n, counts, topN, most)
  }

  lemma {:induction false} PassTakes(rows: seq<Candidate>, selected: seq<nat>, n: nat, counts: map<string, nat>,
                                     topN: nat, most: nat)
    requires Passed(rows, selected, n, counts, topN, most) && n < |rows| && |selected| < topN
    requires var g := IndustryOf(rows[n]);
             g == UNCLASSIFIED || (if g in counts then counts[g] else 0) < most
    ensures var g := IndustryOf(rows[n]);
            var count := if g in counts then counts[g] else 0;
            Passed(rows, selected + [n], n + 1, if g == UNCLASSIFIED then counts else counts[g := count + 1], topN,
                   most)
  {
    TakeRow(rows, Members(selected), n, counts, topN, most);
    Append(selected, n);
  }

  lemma {:induction false} PassLeaves(rows: seq<Candidate>, selected: seq<nat>, n: nat, counts: map<string, nat>,
                                      topN: nat, most: nat)
    requires Passed(rows, selected, n, counts, topN, most) && n < |rows|
    requires var g := IndustryOf(rows[n]);
             g != UNCLASSIFIED && (if g in counts then counts[g] else 0) >= most
    ensures Passed(rows, selected, n + 1, counts, topN, most)
  {
    LeaveRow(rows, Members(selected), n, counts, topN, most);
  }

  lemma {:induction false} PassStarts(rows: seq<Candidate>, topN: nat, most: nat)
    ensures Passed(rows, [], 0, map[], topN, most)
  {
    assert Members([]) == {};
  }

  /** `enforce_industry_cap`: sort by score, then one pass with a count per industry. */
  method EnforceIndustryCap(df: seq<Candidate>, cap: real, topN: nat)
    returns (sorted: seq<Candidate>, selected: seq<nat>, result: seq<Candidate>)
    ensures multiset(sorted) == multiset(df) && SortedByScore(sorted)
    ensures Ascending(selected, |sorted|)
    ensures result == seq(|selected|, k requires 0 <= k < |selected| => sorted[selected[k]])
    ensures Feasible(sorted, Members(selected), topN, MaxPerIndustry(topN, cap))
    ensures Dominates(sorted, Members(selected), topN, MaxPerIndustry(topN, cap))
  {
    sorted := Sorting.Sort(df, BY_SCORE);
    selected := GreedyPass(sorted, MaxPerIndustry(topN, cap), topN);
    result := seq(|selected|, k requires 0 <= k < |selected| => sorted[selected[k]]);
  }

  method GreedyPass(sorted: seq<Candidate>, most: nat, topN: nat) returns (selected: seq<nat>)
    ensures Ascending(selected, |sorted|)
    ensures Feasible(sorted, Members(selected), topN, most)
    ensures Dominates(sorted, Members(selected), topN, most)
  {
    selected := [];
    var counts: map<string, nat> := map[];
    var i := 0;
    PassStarts(sorted, topN, most);
    while i < |sorted| && |selected| < topN
      invariant i <= |sorted| && Passed(sorted, selected, i, counts, topN, most)
    {
      var industry := IndustryOf(sorted[i]);
      if industry == UNCLASSIFIED {
        PassTakes(sorted, selected, i, counts, topN, most);
        selected := selected + [i];
      } else {
        var count := if industry in counts then counts[industry] else 0;
        if count < most {
          PassTakes(sorted, selected, i, counts, topN, most);
          selected := selected + [i];
          counts := counts[industry := count + 1];
        } else {
          PassLeaves(sorted, selected, i, counts, topN, most);
        }
      }
      i := i + 1;
    }
    StopWithReason(sorted, Members(selected), i, counts, topN, most);
  }
}
