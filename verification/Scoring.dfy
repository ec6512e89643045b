/** The three-way rank score of the candidates. The loops rank a sorted copy of a column with a
    tolerance for ties that can chain; the specification counts, without any sorting, the
    cells that are better by a clear gap. */
module Scoring {
  import Sorting
  import opened Sets
  import opened Wrappers

  const TOLERANCE: real := 0.000000000001

  /** A column to be ranked: the smaller the better, None for a cell that takes no rank. */
  type Keys = seq<Option<real>>

  // ---- the specification ----

  ghost predicate Ranked(keys: Keys, i: int) {
    0 <= i < |keys| && keys[i].Some?
  }

  /** From a to b the column jumps by more than the tolerance with no value in between. */
  ghost predicate JumpBetween(keys: Keys, y: real, a: int, b: int, x: real) {
    && Ranked(keys, a) && Ranked(keys, b)
    && y <= keys[a].value && keys[a].value + TOLERANCE < keys[b].value && keys[b].value <= x
    && forall c | Ranked(keys, c) :: keys[c].value <= keys[a].value || keys[b].value <= keys[c].value
  }

  ghost predicate ClearlyBelow(keys: Keys, y: real, x: real) {
    exists a, b :: JumpBetween(keys, y, a, b, x)
  }

  /** The cells that beat the value x by a clear gap. */
  ghost function Better(keys: Keys, x: real): set<int> {
    set i | 0 <= i < |keys| && keys[i].Some? && ClearlyBelow(keys, keys[i].value, x)
  }

  /** The score of a cell: its rank, or the penalty if it takes none. */
  ghost function Score(keys: Keys, penalty: real, i: nat): real
    requires i < |keys|
  {
    if keys[i].None? then penalty else (1 + |Better(keys, keys[i].value)|) as real
  }

  // ---- sets of cells ----

  lemma {:induction false} Below(n: nat) returns (s: set<int>)
    ensures |s| == n && forall i :: i in s <==> 0 <= i < n
  {
    if n == 0 {
      s := {};
    } else {
      s := Below(n - 1);
      s := s + {n - 1};
    }
  }

  /** Renaming the members of a set one-to-one does not change its size. */
  lemma {:induction false} SameSize<T, U>(a: set<T>, b: set<U>, f: T -> U)
    requires forall i | i in a :: f(i) in b
    requires forall i, j | i in a && j in a && f(i) == f(j) :: i == j
    requires forall k | k in b :: exists i :: i in a && f(i) == k
    ensures |a| == |b|
    decreases |a|
  {
    if a == {} {
      assert b == {};
    } else {
      var x :| x in a;
      forall k | k in b - {f(x)}
        ensures exists i :: i in a - {x} && f(i) == k
      {
        var i :| i in a && f(i) == k;
        assert i in a - {x};
      }
      SameSize(a - {x}, b - {f(x)}, f);
    }
  }

  // ---- what the scores mean ----

  /** A cell that is no worse never scores worse: whatever clearly beats it beats the other too. */
  lemma {:induction false} ScoreIsMonotone(keys: Keys, i: nat, j: nat)
    requires Ranked(keys, i) && Ranked(keys, j) && keys[i].value <= keys[j].value
    ensures Score(keys, |keys| as real, i) <= Score(keys, |keys| as real, j)
  {
    var x, y := keys[i].value, keys[j].value;
    forall k | k in Better(keys, x)
      ensures k in Better(keys, y)
    {
      var a, b :| JumpBetween(keys, keys[k].value, a, b, x);
      assert JumpBetween(keys, keys[k].value, a, b, y);
    }
    Subset(Better(keys, x), Better(keys, y));
  }

  /** No cell scores worse than the penalty, and none better than 1. */
  lemma {:induction false} PenaltyIsWorst(keys: Keys, i: nat)
    requires i < |keys|
    ensures 1.0 <= Score(keys, |keys| as real, i) <= |keys| as real
  {
    if keys[i].Some? {
      var all := Below(|keys|);
      assert i !in Better(keys, keys[i].value);
      Subset(Better(keys, keys[i].value), all - {i});
    }
  }

  /** Any two ranked values are equal or further apart than the tolerance. */
  ghost predicate Separated(keys: Keys) {
    forall a, b | Ranked(keys, a) && Ranked(keys, b) && keys[a].value < keys[b].value ::
      keys[a].value + TOLERANCE < keys[b].value
  }

  /** The cell with the largest value below x, from a cell below x on. */
  lemma {:induction false} Predecessor(keys: Keys, y: int, x: real, above: set<int>) returns (a: int)
    requires Ranked(keys, y) && keys[y].value < x
    requires above == set c | 0 <= c < |keys| && keys[c].Some? && keys[y].value < keys[c].value < x
    ensures Ranked(keys, a) && keys[y].value <= keys[a].value < x
    ensures forall c | Ranked(keys, c) :: keys[c].value <= keys[a].value || x <= keys[c].value
    decreases |above|
  {
    if above == {} {
      a := y;
      forall c | Ranked(keys, c)
        ensures keys[c].value <= keys[a].value || x <= keys[c].value
      {
        assert c !in above;
      }
    } else {
      var c :| c in above;
      var fewer := set d | 0 <= d < |keys| && keys[d].Some? && keys[c].value < keys[d].value < x;
      Subset(fewer, above - {c});
      a := Predecessor(keys, c, x, fewer);
    }
  }

  /** Without near-ties the score is the competition rank: one more than the number of strictly
      better cells. */
  lemma {:induction false} SeparatedScore(keys: Keys, penalty: real, i: nat)
    requires Ranked(keys, i) && Separated(keys)
    ensures Score(keys, penalty, i)
            == (1 + |set j | 0 <= j < |keys| && keys[j].Some? && keys[j].value < keys[i].value|) as real
  {
    var x := keys[i].value;
    forall j | Ranked(keys, j)
      ensures ClearlyBelow(keys, keys[j].value, x) <==> keys[j].value < x
    {
      if keys[j].value < x {
        var a := Predecessor(keys, j, x,
                             set c | 0 <= c < |keys| && keys[c].Some? && keys[j].value < keys[c].value < x);
        assert JumpBetween(keys, keys[j].value, a, i, x);
      }
    }
    assert Better(keys, x) == set j | 0 <= j < |keys| && keys[j].Some? && keys[j].value < x;
  }

  /** Two cells no further apart than the tolerance have the same score. */
  lemma {:induction false} NearTiesScoreTheSame(keys: Keys, penalty: real, i: nat, j: nat)
    requires Ranked(keys, i) && Ranked(keys, j)
    requires keys[i].value <= keys[j].value <= keys[i].value + 0.000000000001
    ensures Score(keys, penalty, i) == Score(keys, penalty, j)
  {
    var x, y := keys[i].value, keys[j].value;
    forall k | 0 <= k < |keys|
      ensures k in Better(keys, x) <==> k in Better(keys, y)
    {
      if k in Better(keys, x) {
        var a, b :| JumpBetween(keys, keys[k].value, a, b, x);
        assert JumpBetween(keys, keys[k].value, a, b, y);
      }
      if k in Better(keys, y) {
        var a, b :| JumpBetween(keys, keys[k].value, a, b, y);
        assert JumpBetween(keys, keys[k].value, a, b, x);
      }
    }
    assert Better(keys, x) == Better(keys, y);
  }

  /** Row i of `moved` is row at(i) of `keys`, and the rows are rearranged one-to-one. */
  ghost predicate Rearranged(keys: Keys, moved: Keys, at: int -> int, back: int -> int) {
    && |moved| == |keys|
    && (forall k | 0 <= k < |keys| :: 0 <= at(k) < |keys| && moved[k] == keys[at(k)] && back(at(k)) == k)
    && (forall m | 0 <= m < |keys| :: 0 <= back(m) < |keys| && at(back(m)) == m)
  }

  lemma {:induction false} RearrangedBack(keys: Keys, moved: Keys, at: int -> int, back: int -> int)
    requires Rearranged(keys, moved, at, back)
    ensures Rearranged(moved, keys, back, at)
  {
    forall m | 0 <= m < |keys|
      ensures keys[m] == moved[back(m)]
    {
      assert 0 <= back(m) < |keys| && at(back(m)) == m;
    }
  }

  lemma {:induction false} JumpsMove(keys: Keys, moved: Keys, at: int -> int, back: int -> int, y: real, x: real)
    requires Rearranged(keys, moved, at, back)
    ensures ClearlyBelow(moved, y, x) ==> ClearlyBelow(keys, y, x)
  {
    if a, b :| JumpBetween(moved, y, a, b, x) {
      forall c | Ranked(keys, c)
        ensures keys[c].value <= keys[at(a)].value || keys[at(b)].value <= keys[c].value
      {
        assert at(back(c)) == c && Ranked(moved, back(c));
      }
      assert JumpBetween(keys, y, at(a), at(b), x);
    }
  }

  /** Rearranging the rows rearranges the scores with them. */
  lemma {:induction false} ScoresFollowTheirRows(keys: Keys, moved: Keys, at: int -> int, back: int -> int,
                                                 penalty: real, i: nat)
    requires Rearranged(keys, moved, at, back) && i < |keys|
    ensures Score(moved, penalty, i) == Score(keys, penalty, at(i))
  {
    RearrangedBack(keys, moved, at, back);
    if moved[i].Some? {
      var x := moved[i].value;
      forall y
        ensures ClearlyBelow(moved, y, x) <==> ClearlyBelow(keys, y, x)
      {
        JumpsMove(keys, moved, at, back, y, x);
        JumpsMove(moved, keys, back, at, y, x);
      }
      forall m | m in Better(keys, x)
        ensures exists k :: k in Better(moved, x) && at(k) == m
      {
        assert back(m) in Better(moved, x) && at(back(m)) == m;
      }
      SameSize(Better(moved, x), Better(keys, x), at);
    }
  }

  // ---- the ranking loop ----

  type Cell = (int, real)

  const BY_VALUE: Cell -> real := (c: Cell) => c.1

  /** The list holds ranked cells of the column with their values, none of them twice. */
  ghost predicate Holds(keys: Keys, cells: seq<Cell>) {
    && (forall k | 0 <= k < |cells| :: Ranked(keys, cells[k].0) && keys[cells[k].0].value == cells[k].1)
    && (forall k, l | 0 <= k < l < |cells| :: cells[k].0 != cells[l].0)
  }

  /** The list holds every ranked cell exactly once. */
  ghost predicate Lists(keys: Keys, cells: seq<Cell>) {
    Holds(keys, cells) && forall i | Ranked(keys, i) :: exists k :: 0 <= k < |cells| && cells[k].0 == i
  }

  lemma {:induction false} Once(cells: seq<Cell>, c: Cell)
    requires forall k, l | 0 <= k < l < |cells| :: cells[k].0 != cells[l].0
    ensures multiset(cells)[c] <= 1
  {
    if cells != [] {
      var n := |cells| - 1;
      assert cells == cells[..n] + [cells[n]];
      Once(cells[..n], c);
      if c in cells[..n] {
        assert c.0 != cells[n].0;
      }
    }
  }

  lemma {:induction false} Twice(cells: seq<Cell>, k: nat, l: nat)
    requires k < l < |cells| && cells[k] == cells[l]
    ensures multiset(cells)[cells[k]] >= 2
  {
    assert cells == cells[..l] + [cells[l]] + cells[l + 1..];
    assert cells[k] in cells[..l];
  }

  lemma {:induction false} SortingKeepsTheList(keys: Keys, cells: seq<Cell>, sorted: seq<Cell>)
    requires Lists(keys, cells) && multiset(sorted) == multiset(cells)
    ensures Lists(keys, sorted)
  {
    forall k | 0 <= k < |sorted|
      ensures Ranked(keys, sorted[k].0) && keys[sorted[k].0].value == sorted[k].1
    {
      assert sorted[k] in multiset(cells);
    }
    forall k, l | 0 <= k < l < |sorted|
      ensures sorted[k].0 != sorted[l].0
    {
      if sorted[k].0 == sorted[l].0 {
        Twice(sorted, k, l);
        Once(cells, sorted[k]);
      }
    }
    forall i | Ranked(keys, i)
      ensures exists k :: 0 <= k < |sorted| && sorted[k].0 == i
    {
      var k :| 0 <= k < |cells| && cells[k].0 == i;
      assert cells[k] in multiset(sorted);
    }
  }

  /** Where the run of chained ties that position p belongs to begins. */
  ghost function RunStart(sorted: seq<Cell>, p: nat): nat
    requires p < |sorted|
  {
    if p == 0 || sorted[p].1 - sorted[p - 1].1 > TOLERANCE then p else RunStart(sorted, p - 1)
  }

  lemma {:induction false} RunStartIsJump(sorted: seq<Cell>, p: nat)
    requires p < |sorted|
    ensures var c := RunStart(sorted, p);
            && c <= p && (c > 0 ==> sorted[c].1 - sorted[c - 1].1 > TOLERANCE)
            && forall k | c < k <= p :: sorted[k].1 - sorted[k - 1].1 <= TOLERANCE
  {
    if !(p == 0 || sorted[p].1 - sorted[p - 1].1 > TOLERANCE) {
      RunStartIsJump(sorted, p - 1);
    }
  }

  lemma {:induction false} CrossingPoint(sorted: seq<Cell>, lo: nat, hi: nat, a: real) returns (k: nat)
    requires lo < hi < |sorted| && sorted[lo].1 <= a < sorted[hi].1
    ensures lo <= k < hi && sorted[k].1 <= a < sorted[k + 1].1
    decreases hi - lo
  {
    if sorted[hi - 1].1 <= a {
      k := hi - 1;
    } else {
      k := CrossingPoint(sorted, lo, hi - 1, a);
    }
  }

  ghost predicate Sorted(sorted: seq<Cell>) {
    forall k, l | 0 <= k <= l < |sorted| :: sorted[k].1 <= sorted[l].1
  }

  /** The cells before the run of ties are clearly below every cell of the run... */
  lemma {:induction false} BeforeTheRun(keys: Keys, sorted: seq<Cell>, i: nat, p: nat)
    requires Lists(keys, sorted) && Sorted(sorted) && p < |sorted| && i < RunStart(sorted, p)
    ensures i < |sorted| && ClearlyBelow(keys, sorted[i].1, sorted[p].1)
  {
    var c := RunStart(sorted, p);
    RunStartIsJump(sorted, p);
    forall m | Ranked(keys, m)
      ensures keys[m].value <= sorted[c - 1].1 || sorted[c].1 <= keys[m].value
    {
      var k :| 0 <= k < |sorted| && sorted[k].0 == m;
    }
    assert JumpBetween(keys, sorted[i].1, sorted[c - 1].0, sorted[c].0, sorted[p].1);
  }

  /** ... and no other cell is. */
  lemma {:induction false} ClearlyBelowIsBeforeTheRun(keys: Keys, sorted: seq<Cell>, i: nat, p: nat)
    requires Lists(keys, sorted) && Sorted(sorted) && i < |sorted| && p < |sorted|
    requires ClearlyBelow(keys, sorted[i].1, sorted[p].1)
    ensures i < RunStart(sorted, p)
  {
    var a, b :| JumpBetween(keys, sorted[i].1, a, b, sorted[p].1);
    var k := CrossingPoint(sorted, i, p, keys[a].value);
    assert Ranked(keys, sorted[k + 1].0);
    assert sorted[k + 1].1 - sorted[k].1 > TOLERANCE;
    RunStartIsJump(sorted, p);
  }

  /** The cells listed before position c. */
  ghost function FirstCells(sorted: seq<Cell>, c: nat): set<int>
    requires c <= |sorted|
  {
    set k | 0 <= k < c :: sorted[k].0
  }

  lemma {:induction false} FirstCellsSize(sorted: seq<Cell>, c: nat)
    requires c <= |sorted| && forall k, l | 0 <= k < l < |sorted| :: sorted[k].0 != sorted[l].0
    ensures |FirstCells(sorted, c)| == c
  {
    if c > 0 {
      FirstCellsSize(sorted, c - 1);
      assert FirstCells(sorted, c) == FirstCells(sorted, c - 1) + {sorted[c - 1].0};
    }
  }

  lemma {:induction false} BetterIsBefore(keys: Keys, sorted: seq<Cell>, p: nat, k: nat)
    requires Lists(keys, sorted) && Sorted(sorted) && p < |sorted| && k < |sorted|
    ensures sorted[k].0 in Better(keys, sorted[p].1) <==> k < RunStart(sorted, p)
  {
    assert Ranked(keys, sorted[k].0) && keys[sorted[k].0].value == sorted[k].1;
    if k < RunStart(sorted, p) {
      BeforeTheRun(keys, sorted, k, p);
    } else if ClearlyBelow(keys, sorted[k].1, sorted[p].1) {
      ClearlyBelowIsBeforeTheRun(keys, sorted, k, p);
    }
  }

  lemma {:induction false} RunStartInRange(sorted: seq<Cell>, p: nat)
    requires p < |sorted|
    ensures RunStart(sorted, p) <= p
  {
    RunStartIsJump(sorted, p);
  }

  /** A cell's rank is one more than the position at which its run of ties begins. */
  lemma {:induction false} RunStartIsRank(keys: Keys, sorted: seq<Cell>, p: nat)
    requires Lists(keys, sorted) && Sorted(sorted) && p < |sorted|
    ensures |Better(keys, sorted[p].1)| == RunStart(sorted, p)
  {
    RunStartInRange(sorted, p);
    var c := RunStart(sorted, p);
    forall m
      ensures m in Better(keys, sorted[p].1) <==> m in FirstCells(sorted, c)
    {
      if Ranked(keys, m) {
        var k :| 0 <= k < |sorted| && sorted[k].0 == m;
        BetterIsBefore(keys, sorted, p, k);
      }
    }
    assert Better(keys, sorted[p].1) == FirstCells(sorted, c);
    FirstCellsSize(sorted, c);
  }

  lemma {:induction false} SortedCells(cells: seq<Cell>)
    requires Sorting.SortedBy(cells, BY_VALUE)
    ensures Sorted(cells)
  {
    forall k, l | 0 <= k < l < |cells|
      ensures cells[k].1 <= cells[l].1
    {
      assert BY_VALUE(cells[k]) <= BY_VALUE(cells[l]);
    }
  }

  ghost function RunRank(indexed: seq<Cell>, p: nat): real
    requires p < |indexed|
  {
    (1 + RunStart(indexed, p)) as real
  }

  /** Every listed cell before position n has the rank of its run, every unranked cell the penalty. */
  ghost predicate RunsScored(keys: Keys, indexed: seq<Cell>, penalty: real, n: nat, scores: seq<real>)
    requires Holds(keys, indexed) && n <= |indexed|
  {
    && |scores| == |keys|
    && (forall k {:trigger scores[indexed[k].0]} | 0 <= k < n :: scores[indexed[k].0] == RunRank(indexed, k))
    && (forall i | 0 <= i < |keys| && keys[i].None? :: scores[i] == penalty)
  }

  lemma {:induction false} NothingScored(keys: Keys, indexed: seq<Cell>, penalty: real, scores: seq<real>)
    requires Holds(keys, indexed) && |scores| == |keys| && forall i | 0 <= i < |keys| :: scores[i] == penalty
    ensures RunsScored(keys, indexed, penalty, 0, scores)
  {}

  lemma {:induction false} ScoreNext(keys: Keys, indexed: seq<Cell>, penalty: real, n: nat, scores: seq<real>)
    requires Holds(keys, indexed) && n < |indexed| && RunsScored(keys, indexed, penalty, n, scores)
    ensures RunsScored(keys, indexed, penalty, n + 1, scores[indexed[n].0 := RunRank(indexed, n)])
  {
    var scores' := scores[indexed[n].0 := RunRank(indexed, n)];
    forall k | 0 <= k < n
      ensures scores'[indexed[k].0] == RunRank(indexed, k)
    {
      assert indexed[k].0 != indexed[n].0;
    }
  }

  lemma {:induction false} RunsScoredIsScore(keys: Keys, indexed: seq<Cell>, penalty: real, scores: seq<real>)
    requires Lists(keys, indexed) && Sorted(indexed) && RunsScored(keys, indexed, penalty, |indexed|, scores)
    ensures forall i | 0 <= i < |keys| :: scores[i] == Score(keys, penalty, i)
  {
    forall i | 0 <= i < |keys|
      ensures scores[i] == Score(keys, penalty, i)
    {
      if keys[i].Some? {
        assert Ranked(keys, i);
        var k :| 0 <= k < |indexed| && indexed[k].0 == i;
        RunStartIsRank(keys, indexed, k);
      }
    }
  }

  method SortCells(keys: Keys, cells: seq<Cell>) returns (indexed: seq<Cell>)
    requires Lists(keys, cells)
    ensures Lists(keys, indexed) && Sorted(indexed) && multiset(indexed) == multiset(cells)
  {
    indexed := Sorting.Sort(cells, BY_VALUE);
    SortingKeepsTheList(keys, cells, indexed);
    SortedCells(indexed);
  }

  /** The state of the loop before position pos: the rank given last, the value it was given to,
      and the scores so far. */
  ghost predicate RankedSoFar(keys: Keys, indexed: seq<Cell>, penalty: real, pos: nat, rank: int, prevVal: Option<real>,
                              scores: seq<real>)
    requires Holds(keys, indexed) && pos <= |indexed|
  {
    && prevVal == (if pos == 0 then None else Some(indexed[pos - 1].1))
    && (pos > 0 ==> rank == 1 + RunStart(indexed, pos - 1))
    && RunsScored(keys, indexed, penalty, pos, scores)
  }

  predicate StartsRun(val: real, prevVal: Option<real>) {
    prevVal.None? || val - prevVal.value > TOLERANCE || prevVal.value - val > TOLERANCE
  }

  /** Where a cell's run of ties begins, from the run of the cell before it. */
  ghost predicate RunFollows(indexed: seq<Cell>, p: nat)
    requires p < |indexed|
  {
    RunStart(indexed, p)
    == if StartsRun(indexed[p].1, if p == 0 then None else Some(indexed[p - 1].1)) then p else RunStart(indexed, p - 1)
  }

  ghost predicate RunsFollow(indexed: seq<Cell>) {
    forall p | 0 <= p < |indexed| :: RunFollows(indexed, p)
  }

  lemma {:induction false} SortedRunsFollow(indexed: seq<Cell>)
    requires Sorted(indexed)
    ensures RunsFollow(indexed)
  {
    forall p | 0 <= p < |indexed|
      ensures RunFollows(indexed, p)
    {
      assert p > 0 ==> indexed[p - 1].1 <= indexed[p].1;
    }
  }

  lemma {:induction false} RankNext(keys: Keys, indexed: seq<Cell>, penalty: real, pos: nat, rank: int,
                                    prevVal: Option<real>, scores: seq<real>, rank': int)
    requires Holds(keys, indexed) && pos < |indexed| && RunFollows(indexed, pos)
    requires RankedSoFar(keys, indexed, penalty, pos, rank, prevVal, scores)
    requires rank' == if StartsRun(indexed[pos].1, prevVal) then pos + 1 else rank
    ensures RankedSoFar(keys, indexed, penalty, pos + 1, rank', Some(indexed[pos].1),
                        scores[indexed[pos].0 := rank' as real])
  {
    assert rank' as real == RunRank(indexed, pos);
    ScoreNext(keys, indexed, penalty, pos, scores);
  }

  /** The loop shared by `rank_ascending_with_penalty` and `rank_descending`, over the sorted cells:
      every run of ties gets the position of its first member. */
  method RankSorted(keys: Keys, indexed: seq<Cell>, penalty: real) returns (scores: seq<real>)
    requires Holds(keys, indexed) && RunsFollow(indexed)
    ensures RunsScored(keys, indexed, penalty, |indexed|, scores)
  {
    scores := seq(|keys|, _ => penalty);
    NothingScored(keys, indexed, penalty, scores);
    var rank := 1;
    var prevVal: Option<real> := None;
    for pos := 0 to |indexed|
      invariant RankedSoFar(keys, indexed, penalty, pos, rank, prevVal, scores)
    {
      var (idx, val) := indexed[pos];
      ghost var before := rank;
      if StartsRun(val, prevVal) {
        rank := pos + 1;
      }
      RankNext(keys, indexed, penalty, pos, before, prevVal, scores, rank);
      scores := scores[idx := rank as real];
      prevVal := Some(val);
    }
  }

  /** Sort the ranked cells and rank them: every cell gets its score. */
  method RankCells(keys: Keys, cells: seq<Cell>, penalty: real) returns (scores: seq<real>)
    requires Lists(keys, cells)
    ensures |scores| == |keys|
    ensures forall i | 0 <= i < |keys| :: scores[i] == Score(keys, penalty, i)
  {
    var indexed := SortCells(keys, cells);
    SortedRunsFollow(indexed);
    scores := RankSorted(keys, indexed, penalty);
    RunsScoredIsScore(keys, indexed, penalty, scores);
  }

  /** What `rank_ascending_with_penalty` ranks: the positive values, smallest best. */
  function AscendingKey(v: Option<real>): Option<real> {
    if v.Some? && v.value > 0.0 then v else None
  }

  /** What `rank_descending` ranks: every value, a missing one as 0, largest best. */
  function DescendingKey(v: Option<real>): Option<real> {
    Some(if v.Some? then -v.value else 0.0)
  }

  function KeysOf(col: seq<Option<real>>, key: Option<real> -> Option<real>): (keys: Keys)
    ensures |keys| == |col| && forall i | 0 <= i < |col| :: keys[i] == key(col[i])
  {
    seq(|col|, i requires 0 <= i < |col| => key(col[i]))
  }

  /** The (index, value) pairs of the cells that take a rank. */
  method CollectRanked(keys: Keys) returns (cells: seq<Cell>)
    ensures Lists(keys, cells)
  {
    cells := [];
    for i := 0 to |keys|
      invariant Holds(keys, cells)
      invariant forall k | 0 <= k < |cells| :: cells[k].0 < i
      invariant forall j | Ranked(keys, j) && j < i :: exists k :: 0 <= k < |cells| && cells[k].0 == j
    {
      if keys[i].Some? {
        ghost var before := cells;
        cells := cells + [(i, keys[i].value)];
        forall j | Ranked(keys, j) && j < i + 1
          ensures exists k :: 0 <= k < |cells| && cells[k].0 == j
        {
          if j < i {
            var k :| 0 <= k < |before| && before[k].0 == j;
            assert cells[k].0 == j;
          } else {
            assert cells[|before|].0 == j;
          }
        }
      }
    }
  }

  // ---- what the scores say about the values of a column ----

  ghost predicate FarApart(x: real, y: real) {
    x == y || x + 0.000000000001 < y || y + 0.000000000001 < x
  }

  /** A value that takes a rank among the smallest: present and positive. */
  predicate Positive(v: Option<real>) {
    v.Some? && v.value > 0.0
  }

  /** The rows with a positive value smaller than x. */
  ghost function Cheaper(col: seq<Option<real>>, x: real): set<int> {
    set j | 0 <= j < |col| && Positive(col[j]) && col[j].value < x
  }

  /** A missing value counts as nothing paid. */
  function Paid(v: Option<real>): real {
    match v
    case None => 0.0
    case Some(x) => x
  }

  /** The rows with a value larger than x. */
  ghost function Payers(col: seq<Option<real>>, x: real): set<int> {
    set j | 0 <= j < |col| && Paid(col[j]) > x
  }

  ghost predicate ValuesApart(col: seq<Option<real>>) {
    forall i, j | 0 <= i < |col| && 0 <= j < |col| && Positive(col[i]) && Positive(col[j]) ::
      FarApart(col[i].value, col[j].value)
  }

  ghost predicate PaidApart(col: seq<Option<real>>) {
    forall i, j | 0 <= i < |col| && 0 <= j < |col| :: FarApart(Paid(col[i]), Paid(col[j]))
  }

  ghost predicate SmallerFirst(col: seq<Option<real>>, scores: seq<real>)
    requires |scores| == |col|
  {
    forall i, j | 0 <= i < |col| && 0 <= j < |col| && Positive(col[i]) && Positive(col[j])
                  && col[i].value <= col[j].value :: scores[i] <= scores[j]
  }

  ghost predicate LargerFirst(col: seq<Option<real>>, scores: seq<real>)
    requires |scores| == |col|
  {
    forall i, j | 0 <= i < |col| && 0 <= j < |col| && Paid(col[i]) >= Paid(col[j]) :: scores[i] <= scores[j]
  }

  /** Smaller positive values score better, equal ones the same, and all other cells take the
      penalty. Without near-ties the score is one more than the number of smaller positive values. */
  ghost predicate SmallerIsBetter(col: seq<Option<real>>, penalty: real, scores: seq<real>) {
    && |scores| == |col|
    && (forall i | 0 <= i < |col| && !Positive(col[i]) :: scores[i] == penalty)
    && SmallerFirst(col, scores)
    && (ValuesApart(col) ==>
          forall i | 0 <= i < |col| && Positive(col[i]) :: scores[i] == (1 + |Cheaper(col, col[i].value)|) as real)
  }

  /** Larger values score better and equal ones the same, a missing value being 0. Without near-ties
      the score is one more than the number of larger values. */
  ghost predicate LargerIsBetter(col: seq<Option<real>>, scores: seq<real>) {
    && |scores| == |col|
    && LargerFirst(col, scores)
    && (PaidApart(col) ==>
          forall i | 0 <= i < |col| :: scores[i] == (1 + |Payers(col, Paid(col[i]))|) as real)
  }

  ghost predicate Scored(keys: Keys, penalty: real, scores: seq<real>) {
    |scores| == |keys| && forall i | 0 <= i < |keys| :: scores[i] == Score(keys, penalty, i)
  }

  lemma {:induction false} AscendingOrder(col: seq<Option<real>>, penalty: real, scores: seq<real>)
    requires Scored(KeysOf(col, AscendingKey), penalty, scores)
    ensures SmallerFirst(col, scores)
  {
    forall i, j | 0 <= i < |col| && 0 <= j < |col| && Positive(col[i]) && Positive(col[j])
                  && col[i].value <= col[j].value
      ensures scores[i] <= scores[j]
    {
      ScoreIsMonotone(KeysOf(col, AscendingKey), i, j);
    }
  }

  lemma {:induction false} AscendingRank(col: seq<Option<real>>, penalty: real, i: nat)
    requires ValuesApart(col) && i < |col| && Positive(col[i])
    ensures Score(KeysOf(col, AscendingKey), penalty, i) == (1 + |Cheaper(col, col[i].value)|) as real
  {
    var keys := KeysOf(col, AscendingKey);
    SeparatedScore(keys, penalty, i);
    assert Cheaper(col, col[i].value)
        == set j | 0 <= j < |keys| && keys[j].Some? && keys[j].value < keys[i].value;
  }

  lemma {:induction false} AscendingMeans(col: seq<Option<real>>, penalty: real, scores: seq<real>)
    requires Scored(KeysOf(col, AscendingKey), penalty, scores)
    ensures SmallerIsBetter(col, penalty, scores)
  {
    AscendingOrder(col, penalty, scores);
    if ValuesApart(col) {
      forall i | 0 <= i < |col| && Positive(col[i])
        ensures scores[i] == (1 + |Cheaper(col, col[i].value)|) as real
      {
        AscendingRank(col, penalty, i);
      }
    }
  }

  lemma {:induction false} DescendingOrder(col: seq<Option<real>>, penalty: real, scores: seq<real>)
    requires Scored(KeysOf(col, DescendingKey), penalty, scores)
    ensures LargerFirst(col, scores)
  {
    forall i, j | 0 <= i < |col| && 0 <= j < |col| && Paid(col[i]) >= Paid(col[j])
      ensures scores[i] <= scores[j]
    {
      ScoreIsMonotone(KeysOf(col, DescendingKey), i, j);
    }
  }

  lemma {:induction false} DescendingRank(col: seq<Option<real>>, penalty: real, i: nat)
    requires PaidApart(col) && i < |col|
    ensures Score(KeysOf(col, DescendingKey), penalty, i) == (1 + |Payers(col, Paid(col[i]))|) as real
  {
    var keys := KeysOf(col, DescendingKey);
    SeparatedScore(keys, penalty, i);
    assert Payers(col, Paid(col[i])) == set j | 0 <= j < |keys| && keys[j].Some? && keys[j].value < keys[i].value;
  }

  lemma {:induction false} DescendingMeans(col: seq<Option<real>>, penalty: real, scores: seq<real>)
    requires Scored(KeysOf(col, DescendingKey), penalty, scores)
    ensures LargerIsBetter(col, scores)
  {
    DescendingOrder(col, penalty, scores);
    if PaidApart(col) {
      forall i | 0 <= i < |col|
        ensures scores[i] == (1 + |Payers(col, Paid(col[i]))|) as real
      {
        DescendingRank(col, penalty, i);
      }
    }
  }

  method RankAscendingWithPenalty(col: seq<Option<real>>, penalty: real) returns (scores: seq<real>)
    ensures Scored(KeysOf(col, AscendingKey), penalty, scores)
    ensures SmallerIsBetter(col, penalty, scores)
  {
    var keys := KeysOf(col, AscendingKey);
    var cells := CollectRanked(keys);
    scores := RankCells(keys, cells, penalty);
    AscendingMeans(col, penalty, scores);
  }

  method RankDescending(col: seq<Option<real>>, penalty: real) returns (scores: seq<real>)
    ensures Scored(KeysOf(col, DescendingKey), penalty, scores)
    ensures LargerIsBetter(col, scores)
  {
    var keys := KeysOf(col, DescendingKey);
    var cells := CollectRanked(keys);
    scores := RankCells(keys, cells, penalty);
    DescendingMeans(col, penalty, scores);
  }

  // ---- the total score ----

  datatype Stock = Stock(pb: Option<real>, peTtm: Option<real>, dvRatio: Option<real>)

  /** The columns that scoring adds to the table. */
  datatype Scores = Scores(pb: seq<real>, pe: seq<real>, div: seq<real>, total: seq<real>)

  function PbOf(df: seq<Stock>): (col: seq<Option<real>>)
    ensures |col| == |df| && forall i | 0 <= i < |df| :: col[i] == df[i].pb
  {
    seq(|df|, i requires 0 <= i < |df| => df[i].pb)
  }

  function PeOf(df: seq<Stock>): (col: seq<Option<real>>)
    ensures |col| == |df| && forall i | 0 <= i < |df| :: col[i] == df[i].peTtm
  {
    seq(|df|, i requires 0 <= i < |df| => df[i].peTtm)
  }

  function DivOf(df: seq<Stock>): (col: seq<Option<real>>)
    ensures |col| == |df| && forall i | 0 <= i < |df| :: col[i] == df[i].dvRatio
  {
    seq(|df|, i requires 0 <= i < |df| => df[i].dvRatio)
  }

  ghost function TotalScore(df: seq<Stock>, i: nat): real
    requires i < |df|
  {
    var n := |df| as real;
    Score(KeysOf(PbOf(df), AscendingKey), n, i) + Score(KeysOf(PeOf(df), AscendingKey), n, i)
    + Score(KeysOf(DivOf(df), DescendingKey), n, i)
  }

  /** `score_candidates`: rank by PB, by PE and by dividend yield, and add the three up. */
  method ScoreCandidates(df: seq<Stock>) returns (scored: Scores)
    ensures SmallerIsBetter(PbOf(df), |df| as real, scored.pb) && SmallerIsBetter(PeOf(df), |df| as real, scored.pe)
    ensures LargerIsBetter(DivOf(df), scored.div) && |scored.total| == |df|
    ensures forall i | 0 <= i < |df| ::
              scored.total[i] == scored.pb[i] + scored.pe[i] + scored.div[i] == TotalScore(df, i)
  {
    var n := |df| as real;
    var pb := RankAscendingWithPenalty(PbOf(df), n);
    var pe := RankAscendingWithPenalty(PeOf(df), n);
    var dv := RankDescending(DivOf(df), n);
    scored := Scores(pb, pe, dv, seq(|df|, i requires 0 <= i < |df| => pb[i] + pe[i] + dv[i]));
  }

  /** The key of a is no worse: b takes no rank, or both do and a's value is not larger. */
  predicate NoWorse(a: Option<real>, b: Option<real>) {
    b.None? || (a.Some? && a.value <= b.value)
  }

  lemma {:induction false} NoWorseScores(keys: Keys, i: nat, j: nat)
    requires i < |keys| && j < |keys| && NoWorse(keys[i], keys[j])
    ensures Score(keys, |keys| as real, i) <= Score(keys, |keys| as real, j)
  {
    if keys[j].Some? {
      ScoreIsMonotone(keys, i, j);
    } else {
      PenaltyIsWorst(keys, i);
    }
  }

  /** A price multiple is no worse than another: the other is missing or not positive, or it is
      itself positive and not larger. */
  predicate NoDearer(a: Option<real>, b: Option<real>) {
    Positive(b) ==> Positive(a) && a.value <= b.value
  }

  /** Dominance: a stock that costs no more by PB and by PE and pays no less never has the larger
      total. */
  lemma {:induction false} DominanceIsRespected(df: seq<Stock>, i: nat, j: nat)
    requires i < |df| && j < |df|
    requires NoDearer(df[i].pb, df[j].pb) && NoDearer(df[i].peTtm, df[j].peTtm)
    requires Paid(df[i].dvRatio) >= Paid(df[j].dvRatio)
    ensures TotalScore(df, i) <= TotalScore(df, j)
  {
    NoWorseScores(KeysOf(PbOf(df), AscendingKey), i, j);
    NoWorseScores(KeysOf(PeOf(df), AscendingKey), i, j);
    NoWorseScores(KeysOf(DivOf(df), DescendingKey), i, j);
  }

  /** Shuffling the stocks shuffles their totals with them, near-ties and all. */
  lemma {:induction false} TotalsFollowTheirStocks(df: seq<Stock>, moved: seq<Stock>, at: int -> int,
                                                   back: int -> int, i: nat)
    requires |moved| == |df| && i < |df|
    requires forall k | 0 <= k < |df| :: 0 <= at(k) < |df| && moved[k] == df[at(k)] && back(at(k)) == k
    requires forall m | 0 <= m < |df| :: 0 <= back(m) < |df| && at(back(m)) == m
    ensures TotalScore(moved, i) == TotalScore(df, at(i))
  {
    var n := |df| as real;
    ScoresFollowTheirRows(KeysOf(PbOf(df), AscendingKey), KeysOf(PbOf(moved), AscendingKey), at, back, n, i);
    ScoresFollowTheirRows(KeysOf(PeOf(df), AscendingKey), KeysOf(PeOf(moved), AscendingKey), at, back, n, i);
    ScoresFollowTheirRows(KeysOf(DivOf(df), DescendingKey), KeysOf(DivOf(moved), DescendingKey), at, back, n, i);
  }
}
