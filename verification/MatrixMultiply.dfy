/** The matrix multiplication client: the row-range task, the partition of the rows among the workers, and what any
    interleaving of the tasks' reads and writes of the shared output leaves in it. */
module MatrixMultiply {
  import opened Prelude

  type Matrix = seq<seq<int>>

  ghost predicate Square(m: Matrix, n: nat) {
    |m| == n && forall i :: 0 <= i < n ==> |m[i]| == n
  }

  /** The first k terms of entry (i, j) of the product. */
  function Dot(a: Matrix, b: Matrix, n: nat, i: nat, j: nat, k: nat): int
    requires Square(a, n) && Square(b, n) && i < n && j < n && k <= n
  {
    if k == 0 then 0 else Dot(a, b, n, i, j, k - 1) + a[i][k - 1] * b[k - 1][j]
  }

  // ----- it is the matrix product -----

  function Make(n: nat, entry: (nat, nat) -> int): (m: Matrix)
    ensures Square(m, n) && forall i, j :: 0 <= i < n && 0 <= j < n ==> m[i][j] == entry(i, j)
  {
    seq(n, i requires 0 <= i < n => seq(n, j requires 0 <= j < n => entry(i, j)))
  }

  /** The matrix with a one at (p, q) and zeroes elsewhere. */
  function Unit(n: nat, p: nat, q: nat): (m: Matrix)
    ensures Square(m, n) && forall i, j :: 0 <= i < n && 0 <= j < n ==> m[i][j] == if i == p && j == q then 1 else 0
  {
    Make(n, (i, j) => if i == p && j == q then 1 else 0)
  }

  function Identity(n: nat): (m: Matrix)
    ensures Square(m, n) && forall i, j :: 0 <= i < n && 0 <= j < n ==> m[i][j] == if i == j then 1 else 0
  {
    Make(n, (i, j) => if i == j then 1 else 0)
  }

  /** c is the matrix a + x * b. */
  ghost predicate Combines(c: Matrix, a: Matrix, x: int, b: Matrix, n: nat) {
    && Square(a, n) && Square(b, n) && Square(c, n)
    && forall i, j :: 0 <= i < n && 0 <= j < n ==> c[i][j] == a[i][j] + x * b[i][j]
  }

  lemma Distributes(a: int, x: int, b: int, y: int)
    ensures (a + x * b) * y == a * y + x * (b * y) && y * (a + x * b) == y * a + x * (y * b)
  {
  }

  /** Linear in the left factor. */
  lemma {:induction false} LinearLeft(c: Matrix, a: Matrix, x: int, a': Matrix, b: Matrix, n: nat, i: nat, j: nat,
                                      k: nat)
    requires Combines(c, a, x, a', n) && Square(b, n) && i < n && j < n && k <= n
    ensures Dot(c, b, n, i, j, k) == Dot(a, b, n, i, j, k) + x * Dot(a', b, n, i, j, k)
  {
    if k > 0 {
      LinearLeft(c, a, x, a', b, n, i, j, k - 1);
      Distributes(a[i][k - 1], x, a'[i][k - 1], b[k - 1][j]);
      Distributes(0, x, Dot(a', b, n, i, j, k - 1), 1);
      assert x * (Dot(a', b, n, i, j, k - 1) + a'[i][k - 1] * b[k - 1][j]) ==
             x * Dot(a', b, n, i, j, k - 1) + x * (a'[i][k - 1] * b[k - 1][j]);
    }
  }

  /** Linear in the right factor. */
  lemma {:induction false} LinearRight(a: Matrix, c: Matrix, b: Matrix, x: int, b': Matrix, n: nat, i: nat, j: nat,
                                       k: nat)
    requires Combines(c, b, x, b', n) && Square(a, n) && i < n && j < n && k <= n
    ensures Dot(a, c, n, i, j, k) == Dot(a, b, n, i, j, k) + x * Dot(a, b', n, i, j, k)
  {
    if k > 0 {
      LinearRight(a, c, b, x, b', n, i, j, k - 1);
      Distributes(b[k - 1][j], x, b'[k - 1][j], a[i][k - 1]);
      assert x * (Dot(a, b', n, i, j, k - 1) + a[i][k - 1] * b'[k - 1][j]) ==
             x * Dot(a, b', n, i, j, k - 1) + x * (a[i][k - 1] * b'[k - 1][j]);
    }
  }

  lemma {:induction false} UnitTerms(b: Matrix, n: nat, p: nat, q: nat, i: nat, j: nat, k: nat)
    requires Square(b, n) && i < n && j < n && k <= n && q < n
    ensures Dot(Unit(n, p, q), b, n, i, j, k) == if i == p && q < k then b[q][j] else 0
  {
    if k > 0 {
      UnitTerms(b, n, p, q, i, j, k - 1);
    }
  }

  /** A unit matrix on the left moves row q to row p. With LinearLeft this fixes the product for all matrices. */
  lemma UnitLeft(b: Matrix, n: nat, p: nat, q: nat, i: nat, j: nat)
    requires Square(b, n) && i < n && j < n && q < n
    ensures Dot(Unit(n, p, q), b, n, i, j, n) == if i == p then b[q][j] else 0
  {
    UnitTerms(b, n, p, q, i, j, n);
  }

  lemma {:induction false} IdentityTerms(a: Matrix, n: nat, i: nat, j: nat, k: nat)
    requires Square(a, n) && i < n && j < n && k <= n
    ensures Dot(Identity(n), a, n, i, j, k) == if i < k then a[i][j] else 0
    ensures Dot(a, Identity(n), n, i, j, k) == if j < k then a[i][j] else 0
  {
    if k > 0 {
      IdentityTerms(a, n, i, j, k - 1);
    }
  }

  /** The identity is neutral on either side. */
  lemma IdentityNeutral(a: Matrix, n: nat, i: nat, j: nat)
    requires Square(a, n) && i < n && j < n
    ensures Dot(Identity(n), a, n, i, j, n) == a[i][j] && Dot(a, Identity(n), n, i, j, n) == a[i][j]
  {
    IdentityTerms(a, n, i, j, n);
  }

  /** The example's own inputs, all ones, give the number of rows in every entry. */
  lemma {:induction false} OnesGiveRows(a: Matrix, n: nat, i: nat, j: nat, k: nat)
    requires Square(a, n) && (forall x, y :: 0 <= x < n && 0 <= y < n ==> a[x][y] == 1) && i < n && j < n && k <= n
    ensures Dot(a, a, n, i, j, k) == k
  {
    if k > 0 {
      OnesGiveRows(a, n, i, j, k - 1);
    }
  }

  // ----- the task -----

  /** do_matrix_multiply: adds the product to the rows from start to end and leaves the others alone. */
  method DoMatrixMultiply(a: Matrix, b: Matrix, n: nat, out: array2<int>, start: nat, end: nat)
    requires Square(a, n) && Square(b, n) && out.Length0 == n && out.Length1 == n && end <= n
    modifies out
    ensures forall x, y :: 0 <= x < n && 0 <= y < n ==>
                             out[x, y] == old(out[x, y]) + if start <= x < end then Dot(a, b, n, x, y, n) else 0
  {
    var i := start;
    while i < end
      invariant start <= i && (i == start || i <= end)
      invariant forall x, y :: 0 <= x < n && 0 <= y < n ==>
                                 out[x, y] == old(out[x, y]) + if start <= x < i then Dot(a, b, n, x, y, n) else 0
    {
      MultiplyRow(a, b, n, out, i);
      i := i + 1;
    }
  }

  method MultiplyRow(a: Matrix, b: Matrix, n: nat, out: array2<int>, i: nat)
    requires Square(a, n) && Square(b, n) && out.Length0 == n && out.Length1 == n && i < n
    modifies out
    ensures forall x, y :: 0 <= x < n && 0 <= y < n ==>
                             out[x, y] == old(out[x, y]) + if x == i then Dot(a, b, n, x, y, n) else 0
  {
    for j := 0 to n
      invariant forall x, y :: 0 <= x < n && 0 <= y < n ==>
                                 out[x, y] == old(out[x, y]) + if x == i && y < j then Dot(a, b, n, x, y, n) else 0
    {
      for k := 0 to n
        invariant forall x, y :: 0 <= x < n && 0 <= y < n && !(x == i && y == j) ==>
                                   out[x, y] == old(out[x, y]) + if x == i && y < j then Dot(a, b, n, x, y, n) else 0
        invariant out[i, j] == old(out[i, j]) + Dot(a, b, n, i, j, k)
      {
        out[i, j] := out[i, j] + a[i][k] * b[k][j];
      }
    }
  }

  // ----- the partition -----

  datatype Range = Range(start: nat, end: nat)

  /** The row range of task t out of count. */
  function RangeOf(n: nat, count: nat, t: nat): Range
    requires count > 0
  {
    var rows := n / count;
    Range(t * rows, t * rows + rows)
  }

  /** The loop that fills in the arguments of the tasks. */
  method FillRanges(n: nat, count: nat) returns (args: seq<Range>)
    requires count > 0
    ensures |args| == count && forall t :: 0 <= t < count ==> args[t] == RangeOf(n, count, t)
    ensures forall t :: 0 <= t < count ==> args[t].start == t * (n / count) && args[t].end == args[t].start + n / count
  {
    var rows := n / count;
    args := [];
    for t := 0 to count
      invariant |args| == t && forall u :: 0 <= u < t ==> args[u] == RangeOf(n, count, u)
    {
      var start := t * rows;
      args := args + [Range(start, start + rows)];
    }
  }

  predicate Owns(n: nat, count: nat, t: nat, x: nat)
    requires count > 0
  {
    t < count && RangeOf(n, count, t).start <= x < RangeOf(n, count, t).end
  }

  lemma MulMonotone(a: nat, b: nat, c: nat)
    requires a <= b
    ensures a * c <= b * c
  {
  }

  /** No row is in two ranges and no range leaves the matrix, whatever the sizes. */
  lemma RangesDisjoint(n: nat, count: nat, t: nat, u: nat, x: nat)
    requires count > 0 && Owns(n, count, t, x)
    ensures x < n
    ensures Owns(n, count, u, x) ==> t == u
  {
    var rows := n / count;
    RangeBelow(n, count, t);
    assert count * rows <= n;
    assert (t + 1) * rows == t * rows + rows;
    if t < u {
      MulMonotone(t + 1, u, rows);
    } else if u < t {
      MulMonotone(u + 1, t, rows);
      assert (u + 1) * rows == u * rows + rows;
    }
  }

  ghost predicate Owned(n: nat, count: nat, x: nat)
    requires count > 0
  {
    exists t :: Owns(n, count, t, x)
  }

  ghost predicate Tiles(n: nat, count: nat)
    requires count > 0
  {
    forall x: nat :: x < n ==> Owned(n, count, x)
  }

  lemma OwnerOf(n: nat, count: nat, x: nat) returns (t: nat)
    requires count > 0 && n % count == 0 && x < n
    ensures Owns(n, count, t, x)
  {
    var rows := n / count;
    assert n == count * rows;
    t := x / rows;
    assert t * rows <= x < t * rows + rows;
    if t >= count {
      MulMonotone(count, t, rows);
    }
  }

  lemma RangeBelow(n: nat, count: nat, t: nat)
    requires count > 0 && t < count
    ensures RangeOf(n, count, t).end <= count * (n / count)
  {
    var rows := n / count;
    MulMonotone(t + 1, count, rows);
    assert (t + 1) * rows == t * rows + rows;
  }

  /** The ranges cover all rows if and only if the number of rows is a multiple of the number of tasks. */
  lemma TilesExactly(n: nat, count: nat)
    requires count > 0
    ensures Tiles(n, count) <==> n % count == 0
  {
    if n % count == 0 {
      forall x: nat | x < n ensures Owned(n, count, x) { var t := OwnerOf(n, count, x); }
    } else {
      LastRowLeftOut(n, count);
    }
  }

  lemma LastRowLeftOut(n: nat, count: nat)
    requires count > 0 && n % count != 0
    ensures n > 0 && !Owned(n, count, n - 1)
  {
    assert count * (n / count) < n;
    var last := n - 1;
    forall t: nat ensures !Owns(n, count, t, last) {
      if t < count {
        RangeBelow(n, count, t);
      }
    }
  }

  // ----- any interleaving -----

  /** A task is at term k of entry (i, j), having read the entry or not; it is done when i reaches its range's end. */
  datatype Cursor = Cursor(i: nat, j: nat, k: nat, read: Option<int>)

  datatype State = State(out: map<(nat, nat), int>, cursor: seq<Cursor>)

  /** What one multiplication is about. */
  datatype Problem = Problem(a: Matrix, b: Matrix, n: nat, count: nat) {
    ghost predicate Valid() { Square(a, n) && Square(b, n) && count > 0 }
  }

  ghost predicate Init(p: Problem, s: State)
    requires p.Valid()
  {
    && |s.cursor| == p.count
    && (forall t :: 0 <= t < p.count ==> s.cursor[t] == Cursor(RangeOf(p.n, p.count, t).start, 0, 0, None))
    && (forall x: nat, y: nat :: (x, y) in s.out <==> x < p.n && y < p.n)
    && (forall x: nat, y: nat :: (x, y) in s.out ==> s.out[(x, y)] == 0)
  }

  predicate Done(p: Problem, s: State, t: nat)
    requires p.count > 0 && t < |s.cursor|
  {
    s.cursor[t].i >= RangeOf(p.n, p.count, t).end
  }

  ghost predicate Enabled(p: Problem, s: State, t: nat)
    requires p.Valid()
  {
    && t < p.count && t < |s.cursor| && !Done(p, s, t)
    && (s.cursor[t].j < p.n && s.cursor[t].k < p.n ==> (s.cursor[t].i, s.cursor[t].j) in s.out && s.cursor[t].i < p.n)
  }

  /** One loop test, one read of an output entry, or one write of it. */
  ghost function Step(p: Problem, s: State, t: nat): State
    requires p.Valid() && Enabled(p, s, t)
  {
    var Cursor(i, j, k, read) := s.cursor[t];
    if j >= p.n then s.(cursor := s.cursor[t := Cursor(i + 1, 0, 0, None)])
    else if k >= p.n then s.(cursor := s.cursor[t := Cursor(i, j + 1, 0, None)])
    else if read.None? then s.(cursor := s.cursor[t := Cursor(i, j, k, Some(s.out[(i, j)]))])
    else State(s.out[(i, j) := read.value + p.a[i][k] * p.b[k][j]], s.cursor[t := Cursor(i, j, k + 1, None)])
  }

  ghost predicate IsRun(p: Problem, run: seq<State>)
    requires p.Valid()
  {
    && |run| > 0
    && Init(p, run[0])
    && forall m :: 0 <= m < |run| - 1 ==> exists t :: Enabled(p, run[m], t) && run[m + 1] == Step(p, run[m], t)
  }

  /** How many terms of entry (x, y) a task at a cursor has added. */
  function Terms(n: nat, c: Cursor, x: nat, y: nat): (r: nat)
    ensures r <= n
  {
    if x < c.i || (x == c.i && y < c.j) then n
    else if x == c.i && y == c.j && c.k <= n then c.k
    else 0
  }

  /** Every cursor is within its task's range. */
  ghost predicate InRange(p: Problem, s: State)
    requires p.Valid()
  {
    && |s.cursor| == p.count
    && (forall x: nat, y: nat :: (x, y) in s.out <==> x < p.n && y < p.n)
    && (forall t :: 0 <= t < p.count ==>
                      && RangeOf(p.n, p.count, t).start <= s.cursor[t].i <= RangeOf(p.n, p.count, t).end
                      && s.cursor[t].j <= p.n && s.cursor[t].k <= p.n)
  }

  /** An entry holds the terms that the task whose row it is in has added. */
  ghost predicate Cells(p: Problem, s: State)
    requires p.Valid() && InRange(p, s)
  {
    forall t, x: nat, y: nat :: 0 <= t < p.count && Owns(p.n, p.count, t, x) && (x, y) in s.out ==>
                                  s.out[(x, y)] == Dot(p.a, p.b, p.n, x, y, Terms(p.n, s.cursor[t], x, y))
  }

  /** An entry that was read has not changed since. */
  ghost predicate Reads(p: Problem, s: State)
    requires p.Valid() && InRange(p, s)
  {
    forall t :: 0 <= t < p.count && s.cursor[t].read.Some? ==>
                  && s.cursor[t].j < p.n && s.cursor[t].k < p.n && Owns(p.n, p.count, t, s.cursor[t].i)
                  && (s.cursor[t].i, s.cursor[t].j) in s.out
                  && s.cursor[t].read.value == s.out[(s.cursor[t].i, s.cursor[t].j)]
  }

  ghost predicate Inv(p: Problem, s: State)
    requires p.Valid()
  {
    InRange(p, s) && Cells(p, s) && Reads(p, s)
  }

  lemma InitInv(p: Problem, s: State)
    requires p.Valid() && Init(p, s)
    ensures Inv(p, s)
  {
  }

  /** Another task's rows are out of reach of the one that moves. */
  lemma Apart(p: Problem, s: State, t: nat)
    requires p.Valid() && InRange(p, s) && Enabled(p, s, t)
    ensures Owns(p.n, p.count, t, s.cursor[t].i) && s.cursor[t].i < p.n
    ensures forall u :: 0 <= u < p.count && u != t ==> !Owns(p.n, p.count, u, s.cursor[t].i)
  {
    RangesDisjoint(p.n, p.count, t, t, s.cursor[t].i);
    forall u | 0 <= u < p.count && u != t ensures !Owns(p.n, p.count, u, s.cursor[t].i) {
      RangesDisjoint(p.n, p.count, t, u, s.cursor[t].i);
    }
  }

  /** A loop test or a read: the output stays, and so does what the task has added to each entry. */
  lemma MoveInv(p: Problem, s: State, t: nat, c: Cursor)
    requires p.Valid() && Inv(p, s) && t < p.count
    requires s.cursor[t].i <= c.i <= RangeOf(p.n, p.count, t).end && c.j <= p.n && c.k <= p.n
    requires forall x: nat, y: nat :: x < p.n && y < p.n ==> Terms(p.n, c, x, y) == Terms(p.n, s.cursor[t], x, y)
    requires c.read.Some? ==> c.j < p.n && c.k < p.n && Owns(p.n, p.count, t, c.i)
    requires c.read.Some? ==> (c.i, c.j) in s.out && c.read.value == s.out[(c.i, c.j)]
    ensures Inv(p, s.(cursor := s.cursor[t := c]))
  {
  }

  predicate AtWrite(p: Problem, s: State, t: nat) {
    t < |s.cursor| && s.cursor[t].j < p.n && s.cursor[t].k < p.n && s.cursor[t].read.Some?
  }

  lemma WriteInRange(p: Problem, s: State, t: nat)
    requires p.Valid() && InRange(p, s) && Enabled(p, s, t) && AtWrite(p, s, t)
    ensures InRange(p, Step(p, s, t))
  {
  }

  lemma WriteCells(p: Problem, s: State, t: nat)
    requires p.Valid() && Inv(p, s) && Enabled(p, s, t) && AtWrite(p, s, t) && InRange(p, Step(p, s, t))
    ensures Cells(p, Step(p, s, t))
  {
    Apart(p, s, t);
    var Cursor(i, j, k, read) := s.cursor[t];
    var s' := Step(p, s, t);
    forall u, x: nat, y: nat | 0 <= u < p.count && Owns(p.n, p.count, u, x) && (x, y) in s'.out
      ensures s'.out[(x, y)] == Dot(p.a, p.b, p.n, x, y, Terms(p.n, s'.cursor[u], x, y))
    {
      assert (x, y) in s.out && s.out[(x, y)] == Dot(p.a, p.b, p.n, x, y, Terms(p.n, s.cursor[u], x, y));
      if (x, y) != (i, j) {
        assert Terms(p.n, s'.cursor[u], x, y) == Terms(p.n, s.cursor[u], x, y);
      }
    }
  }

  lemma WriteReads(p: Problem, s: State, t: nat)
    requires p.Valid() && InRange(p, s) && Reads(p, s) && Enabled(p, s, t) && AtWrite(p, s, t)
             && InRange(p, Step(p, s, t))
    ensures Reads(p, Step(p, s, t))
  {
    Apart(p, s, t);
  }

  lemma StepInv(p: Problem, s: State, t: nat)
    requires p.Valid() && Inv(p, s) && Enabled(p, s, t)
    ensures Inv(p, Step(p, s, t))
  {
    var Cursor(i, j, k, read) := s.cursor[t];
    Apart(p, s, t);
    if AtWrite(p, s, t) {
      WriteInRange(p, s, t);
      WriteCells(p, s, t);
      WriteReads(p, s, t);
    } else {
      MoveInv(p, s, t, Step(p, s, t).cursor[t]);
    }
  }

  /** A task that is not done can always go on: it never reads or writes outside the matrices. */
  lemma StaysInside(p: Problem, run: seq<State>, m: nat, t: nat)
    requires p.Valid() && IsRun(p, run) && m < |run| && t < p.count
    ensures t < |run[m].cursor| && (!Done(p, run[m], t) ==> Enabled(p, run[m], t))
  {
    RunInv(p, run, m);
    if !Done(p, run[m], t) {
      RangesDisjoint(p.n, p.count, t, t, run[m].cursor[t].i);
    }
  }

  lemma {:induction false} RunInv(p: Problem, run: seq<State>, m: nat)
    requires p.Valid() && IsRun(p, run) && m < |run|
    ensures Inv(p, run[m])
  {
    if m == 0 {
      InitInv(p, run[0]);
    } else {
      RunInv(p, run, m - 1);
      var t :| Enabled(p, run[m - 1], t) && run[m - 1 + 1] == Step(p, run[m - 1], t);
      StepInv(p, run[m - 1], t);
    }
  }

  // ----- every schedule ends -----

  function Times(m: nat, x: nat): nat { m * x }

  /** Steps left in the row of a cursor, when each entry costs two steps a term and one to go on. */
  function RowLeft(n: nat, c: Cursor): nat {
    if c.j >= n then 1
    else 1 + Times(n - c.j - 1, 2 * n + 1) + (if c.k < n then 2 * (n - c.k) + (if c.read.Some? then 0 else 1) else 1)
  }

  function RowCost(n: nat): nat { 1 + Times(n, 2 * n + 1) }

  function TaskLeft(n: nat, end: nat, c: Cursor): nat {
    if c.i >= end then 0 else Times(end - c.i - 1, RowCost(n)) + RowLeft(n, c)
  }

  lemma OneLess(m: nat, x: nat)
    requires m > 0
    ensures Times(m, x) == Times(m - 1, x) + x
  {
  }

  lemma NewRow(n: nat, i: nat)
    ensures RowLeft(n, Cursor(i, 0, 0, None)) == RowCost(n)
  {
    if n > 0 {
      OneLess(n, 2 * n + 1);
    }
  }

  lemma CursorLess(n: nat, end: nat, c: Cursor, c': Cursor)
    requires c.i < end && c.j <= n && c.k <= n && (c.read.Some? ==> c.j < n && c.k < n)
    requires c' == if c.j >= n then Cursor(c.i + 1, 0, 0, None)
                   else if c.k >= n then Cursor(c.i, c.j + 1, 0, None)
                   else if c.read.None? then Cursor(c.i, c.j, c.k, c'.read) else Cursor(c.i, c.j, c.k + 1, None)
    requires c.j < n && c.k < n && c.read.None? ==> c'.read.Some?
    ensures TaskLeft(n, end, c') < TaskLeft(n, end, c)
  {
    hide RowCost;
    assert forall x: nat :: Times(0, x) == 0;
    if c.j >= n {
      NewRow(n, c.i + 1);
      if c.i + 1 < end { OneLess(end - c.i - 1, RowCost(n)); }
    } else if c.k >= n && c.j + 1 < n {
      OneLess(n - c.j - 1, 2 * n + 1);
    }
  }

  function TasksLeft(p: Problem, cursor: seq<Cursor>, t: nat): nat
    requires p.count > 0 && t <= |cursor|
    decreases |cursor| - t
  {
    if t == |cursor| then 0 else TaskLeft(p.n, RangeOf(p.n, p.count, t).end, cursor[t]) + TasksLeft(p, cursor, t + 1)
  }

  lemma {:induction false} TasksLeftUpdate(p: Problem, cursor: seq<Cursor>, u: nat, t: nat, c: Cursor)
    requires p.count > 0 && u <= |cursor| && t < |cursor|
    ensures var end := RangeOf(p.n, p.count, t).end;
            TasksLeft(p, cursor[t := c], u) == TasksLeft(p, cursor, u) +
            if u <= t then TaskLeft(p.n, end, c) - TaskLeft(p.n, end, cursor[t]) else 0
    decreases |cursor| - u
  {
    hide TaskLeft, RangeOf;
    if u < |cursor| {
      TasksLeftUpdate(p, cursor, u + 1, t, c);
    }
  }

  /** Every step of a task uses up what it has left, so with StaysInside every schedule ends, with all tasks done. */
  lemma StepsDecrease(p: Problem, run: seq<State>, m: nat, t: nat)
    requires p.Valid() && IsRun(p, run) && m < |run| && Enabled(p, run[m], t)
    ensures TasksLeft(p, Step(p, run[m], t).cursor, 0) < TasksLeft(p, run[m].cursor, 0)
  {
    RunInv(p, run, m);
    var c := run[m].cursor[t];
    var c' := Step(p, run[m], t).cursor[t];
    assert c.j <= p.n && c.k <= p.n && (c.read.Some? ==> c.j < p.n && c.k < p.n);
    hide Inv, IsRun, TaskLeft;
    CursorLess(p.n, RangeOf(p.n, p.count, t).end, c, c');
    TasksLeftUpdate(p, run[m].cursor, 0, t, c');
  }

  /** Any interleaving computes the product: once every task is done, each row in some range holds exactly the rows of
      the product, which is what a single call over all the rows adds to a zeroed output. */
  lemma ParallelIsSequential(p: Problem, run: seq<State>, m: nat, x: nat, y: nat)
    requires p.Valid() && IsRun(p, run) && m < |run| && x < p.n && y < p.n
    requires forall t :: 0 <= t < p.count ==> t < |run[m].cursor| && Done(p, run[m], t)
    requires p.n % p.count == 0
    ensures (x, y) in run[m].out && run[m].out[(x, y)] == Dot(p.a, p.b, p.n, x, y, p.n)
  {
    RunInv(p, run, m);
    var t := OwnerOf(p.n, p.count, x);
    assert Done(p, run[m], t);
    assert Terms(p.n, run[m].cursor[t], x, y) == p.n;
  }
}
