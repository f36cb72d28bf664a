/**
 * The generic table-driven state machine that both the button and the
 * ultrasound machines are built on. A table is an ordered sequence of rows
 * (origin, guard, destination, optional action) closed by a sentinel row.
 * One firing scans the table from the top; the first row whose origin is the
 * current state and whose guard holds is taken: its action runs and the
 * state becomes the row's destination. If no such row exists the machine
 * stays where it is.
 *
 * Guards are given by a verdict function that maps each guard to
 * Some(true), Some(false), or None when evaluating the guard reads through
 * a NULL record (undefined behaviour in C); the scan stops at such a guard.
 */
module Fsm {
  import opened Wrappers

  datatype Row<S, G, A> =
    | Trans(origin: S, guard: G, dest: S, action: Option<A>)
    | End

  /** What one scan of the table decides. */
  datatype Step = Fired(row: nat) | Stayed | Undefined(row: nat)

  /** Every row but the last is a transition and the last is the sentinel. */
  predicate WellFormed<S, G, A>(table: seq<Row<S, G, A>>)
  {
    |table| >= 2 &&
    table[|table| - 1].End? &&
    forall i :: 0 <= i < |table| - 1 ==> table[i].Trans?
  }

  /** The state a machine starts in: the origin of the first row. */
  function Initial<S, G, A>(table: seq<Row<S, G, A>>): S
    requires WellFormed(table)
  {
    table[0].origin
  }

  /** Rows lo..hi-1 are transitions, and each of them that leaves `state` has a false guard. */
  ghost predicate Passed<S, G, A>(table: seq<Row<S, G, A>>, state: S, verdict: G -> Option<bool>, lo: nat, hi: nat)
    requires hi <= |table|
  {
    forall j :: lo <= j < hi ==>
      table[j].Trans? && (table[j].origin == state ==> verdict(table[j].guard) == Some(false))
  }

  /** The decision of a scan that starts at row i. */
  function SelectFrom<S(==), G, A>(table: seq<Row<S, G, A>>, state: S, verdict: G -> Option<bool>, i: nat): (r: Step)
    requires WellFormed(table) && i < |table|
    ensures r.Fired? ==>
      i <= r.row < |table| - 1 && table[r.row].origin == state &&
      verdict(table[r.row].guard) == Some(true) && Passed(table, state, verdict, i, r.row)
    ensures r.Undefined? ==>
      i <= r.row < |table| - 1 && table[r.row].origin == state &&
      verdict(table[r.row].guard) == None && Passed(table, state, verdict, i, r.row)
    ensures r.Stayed? ==> Passed(table, state, verdict, i, |table| - 1)
    decreases |table| - i
  {
    if table[i].End? then Stayed
    else if table[i].origin != state then SelectFrom(table, state, verdict, i + 1)
    else match verdict(table[i].guard)
      case Some(true) => Fired(i)
      case Some(false) => SelectFrom(table, state, verdict, i + 1)
      case None => Undefined(i)
  }

  /** The decision of one firing. */
  function Select<S(==), G, A>(table: seq<Row<S, G, A>>, state: S, verdict: G -> Option<bool>): Step
    requires WellFormed(table)
  {
    SelectFrom(table, state, verdict, 0)
  }

  /** A row whose origin is the state and whose guard holds, after only false guards, is the one taken. */
  lemma {:induction false} FirstTrueGuardFires<S, G, A>(table: seq<Row<S, G, A>>, state: S, verdict: G -> Option<bool>, i: nat, k: nat)
    requires WellFormed(table) && i <= k < |table| - 1
    requires Passed(table, state, verdict, i, k)
    requires table[k].origin == state && verdict(table[k].guard) == Some(true)
    ensures SelectFrom(table, state, verdict, i) == Fired(k)
    decreases k - i
  {
    if i < k {
      FirstTrueGuardFires(table, state, verdict, i + 1, k);
    }
  }

  /** If every row leaving the state has a false guard, the machine stays (the converse of SelectFrom's last ensures). */
  lemma {:induction false} NoTrueGuardStays<S, G, A>(table: seq<Row<S, G, A>>, state: S, verdict: G -> Option<bool>, i: nat)
    requires WellFormed(table) && i < |table|
    requires Passed(table, state, verdict, i, |table| - 1)
    ensures SelectFrom(table, state, verdict, i) == Stayed
    decreases |table| - i
  {
    if i < |table| - 1 {
      NoTrueGuardStays(table, state, verdict, i + 1);
    }
  }

  /** fsm_fire's scan: walk the rows in order up to the sentinel. */
  method Scan<S(==), G, A>(table: seq<Row<S, G, A>>, state: S, verdict: G -> Option<bool>) returns (step: Step)
    requires WellFormed(table)
    ensures step == Select(table, state, verdict)
  {
    var i := 0;
    while table[i].Trans?
      invariant 0 <= i < |table|
      invariant SelectFrom(table, state, verdict, i) == Select(table, state, verdict)
      decreases |table| - i
    {
      if table[i].origin == state {
        var v := verdict(table[i].guard);
        if v == Some(true) {
          return Fired(i);
        } else if v.None? {
          return Undefined(i);
        }
      }
      i := i + 1;
    }
    return Stayed;
  }
}
