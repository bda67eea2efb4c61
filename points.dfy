/**
 * The point ledger: an append-at-front list of point transactions. No action
 * edits or removes a single entry; only clearing empties it.
 */
module Points {
  import opened Wrappers
  import opened Types

  datatype TransactionType = Add | Subtract

  datatype PointTransaction = PointTransaction(
    id: string,
    workerId: string,
    workerName: string,
    adminId: string,
    adminName: string,
    amount: int,
    kind: TransactionType,
    timestamp: string,
    reason: string)

  /**
   * The argument of `addTransaction`. Its type omits `id` and `timestamp`, but
   * it is spread after the generated values, so a key it still carries wins;
   * the last two fields record such keys.
   */
  datatype TransactionInput = TransactionInput(
    workerId: string,
    workerName: string,
    adminId: string,
    adminName: string,
    amount: int,
    kind: TransactionType,
    reason: string,
    id: Option<string>,
    timestamp: Option<string>)

  predicate OmitsGenerated(input: TransactionInput) {
    input.id.None? && input.timestamp.None?
  }

  /** The record `addTransaction` prepends, given the generated id and the current time. */
  function NewTransaction(input: TransactionInput, freshId: string, now: string): (t: PointTransaction)
    ensures t.workerId == input.workerId && t.workerName == input.workerName
    ensures t.adminId == input.adminId && t.adminName == input.adminName
    ensures t.amount == input.amount && t.kind == input.kind && t.reason == input.reason
    ensures OmitsGenerated(input) ==> t.id == freshId && t.timestamp == now
    ensures input.id.Some? ==> t.id == input.id.value
    ensures input.timestamp.Some? ==> t.timestamp == input.timestamp.value
  {
    PointTransaction(
      input.id.GetOr(freshId),
      input.workerId,
      input.workerName,
      input.adminId,
      input.adminName,
      input.amount,
      input.kind,
      input.timestamp.GetOr(now),
      input.reason)
  }

  /** One action on the ledger, with the id and time the runtime supplies to an addition. */
  datatype LedgerAction =
    | AddTransaction(input: TransactionInput, freshId: string, now: string)
    | ClearTransactions

  /** The ledger after one action. */
  function Step(ts: seq<PointTransaction>, a: LedgerAction): seq<PointTransaction> {
    match a
    case AddTransaction(input, freshId, now) => [NewTransaction(input, freshId, now)] + ts
    case ClearTransactions => []
  }

  /** An addition puts one new entry in front of the unchanged ledger; clearing empties it. */
  lemma StepEffect(ts: seq<PointTransaction>, a: LedgerAction)
    ensures a.AddTransaction? ==> |Step(ts, a)| == |ts| + 1 && Step(ts, a)[1..] == ts
    ensures a.AddTransaction? ==> Step(ts, a)[0] == NewTransaction(a.input, a.freshId, a.now)
    ensures a.ClearTransactions? ==> Step(ts, a) == []
  {
  }

  /** The ledger after a sequence of actions, applied first to last. */
  function Run(ts: seq<PointTransaction>, actions: seq<LedgerAction>): seq<PointTransaction>
    decreases |actions|
  {
    if actions == [] then ts else Run(Step(ts, actions[0]), actions[1..])
  }

  predicate NoClear(actions: seq<LedgerAction>) {
    forall k :: 0 <= k < |actions| ==> actions[k].AddTransaction?
  }

  /** The entry the `k`-th action of `actions` adds. */
  function Added(actions: seq<LedgerAction>, k: nat): PointTransaction
    requires k < |actions| && actions[k].AddTransaction?
  {
    NewTransaction(actions[k].input, actions[k].freshId, actions[k].now)
  }

  /** Additions only: one more entry per call, and the old ledger is the tail. */
  lemma {:induction false} RunAdditionsKeepsOld(ts: seq<PointTransaction>, actions: seq<LedgerAction>)
    requires NoClear(actions)
    ensures |Run(ts, actions)| == |ts| + |actions|
    ensures Run(ts, actions)[|actions|..] == ts
    decreases |actions|
  {
    if actions != [] {
      var rest := actions[1..];
      var ts' := Step(ts, actions[0]);
      assert actions[0].AddTransaction?;
      assert NoClear(rest);
      RunAdditionsKeepsOld(ts', rest);
      var r := Run(ts, actions);
      assert r == Run(ts', rest);
      assert r[|actions|..] == r[|rest|..][1..];
    }
  }

  /** Additions only: position `i` holds what the `(n-1-i)`-th of the `n` calls added. */
  lemma {:induction false} RunAdditionsAt(ts: seq<PointTransaction>, actions: seq<LedgerAction>, i: nat)
    requires NoClear(actions) && i < |actions|
    ensures |Run(ts, actions)| == |ts| + |actions|
    ensures Run(ts, actions)[i] == Added(actions, |actions| - 1 - i)
    decreases |actions|
  {
    RunAdditionsKeepsOld(ts, actions);
    var rest := actions[1..];
    var ts' := Step(ts, actions[0]);
    assert actions[0].AddTransaction?;
    assert NoClear(rest);
    assert Run(ts, actions) == Run(ts', rest);
    if i < |rest| {
      RunAdditionsAt(ts', rest, i);
      assert rest[|rest| - 1 - i] == actions[|actions| - 1 - i];
    } else {
      RunAdditionsKeepsOld(ts', rest);
      assert Run(ts', rest)[|rest|..][0] == ts'[0];
    }
  }

  /**
   * Additions only: the ledger grows by one entry per call, the newest entry
   * first, and the entries that were there before stay, unchanged and in
   * order, at the end.
   */
  lemma RunAdditions(ts: seq<PointTransaction>, actions: seq<LedgerAction>)
    requires NoClear(actions)
    ensures |Run(ts, actions)| == |ts| + |actions|
    ensures Run(ts, actions)[|actions|..] == ts
    ensures forall i :: 0 <= i < |actions| ==> Run(ts, actions)[i] == Added(actions, |actions| - 1 - i)
  {
    RunAdditionsKeepsOld(ts, actions);
    forall i | 0 <= i < |actions| ensures Run(ts, actions)[i] == Added(actions, |actions| - 1 - i) {
      RunAdditionsAt(ts, actions, i);
    }
  }

  /**
   * From an empty ledger, `n` additions give `n` entries, most recent first:
   * position `i` holds what the `(n-1-i)`-th call added.
   */
  lemma AdditionsFromEmpty(actions: seq<LedgerAction>)
    requires NoClear(actions)
    ensures |Run([], actions)| == |actions|
    ensures forall i :: 0 <= i < |actions| ==> Run([], actions)[i] == Added(actions, |actions| - 1 - i)
  {
    RunAdditions([], actions);
  }

  /** Whatever came before, a run that ends by clearing leaves the ledger empty. */
  lemma {:induction false} RunEndingInClear(ts: seq<PointTransaction>, actions: seq<LedgerAction>)
    requires actions != [] && actions[|actions| - 1] == ClearTransactions
    ensures Run(ts, actions) == []
    decreases |actions|
  {
    if |actions| > 1 {
      RunEndingInClear(Step(ts, actions[0]), actions[1..]);
    }
  }

  /**
   * Fill every falsy (absent or empty) timestamp. The clock is read afresh
   * for each record that needs it: `clock(i)` is the reading taken for the
   * `i`-th record.
   */
  function BackfillTimestamps(ts: seq<PointTransaction>, clock: nat -> string): (r: seq<PointTransaction>)
    ensures |r| == |ts|
    ensures forall i :: 0 <= i < |ts| && Truthy(ts[i].timestamp) ==> r[i] == ts[i]
    ensures forall i :: 0 <= i < |ts| && !Truthy(ts[i].timestamp) ==> r[i] == ts[i].(timestamp := clock(i))
  {
    if ts == [] then []
    else
      var head := if Truthy(ts[0].timestamp) then ts[0] else ts[0].(timestamp := clock(0));
      [head] + BackfillTimestamps(ts[1..], (i: nat) => clock(i + 1))
  }

  /** The persisted form of the store: only its data key survives serialisation. */
  datatype Snapshot = Snapshot(transactions: seq<PointTransaction>)

  /** The `migrate` hook: version 0 backfills timestamps, any other version is kept. */
  function Migrate(state: Snapshot, version: int, clock: nat -> string): (r: Snapshot)
    ensures version != 0 ==> r == state
    ensures version == 0 ==> |r.transactions| == |state.transactions|
    ensures version == 0 ==> forall i :: 0 <= i < |state.transactions| ==>
      r.transactions[i] == state.transactions[i].(timestamp := OrElse(Some(state.transactions[i].timestamp), clock(i)))
  {
    if version == 0 then Snapshot(BackfillTimestamps(state.transactions, clock)) else state
  }

  /** After a version-0 migration with a real clock, every timestamp is filled in. */
  lemma MigrateFillsTimestamps(state: Snapshot, clock: nat -> string)
    requires RealClock(clock)
    ensures forall i :: 0 <= i < |Migrate(state, 0, clock).transactions| ==> Truthy(Migrate(state, 0, clock).transactions[i].timestamp)
  {
    var m := Migrate(state, 0, clock).transactions;
    forall i | 0 <= i < |m| ensures Truthy(m[i].timestamp) {
      OrElseSettles(Some(state.transactions[i].timestamp), clock(i), clock(i));
    }
  }

  /**
   * Running the version-0 step again, even with later readings, changes
   * nothing once the first run used a real clock.
   */
  lemma MigrateIdempotent(state: Snapshot, clock: nat -> string, later: nat -> string)
    requires RealClock(clock)
    ensures Migrate(Migrate(state, 0, clock), 0, later) == Migrate(state, 0, clock)
  {
    var once := Migrate(state, 0, clock);
    var twice := Migrate(once, 0, later);
    forall i | 0 <= i < |once.transactions| ensures twice.transactions[i] == once.transactions[i] {
      OrElseSettles(Some(state.transactions[i].timestamp), clock(i), later(i));
    }
  }

  /** With the same readings, running the version-0 step twice equals running it once. */
  lemma MigrateTwiceSameTime(state: Snapshot, clock: nat -> string)
    ensures Migrate(Migrate(state, 0, clock), 0, clock) == Migrate(state, 0, clock)
  {
    var once := Migrate(state, 0, clock);
    var twice := Migrate(once, 0, clock);
    forall i | 0 <= i < |once.transactions| ensures twice.transactions[i] == once.transactions[i] {
    }
  }

  class PointStore {
    var transactions: seq<PointTransaction>

    constructor ()
      ensures transactions == []
    {
      transactions := [];
    }

    /** `addTransaction`: `freshId` and `now` stand for the random UUID and the current time. */
    method AddTransaction(input: TransactionInput, freshId: string, now: string)
      modifies this
      ensures transactions == Step(old(transactions), LedgerAction.AddTransaction(input, freshId, now))
      ensures |transactions| == |old(transactions)| + 1 && transactions[1..] == old(transactions)
      ensures transactions[0] == NewTransaction(input, freshId, now)
    {
      transactions := [NewTransaction(input, freshId, now)] + transactions;
    }

    /** `clearTransactions`. */
    method ClearTransactions()
      modifies this
      ensures transactions == Step(old(transactions), LedgerAction.ClearTransactions)
      ensures transactions == []
    {
      transactions := [];
    }
  }
}
