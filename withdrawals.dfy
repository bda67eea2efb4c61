/**
 * The withdrawal store: a list of withdrawal requests, newest first, that
 * actions replace wholesale, together with the version-0 migration of its
 * persisted form.
 */
module Withdrawals {
  import opened Wrappers
  import opened Types

  datatype Status = Pending | Completed | Rejected

  datatype PaymentMethod = Bank | PayPal

  datatype WithdrawalRequest = WithdrawalRequest(
    id: string,
    userId: string,
    userName: string,
    amount: int,
    paymentMethod: PaymentMethod,
    status: Status,
    timestamp: string)

  /**
   * The argument of `addRequest`. Its declared type omits `id`, `timestamp`
   * and `status`, but it is spread after the generated values, so an object
   * that still carries one of those keys overrides the generated value. The
   * last three fields record such keys; a well-typed argument has none.
   */
  datatype RequestInput = RequestInput(
    userId: string,
    userName: string,
    amount: int,
    paymentMethod: PaymentMethod,
    id: Option<string>,
    timestamp: Option<string>,
    status: Option<Status>)

  /** The argument has none of the keys its type omits. */
  predicate OmitsGenerated(input: RequestInput) {
    input.id.None? && input.timestamp.None? && input.status.None?
  }

  /** The record `addRequest` prepends, given the generated id and the current time. */
  function NewRequest(input: RequestInput, freshId: string, now: string): (r: WithdrawalRequest)
    ensures r.userId == input.userId && r.userName == input.userName
    ensures r.amount == input.amount && r.paymentMethod == input.paymentMethod
    ensures OmitsGenerated(input) ==> r.id == freshId && r.timestamp == now && r.status == Pending
    ensures input.id.Some? ==> r.id == input.id.value
    ensures input.timestamp.Some? ==> r.timestamp == input.timestamp.value
    ensures input.status.Some? ==> r.status == input.status.value
  {
    WithdrawalRequest(
      input.id.GetOr(freshId),
      input.userId,
      input.userName,
      input.amount,
      input.paymentMethod,
      input.status.GetOr(Pending),
      input.timestamp.GetOr(now))
  }

  function Ids(rs: seq<WithdrawalRequest>): set<string> {
    set r | r in rs :: r.id
  }

  /** No two requests share an id. */
  predicate UniqueIds(rs: seq<WithdrawalRequest>) {
    forall i, j :: 0 <= i < j < |rs| ==> rs[i].id != rs[j].id
  }

  /**
   * The list after `updateStatus(id, status)`: every request with that id
   * gets the new status, whatever its current one, and nothing else changes.
   */
  function SetStatus(rs: seq<WithdrawalRequest>, id: string, status: Status): (r: seq<WithdrawalRequest>)
    ensures |r| == |rs|
    ensures forall i :: 0 <= i < |rs| ==> r[i].id == rs[i].id
    ensures forall i :: 0 <= i < |rs| && rs[i].id == id ==> r[i] == rs[i].(status := status)
    ensures forall i :: 0 <= i < |rs| && rs[i].id != id ==> r[i] == rs[i]
  {
    if rs == [] then []
    else
      var head := if rs[0].id == id then rs[0].(status := status) else rs[0];
      [head] + SetStatus(rs[1..], id, status)
  }

  /** An id that matches no request leaves the list as it was. */
  lemma SetStatusUnknownId(rs: seq<WithdrawalRequest>, id: string, status: Status)
    requires id !in Ids(rs)
    ensures SetStatus(rs, id, status) == rs
  {
    var r := SetStatus(rs, id, status);
    forall i | 0 <= i < |rs| ensures r[i] == rs[i] {
      assert rs[i] in rs;
    }
  }

  /** Two updates of the same id: the second one wins. */
  lemma SetStatusLastWins(rs: seq<WithdrawalRequest>, id: string, first: Status, second: Status)
    ensures SetStatus(SetStatus(rs, id, first), id, second) == SetStatus(rs, id, second)
  {
  }

  /**
   * No transition is refused: whatever a request's current status, it takes
   * the new one; a completed request can go back to pending.
   */
  lemma SetStatusAcceptsAnyTransition(r: WithdrawalRequest, status: Status)
    ensures SetStatus([r], r.id, status) == [r.(status := status)]
  {
  }

  /** Updating a status keeps the ids, so it keeps them distinct. */
  lemma SetStatusKeepsUniqueIds(rs: seq<WithdrawalRequest>, id: string, status: Status)
    requires UniqueIds(rs)
    ensures UniqueIds(SetStatus(rs, id, status))
  {
  }

  /** Prepending a request whose id is fresh keeps the ids distinct. */
  lemma PrependFreshKeepsUniqueIds(rs: seq<WithdrawalRequest>, r: WithdrawalRequest)
    requires UniqueIds(rs) && r.id !in Ids(rs)
    ensures UniqueIds([r] + rs)
  {
    var rs' := [r] + rs;
    forall i, j | 0 <= i < j < |rs'| ensures rs'[i].id != rs'[j].id {
      if i == 0 {
        assert rs'[j] == rs[j - 1] && rs[j - 1] in rs;
      }
    }
  }

  /**
   * Fill every falsy (absent or empty) timestamp. The clock is read afresh
   * for each record that needs it: `clock(i)` is the reading taken for the
   * `i`-th record.
   */
  function BackfillTimestamps(rs: seq<WithdrawalRequest>, clock: nat -> string): (r: seq<WithdrawalRequest>)
    ensures |r| == |rs|
    ensures forall i :: 0 <= i < |rs| && Truthy(rs[i].timestamp) ==> r[i] == rs[i]
    ensures forall i :: 0 <= i < |rs| && !Truthy(rs[i].timestamp) ==> r[i] == rs[i].(timestamp := clock(i))
  {
    if rs == [] then []
    else
      var head := if Truthy(rs[0].timestamp) then rs[0] else rs[0].(timestamp := clock(0));
      [head] + BackfillTimestamps(rs[1..], (i: nat) => clock(i + 1))
  }

  /** The persisted form of the store: only its data key survives serialisation. */
  datatype Snapshot = Snapshot(requests: seq<WithdrawalRequest>)

  /** The `migrate` hook: version 0 backfills timestamps, any other version is kept. */
  function Migrate(state: Snapshot, version: int, clock: nat -> string): (r: Snapshot)
    ensures version != 0 ==> r == state
    ensures version == 0 ==> |r.requests| == |state.requests|
    ensures version == 0 ==> forall i :: 0 <= i < |state.requests| ==>
      r.requests[i] == state.requests[i].(timestamp := OrElse(Some(state.requests[i].timestamp), clock(i)))
  {
    if version == 0 then Snapshot(BackfillTimestamps(state.requests, clock)) else state
  }

  /** After a version-0 migration with a real clock, every timestamp is filled in. */
  lemma MigrateFillsTimestamps(state: Snapshot, clock: nat -> string)
    requires RealClock(clock)
    ensures forall i :: 0 <= i < |Migrate(state, 0, clock).requests| ==> Truthy(Migrate(state, 0, clock).requests[i].timestamp)
  {
    var m := Migrate(state, 0, clock).requests;
    forall i | 0 <= i < |m| ensures Truthy(m[i].timestamp) {
      OrElseSettles(Some(state.requests[i].timestamp), clock(i), clock(i));
    }
  }

  /**
   * Running the version-0 step again, even with later readings, changes
   * nothing once the first run used a real clock.
   */
  lemma MigrateIdempotent(state: Snapshot, clock: nat -> string, later: nat -> string)
    requires RealClock(clock)
    ensures Migrate(Migrate(state, 0, clock), 0, later) == Migrate(state, 0, clock)
  {
    var once := Migrate(state, 0, clock);
    var twice := Migrate(once, 0, later);
    forall i | 0 <= i < |once.requests| ensures twice.requests[i] == once.requests[i] {
      OrElseSettles(Some(state.requests[i].timestamp), clock(i), later(i));
    }
  }

  /** With the same readings, running the version-0 step twice equals running it once. */
  lemma MigrateTwiceSameTime(state: Snapshot, clock: nat -> string)
    ensures Migrate(Migrate(state, 0, clock), 0, clock) == Migrate(state, 0, clock)
  {
    var once := Migrate(state, 0, clock);
    var twice := Migrate(once, 0, clock);
    forall i | 0 <= i < |once.requests| ensures twice.requests[i] == once.requests[i] {
    }
  }

  /**
   * The example of a request that is added and then approved: exactly one
   * request, completed, with the amount and method it was submitted with.
   */
  lemma AddThenComplete(input: RequestInput, freshId: string, now: string)
    requires OmitsGenerated(input) && input.amount == 5000 && input.paymentMethod == Bank
    ensures SetStatus([NewRequest(input, freshId, now)], freshId, Completed)
         == [WithdrawalRequest(freshId, input.userId, input.userName, 5000, Bank, Completed, now)]
  {
  }

  /** The store object; each action replaces `requests` with a new list. */
  class WithdrawalStore {
    var requests: seq<WithdrawalRequest>

    constructor ()
      ensures requests == []
    {
      requests := [];
    }

    /**
     * `addRequest`: `freshId` and `now` stand for the random UUID and the
     * current time; the UUID is assumed not to collide with a stored id.
     */
    method AddRequest(input: RequestInput, freshId: string, now: string)
      requires freshId !in Ids(requests)
      modifies this
      ensures requests == [NewRequest(input, freshId, now)] + old(requests)
      ensures |requests| == |old(requests)| + 1 && requests[1..] == old(requests)
      ensures OmitsGenerated(input) ==> requests[0].status == Pending && requests[0].id == freshId
      ensures OmitsGenerated(input) && UniqueIds(old(requests)) ==> UniqueIds(requests)
    {
      var r := NewRequest(input, freshId, now);
      if OmitsGenerated(input) && UniqueIds(requests) {
        PrependFreshKeepsUniqueIds(requests, r);
      }
      requests := [r] + requests;
    }

    /** `updateStatus`: no check that the transition is one the workflow allows. */
    method UpdateStatus(id: string, status: Status)
      modifies this
      ensures requests == SetStatus(old(requests), id, status)
      ensures id !in Ids(old(requests)) ==> requests == old(requests)
      ensures UniqueIds(old(requests)) ==> UniqueIds(requests)
    {
      if id !in Ids(requests) {
        SetStatusUnknownId(requests, id, status);
      }
      requests := SetStatus(requests, id, status);
    }

    /** `clearRequests`. */
    method ClearRequests()
      modifies this
      ensures requests == []
    {
      requests := [];
    }
  }
}
