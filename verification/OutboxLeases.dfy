/** How far apart two publishers' turns with one outbox row are: by the lease, or after a failure by the retry delay. */
module OutboxLeases {
  import opened Common
  import opened Outbox

  /** The outbox before step k of a run. */
  ghost function Before(steps: seq<Step>, k: nat): State
    requires k <= |steps|
  {
    Run(EMPTY, steps[..k])
  }

  /** The step is a claim whose batch has row id. */
  ghost predicate ClaimsRow(s: State, step: Step, id: Id) {
    step.Claim? && var batch := Batch(s.rows, step.now, step.limit, step.locked);
    FreshTokens(s, batch, step.tokens) && id in batch
  }

  /** The step is a finalization of row id by whoever holds it. */
  predicate Finishes(s: State, step: Step, id: Id) {
    step.Finish? && step.token in s.sends && Holds(s, step.token) && s.claims[step.token].eventId == id
  }

  ghost predicate Claims(steps: seq<Step>, k: nat, id: Id) {
    k < |steps| && ClaimsRow(Before(steps, k), steps[k], id)
  }

  /** If step k claims row id, then for a lease that has not run out yet. */
  ghost predicate LeaseIsAhead(steps: seq<Step>, k: nat, id: Id) {
    Claims(steps, k, id) ==> steps[k].leaseExpiresAt >= steps[k].now
  }

  ghost predicate Finalizes(steps: seq<Step>, k: nat, id: Id) {
    k < |steps| && Finishes(Before(steps, k), steps[k], id)
  }

  /** Only claims and finalizations touch a row. */
  lemma RowStep(s: State, step: Step, id: Id)
    requires id in s.rows
    ensures id in Next(s, step).rows
    ensures var row := Next(s, step).rows[id];
            && (ClaimsRow(s, step, id) ==> row.status == Publishing && row.leaseExpiresAt == Some(step.leaseExpiresAt))
            && (!ClaimsRow(s, step, id) && !Finishes(s, step, id) ==> row == s.rows[id])
            && (Finishes(s, step, id) && row.status == FailedRetryable ==>
                  row.nextAttemptAt == step.now + step.retryDelay)
  {
  }

  lemma BeforeNext(steps: seq<Step>, k: nat)
    requires k < |steps|
    ensures Before(steps, k + 1) == Next(Before(steps, k), steps[k])
  {
    assert steps[..k + 1][..k] == steps[..k];
  }

  lemma ClaimedIsThere(s: State, step: Step, id: Id)
    requires ClaimsRow(s, step, id)
    ensures id in s.rows && Publishable(s.rows[id], step.now)
  {
  }

  /** Row id is leased, at least until `until`. */
  predicate LeasedUntil(s: State, id: Id, until: Time) {
    && id in s.rows && s.rows[id].status == Publishing
    && s.rows[id].leaseExpiresAt.Some? && s.rows[id].leaseExpiresAt.value >= until
  }

  lemma ClaimLeases(s: State, step: Step, id: Id)
    requires ClaimsRow(s, step, id)
    ensures LeasedUntil(Next(s, step), id, step.leaseExpiresAt)
  {
    ClaimedIsThere(s, step, id);
    RowStep(s, step, id);
  }

  lemma LeaseStays(s: State, step: Step, id: Id, until: Time)
    requires LeasedUntil(s, id, until) && !Finishes(s, step, id)
    requires ClaimsRow(s, step, id) ==> step.leaseExpiresAt >= step.now
    ensures LeasedUntil(Next(s, step), id, until)
  {
    RowStep(s, step, id);
    if ClaimsRow(s, step, id) { ClaimedIsThere(s, step, id); }
  }

  lemma LeaseGoesOn(steps: seq<Step>, k: nat, id: Id, until: Time)
    requires k < |steps| && LeasedUntil(Before(steps, k), id, until)
    requires !Finalizes(steps, k, id) && LeaseIsAhead(steps, k, id)
    ensures LeasedUntil(Before(steps, k + 1), id, until)
  {
    BeforeNext(steps, k);
    LeaseStays(Before(steps, k), steps[k], id, until);
  }

  lemma {:induction false} StaysLeased(steps: seq<Step>, i: nat, k: nat, id: Id)
    requires i < k <= |steps| && Claims(steps, i, id)
    requires forall m: nat :: i < m < k ==> !Finalizes(steps, m, id)
    requires forall m: nat :: i < m < k ==> LeaseIsAhead(steps, m, id)
    ensures LeasedUntil(Before(steps, k), id, steps[i].leaseExpiresAt)
  {
    if k == i + 1 {
      BeforeNext(steps, i);
      ClaimLeases(Before(steps, i), steps[i], id);
    } else {
      StaysLeased(steps, i, k - 1, id);
      LeaseGoesOn(steps, k - 1, id, steps[i].leaseExpiresAt);
    }
  }

  /**
   * Two claims of a row with no finalization between, whoever made them, are further apart than the lease the first
   * was given, as long as no claim between them asked for a lease that had already run out.
   */
  lemma LeasesDoNotOverlap(steps: seq<Step>, i: nat, j: nat, id: Id)
    requires i < j && Claims(steps, i, id) && Claims(steps, j, id)
    requires forall m: nat :: i < m < j ==> !Finalizes(steps, m, id)
    requires forall m: nat :: i < m < j ==> LeaseIsAhead(steps, m, id)
    ensures steps[j].now > steps[i].leaseExpiresAt
  {
    StaysLeased(steps, i, j, id);
    ClaimedIsThere(Before(steps, j), steps[j], id);
  }

  /** Row id waits for a retry, not before `from`. */
  predicate WaitsUntil(s: State, id: Id, from: Time) {
    id in s.rows && s.rows[id].status == FailedRetryable && s.rows[id].nextAttemptAt == from
  }

  lemma {:induction false} StaysWaiting(steps: seq<Step>, i: nat, k: nat, id: Id)
    requires i < k <= |steps| && Finalizes(steps, i, id)
    requires id in Before(steps, i + 1).rows && Before(steps, i + 1).rows[id].status == FailedRetryable
    requires forall m: nat :: i < m < k ==> !Claims(steps, m, id)
    ensures WaitsUntil(Before(steps, k), id, steps[i].now + steps[i].retryDelay)
  {
    var s := Before(steps, k - 1);
    BeforeNext(steps, k - 1);
    if k == i + 1 {
      RowStep(s, steps[i], id);
    } else {
      StaysWaiting(steps, i, k - 1, id);
      RowStep(s, steps[k - 1], id);
      assert !Claims(steps, k - 1, id);
    }
  }

  /** After a failure that may be retried the next claim waits for the retry delay. */
  lemma RetryWaits(steps: seq<Step>, i: nat, j: nat, id: Id)
    requires i < j && Finalizes(steps, i, id) && Claims(steps, j, id)
    requires id in Before(steps, i + 1).rows && Before(steps, i + 1).rows[id].status == FailedRetryable
    requires forall m: nat :: i < m < j ==> !Claims(steps, m, id)
    ensures steps[j].now >= steps[i].now + steps[i].retryDelay
  {
    StaysWaiting(steps, i, j, id);
    ClaimedIsThere(Before(steps, j), steps[j], id);
  }
}
