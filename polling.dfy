/** The progress-stall wait shared by the two bring-up paths
    (ukplat_lcpu_start in smp.c and release_aps in setup.c).

    Both loops run `for (i = 0; i < 20000; i++)`: they stop as soon as the
    awaited condition holds, and whenever the counter the application
    processors increment exceeds the last value recorded, they record it and
    set `i = 0`, so that after the loop's `i++` the budget restarts at 1.
    The values the other cores write are an input here: `obs(k)` is what the
    bootstrap core sees at its k-th check; each `mdelay(1)` between two
    checks is one step of `k`. */
module Polling {
  import opened Machine

  const BUDGET: nat := 20000

  /** Counters are at most 64 bits wide. */
  type Counter = x: int | x < 0x1_0000_0000_0000_0000

  /** One check: whether the awaited condition holds, and the progress counter. */
  datatype Probe = Probe(finished: bool, count: Counter)

  datatype Outcome = Finished(at: nat) | Stalled(at: nat)

  /** The loop from the check numbered `k`, with loop counter `i` and last
      recorded counter value `last`. */
  function Poll(obs: nat -> Probe, k: nat, i: nat, last: nat): Outcome
    requires i <= BUDGET && last < U64_LIMIT
    decreases U64_LIMIT - last, BUDGET - i
  {
    if i == BUDGET then Stalled(k)
    else if obs(k).finished then Finished(k)
    else if obs(k).count > last then Poll(obs, k + 1, 1, obs(k).count)
    else Poll(obs, k + 1, i + 1, last)
  }

  /** The wait itself, checked against `Poll`. */
  method PollProgress(obs: nat -> Probe) returns (outcome: Outcome)
    ensures outcome == Poll(obs, 0, 0, 0)
  {
    var i, k, last := 0, 0, 0;
    while i < BUDGET
      invariant i <= BUDGET && 0 <= last < U64_LIMIT
      invariant Poll(obs, k, i, last) == Poll(obs, 0, 0, 0)
      decreases U64_LIMIT - last, BUDGET - i
    {
      var probe := obs(k);
      if probe.finished {
        return Finished(k);
      }
      if probe.count > last {
        i := 0;
        last := probe.count;
      }
      k := k + 1;
      i := i + 1;
    }
    return Stalled(k);
  }

  /** The check whose values the wait read last: the one that saw the
      condition, or the one before a stall is reported. */
  function LastCheck(o: Outcome): (k: nat)
    ensures o.Finished? ==> k == o.at
    ensures o.Stalled? && o.at > 0 ==> k + 1 == o.at
  {
    if o.Finished? || o.at == 0 then o.at else o.at - 1
  }

  /** The largest counter value seen before check `k` (0 before any). */
  function MaxCount(obs: nat -> Probe, k: nat): (m: nat)
    ensures forall j :: 0 <= j < k ==> obs(j).count <= m
  {
    if k == 0 then 0
    else var m := MaxCount(obs, k - 1);
      if obs(k - 1).count > m then obs(k - 1).count else m
  }

  /** Check `j` showed no progress. */
  predicate NoProgress(obs: nat -> Probe, j: nat)
  {
    obs(j).count <= MaxCount(obs, j)
  }

  lemma {:induction false} PollFinishedAt(obs: nat -> Probe, k: nat, i: nat, last: nat)
    requires i <= BUDGET && last < U64_LIMIT
    requires forall j :: 0 <= j < k ==> !obs(j).finished
    ensures Poll(obs, k, i, last).Finished? ==>
      var at := Poll(obs, k, i, last).at;
      at >= k && obs(at).finished && forall j :: 0 <= j < at ==> !obs(j).finished
    decreases U64_LIMIT - last, BUDGET - i
  {
    if i == BUDGET || obs(k).finished {
    } else if obs(k).count > last {
      PollFinishedAt(obs, k + 1, 1, obs(k).count);
    } else {
      PollFinishedAt(obs, k + 1, i + 1, last);
    }
  }

  /** The wait succeeds at the first check that sees the condition. */
  lemma WaitFinishesAtFirstSuccess(obs: nat -> Probe)
    ensures Poll(obs, 0, 0, 0).Finished? ==>
      var at := Poll(obs, 0, 0, 0).at;
      obs(at).finished && forall j :: 0 <= j < at ==> !obs(j).finished
  {
    PollFinishedAt(obs, 0, 0, 0);
  }

  lemma {:induction false} PollStalledAt(obs: nat -> Probe, k: nat, i: nat, last: nat)
    requires i <= BUDGET && last < U64_LIMIT && i <= k
    requires last == MaxCount(obs, k)
    requires forall j :: 0 <= j < k ==> !obs(j).finished
    requires forall j :: k - i < j < k ==> NoProgress(obs, j)
    ensures Poll(obs, k, i, last).Stalled? ==>
      var at := Poll(obs, k, i, last).at;
      && at >= BUDGET
      && (forall j :: 0 <= j < at ==> !obs(j).finished)
      && (forall j :: at - BUDGET < j < at ==> NoProgress(obs, j))
    decreases U64_LIMIT - last, BUDGET - i
  {
    if i == BUDGET || obs(k).finished {
    } else if obs(k).count > last {
      PollStalledAt(obs, k + 1, 1, obs(k).count);
    } else {
      assert NoProgress(obs, k);
      PollStalledAt(obs, k + 1, i + 1, last);
    }
  }

  /** The wait times out only when no check saw the condition, and the last
      BUDGET - 1 checks all saw no progress. */
  lemma WaitStallsOnlyWithoutProgress(obs: nat -> Probe)
    ensures Poll(obs, 0, 0, 0).Stalled? ==>
      var at := Poll(obs, 0, 0, 0).at;
      && at >= BUDGET
      && (forall j :: 0 <= j < at ==> !obs(j).finished)
      && (forall j :: at - BUDGET < j < at ==> NoProgress(obs, j))
  {
    PollStalledAt(obs, 0, 0, 0);
  }

  lemma {:induction false} PollEarly(obs: nat -> Probe, k: nat, i: nat, last: nat, j: nat)
    requires i <= BUDGET && last < U64_LIMIT && i <= k
    requires k <= j < BUDGET && obs(j).finished
    ensures Poll(obs, k, i, last).Finished? && Poll(obs, k, i, last).at <= j
    decreases U64_LIMIT - last, BUDGET - i
  {
    if obs(k).finished {
    } else if obs(k).count > last {
      PollEarly(obs, k + 1, 1, obs(k).count, j);
    } else {
      PollEarly(obs, k + 1, i + 1, last, j);
    }
  }

  /** When the condition is seen within the first BUDGET checks, the wait
      succeeds, however little progress the counter shows. */
  lemma WaitSucceedsWithinBudget(obs: nat -> Probe, j: nat)
    requires j < BUDGET && obs(j).finished
    ensures Poll(obs, 0, 0, 0).Finished? && Poll(obs, 0, 0, 0).at <= j
  {
    PollEarly(obs, 0, 0, 0, j);
  }
}
