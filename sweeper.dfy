/** The settlement worker: passes over the backlog, each settling a batch one item
    at a time, until a shutdown signal is observed. The outside world (the signal,
    failures of the backlog query, the clock and store faults) is an `Environment`. */
module Sweeper {
  import opened Models
  import opened Database
  import opened Processor
  import Ordering

  /** The loop reads the shutdown flag at numbered checks (before each pass and before
      each item). The signal handler runs just before check `shutdownAt`; since only
      `shutdown` writes the flag and it only ever sets it, that one number says what
      every check reads. `fetchFaults` are the passes whose backlog query throws;
      `clock(n)` and `commitFaults(n)` are the time and the store fault at the commit
      of the run's n-th settlement. */
  datatype Environment = Environment(
    shutdownAt: nat,
    fetchFaults: set<nat>,
    clock: nat -> Timestamp,
    commitFaults: nat -> Fault)

  /** One started settlement, as the loop logs it: its pass, its position in the
      batch, the flag check that preceded it, the id and the outcome. */
  datatype Attempt = Attempt(pass: nat, index: nat, check: nat, id: Id, result: ProcessResult)

  /** Where a run stands: the store, the number of flag checks and passes made, and
      the settlements started so far. */
  datatype Progress = Progress(state: DbState, checks: nat, passes: nat, trace: seq<Attempt>)

  function Ids(ts: seq<Transaction>): (r: seq<Id>)
    ensures |r| == |ts| && forall i :: 0 <= i < |ts| ==> r[i] == ts[i].id
  {
    seq(|ts|, i requires 0 <= i < |ts| => ts[i].id)
  }

  /** The ids a pass fetches from the store. */
  function Batch(s: DbState, batchSize: nat): seq<Id>
    requires OrderedKeys(s.transactions, s.txOrder)
  {
    Ids(FetchPendingTransactions(TransactionRows(s), batchSize))
  }

  /** Settles `ids[i..end]` in order, starting from `s`. Item `j` of the batch follows
      flag check `check0 + j` and is the run's settlement number `n0 + j`. */
  function SettleFrom(s: DbState, ids: seq<Id>, i: nat, end: nat, pass: nat, check0: nat, n0: nat, env: Environment)
    : (r: (DbState, seq<Attempt>))
    requires i <= end <= |ids|
    ensures |r.1| == end - i
    decreases end - i
  {
    if i == end then (s, [])
    else
      var step := Settlement(s, ids[i], env.clock(n0 + i), env.commitFaults(n0 + i));
      var rest := SettleFrom(step.state, ids, i + 1, end, pass, check0, n0, env);
      (rest.0, [Attempt(pass, i, check0 + i, ids[i], step.result)] + rest.1)
  }

  /** How many items of a batch of `size` a pass starting after check `checks` gets to
      settle: each needs a clear flag at its own check. */
  function Started(size: nat, checks: nat, env: Environment): (r: nat)
    requires checks <= env.shutdownAt
    ensures r <= size && checks + r <= env.shutdownAt
    ensures r < size ==> checks + r == env.shutdownAt
  {
    Ordering.Min(size, env.shutdownAt - checks)
  }

  /** The item loop of a pass over the fetched `ids`: one flag check and one settlement
      per item until the batch is done or a check finds the flag set. */
  function SettleBatch(q: Progress, ids: seq<Id>, env: Environment): (r: Progress)
    requires OrderedKeys(q.state.transactions, q.state.txOrder) && q.checks <= env.shutdownAt
    ensures q.checks <= r.checks <= env.shutdownAt + 1 && r.passes == q.passes
    ensures OrderedKeys(r.state.transactions, r.state.txOrder)
  {
    var started := Started(|ids|, q.checks, env);
    SettleFromKeepsScan(q.state, ids, 0, started, q.passes, q.checks, |q.trace|, env);
    var settled := SettleFrom(q.state, ids, 0, started, q.passes, q.checks, |q.trace|, env);
    Progress(settled.0, q.checks + started + (if started < |ids| then 1 else 0), q.passes, q.trace + settled.1)
  }

  /** One pass, after its opening check found the flag clear: the backlog query,
      whose failure the loop absorbs, then the item loop over the fetched batch. */
  function Pass(q: Progress, env: Environment, batchSize: nat): (r: Progress)
    requires OrderedKeys(q.state.transactions, q.state.txOrder) && q.checks <= env.shutdownAt
    ensures q.checks <= r.checks <= env.shutdownAt + 1 && r.passes == q.passes + 1
    ensures OrderedKeys(r.state.transactions, r.state.txOrder)
  {
    if q.passes in env.fetchFaults then q.(passes := q.passes + 1)
    else
      var r := SettleBatch(q, Batch(q.state, batchSize), env);
      r.(passes := r.passes + 1)
  }

  /** The whole loop from a point where it is about to check the flag. */
  function Run(p: Progress, env: Environment, batchSize: nat): (r: Progress)
    requires OrderedKeys(p.state.transactions, p.state.txOrder) && p.checks <= env.shutdownAt + 1
    ensures env.shutdownAt < r.checks <= env.shutdownAt + 2 && p.passes <= r.passes
    ensures OrderedKeys(r.state.transactions, r.state.txOrder)
    decreases env.shutdownAt + 1 - p.checks
  {
    if p.checks >= env.shutdownAt then p.(checks := p.checks + 1)
    else Run(Pass(p.(checks := p.checks + 1), env, batchSize), env, batchSize)
  }

  lemma {:induction false} SettleFromKeepsScan(s: DbState, ids: seq<Id>, i: nat, end: nat, pass: nat, check0: nat, n0: nat, env: Environment)
    requires i <= end <= |ids| && OrderedKeys(s.transactions, s.txOrder)
    ensures var s' := SettleFrom(s, ids, i, end, pass, check0, n0, env).0;
      OrderedKeys(s'.transactions, s'.txOrder)
    decreases end - i
  {
    if i < end {
      SettlementKeepsScan(s, ids[i], env.clock(n0 + i), env.commitFaults(n0 + i));
      SettleFromKeepsScan(Settlement(s, ids[i], env.clock(n0 + i), env.commitFaults(n0 + i)).state,
        ids, i + 1, end, pass, check0, n0, env);
    }
  }

  // ----- a batch as the sequence of its settlements -----

  /** The settlement of one item given the store, its id and its settlement number. */
  function Settler(env: Environment): (DbState, Id, nat) -> Settled
  {
    (s: DbState, id: Id, n: nat) => Settlement(s, id, env.clock(n), env.commitFaults(n))
  }

  /** `states` and `results` record applying `step` to `ids[..|results|]` one after the
      other: item `k`, settlement number `n0 + k`, takes `states[k]` to `states[k + 1]`. */
  ghost predicate Follows(states: seq<DbState>, results: seq<ProcessResult>, ids: seq<Id>, n0: nat,
                          step: (DbState, Id, nat) -> Settled)
  {
    && |states| == |results| + 1 && |results| <= |ids|
    && forall k {:trigger results[k]} :: 0 <= k < |results| ==>
         Settled(states[k + 1], results[k]) == step(states[k], ids[k], n0 + k)
  }

  /** The states and results of the first `end` items, from `s0`. */
  function Trajectory(s0: DbState, ids: seq<Id>, end: nat, n0: nat, step: (DbState, Id, nat) -> Settled)
    : (r: (seq<DbState>, seq<ProcessResult>))
    requires end <= |ids|
    ensures |r.0| == end + 1 && |r.1| == end && r.0[0] == s0
    decreases end
  {
    if end == 0 then ([s0], [])
    else
      var before := Trajectory(s0, ids, end - 1, n0, step);
      var last := step(before.0[end - 1], ids[end - 1], n0 + end - 1);
      (before.0 + [last.state], before.1 + [last.result])
  }

  lemma {:induction false} TrajectoryFollows(s0: DbState, ids: seq<Id>, end: nat, n0: nat,
                                             step: (DbState, Id, nat) -> Settled)
    requires end <= |ids|
    ensures var r := Trajectory(s0, ids, end, n0, step); Follows(r.0, r.1, ids, n0, step)
    decreases end
  {
    if end > 0 {
      TrajectoryFollows(s0, ids, end - 1, n0, step);
      var before := Trajectory(s0, ids, end - 1, n0, step);
      var r := Trajectory(s0, ids, end, n0, step);
      var last := step(before.0[end - 1], ids[end - 1], n0 + end - 1);
      assert r.0 == before.0 + [last.state] && r.1 == before.1 + [last.result];
      forall k | 0 <= k < end
        ensures Settled(r.0[k + 1], r.1[k]) == step(r.0[k], ids[k], n0 + k)
      {
        assert r.0[k] == before.0[k];
        if k < end - 1 {
          assert r.1[k] == before.1[k] && r.0[k + 1] == before.0[k + 1];
        }
      }
    }
  }

  /** Settling from item `i` on, the loop's view: `SettleFrom` from the state before
      item `i` ends in the state after the last item and logs one attempt per item. */
  lemma {:induction false} SettleFromFollowsTrajectory(states: seq<DbState>, results: seq<ProcessResult>,
                                                       ids: seq<Id>, i: nat, pass: nat, check0: nat, n0: nat,
                                                       env: Environment)
    requires Follows(states, results, ids, n0, Settler(env)) && i <= |results|
    ensures var r := SettleFrom(states[i], ids, i, |results|, pass, check0, n0, env);
      && r.0 == states[|results|]
      && forall k :: 0 <= k < |r.1| ==> r.1[k] == Attempt(pass, i + k, check0 + i + k, ids[i + k], results[i + k])
    decreases |results| - i
  {
    if i < |results| {
      SettleFromFollowsTrajectory(states, results, ids, i + 1, pass, check0, n0, env);
      assert Settled(states[i + 1], results[i]) == Settlement(states[i], ids[i], env.clock(n0 + i), env.commitFaults(n0 + i));
    }
  }

  /** The settlements of a pass, as states and results the loop can follow one item
      at a time. */
  lemma PassTrajectory(s0: DbState, ids: seq<Id>, end: nat, pass: nat, check0: nat, n0: nat, env: Environment)
    returns (states: seq<DbState>, results: seq<ProcessResult>)
    requires end <= |ids|
    ensures Follows(states, results, ids, n0, Settler(env)) && |results| == end && states[0] == s0
    ensures var r := SettleFrom(s0, ids, 0, end, pass, check0, n0, env);
      && r.0 == states[end]
      && forall k :: 0 <= k < end ==> r.1[k] == Attempt(pass, k, check0 + k, ids[k], results[k])
  {
    var t := Trajectory(s0, ids, end, n0, Settler(env));
    states, results := t.0, t.1;
    TrajectoryFollows(s0, ids, end, n0, Settler(env));
    SettleFromFollowsTrajectory(states, results, ids, 0, pass, check0, n0, env);
    var r := SettleFrom(s0, ids, 0, end, pass, check0, n0, env);
    forall k | 0 <= k < end
      ensures r.1[k] == Attempt(pass, k, check0 + k, ids[k], results[k])
    {
      assert 0 + k == k && check0 + 0 + k == check0 + k;
    }
  }

  /** `Run` one step at a time, as the loop takes it. */
  lemma RunUnfold(p: Progress, env: Environment, batchSize: nat)
    requires OrderedKeys(p.state.transactions, p.state.txOrder) && p.checks <= env.shutdownAt + 1
    ensures p.checks >= env.shutdownAt ==> Run(p, env, batchSize) == p.(checks := p.checks + 1)
    ensures p.checks < env.shutdownAt ==>
      Run(p, env, batchSize) == Run(Pass(p.(checks := p.checks + 1), env, batchSize), env, batchSize)
  {
  }

  // ----- what a run keeps: a well-formed, solvent, conserved ledger -----

  /** The ledger invariant the worker relies on: rows well formed, no negative balance. */
  ghost predicate Solvent(s: DbState)
  {
    WellFormed(s) && NonNegativeBalances(s.users)
  }

  lemma {:induction false} SettleFromKeepsSolvent(s: DbState, ids: seq<Id>, i: nat, end: nat, pass: nat,
                                                  check0: nat, n0: nat, env: Environment)
    requires i <= end <= |ids| && Solvent(s)
    ensures Solvent(SettleFrom(s, ids, i, end, pass, check0, n0, env).0)
    decreases end - i
  {
    if i < end {
      SettlementKeepsWellFormed(s, ids[i], env.clock(n0 + i), env.commitFaults(n0 + i));
      SettlementKeepsBalancesNonNegative(s, ids[i], env.clock(n0 + i), env.commitFaults(n0 + i));
      var step := Settlement(s, ids[i], env.clock(n0 + i), env.commitFaults(n0 + i));
      SettleFromKeepsSolvent(step.state, ids, i + 1, end, pass, check0, n0, env);
    }
  }

  lemma {:induction false} SettleFromConservesTotal(s: DbState, ids: seq<Id>, i: nat, end: nat, pass: nat,
                                                    check0: nat, n0: nat, env: Environment)
    requires i <= end <= |ids|
    ensures TotalBalance(SettleFrom(s, ids, i, end, pass, check0, n0, env).0.users) == TotalBalance(s.users)
    decreases end - i
  {
    if i < end {
      SettlementConservesTotal(s, ids[i], env.clock(n0 + i), env.commitFaults(n0 + i));
      var step := Settlement(s, ids[i], env.clock(n0 + i), env.commitFaults(n0 + i));
      SettleFromConservesTotal(step.state, ids, i + 1, end, pass, check0, n0, env);
    }
  }

  /** The attempts of `ids[i..end]` are logged in batch order: attempt `k` is item
      `i + k`, made after check `check0 + i + k`. */
  lemma {:induction false} SettleFromTrace(s: DbState, ids: seq<Id>, i: nat, end: nat, pass: nat,
                                           check0: nat, n0: nat, env: Environment)
    requires i <= end <= |ids|
    ensures forall k :: 0 <= k < end - i ==>
      && SettleFrom(s, ids, i, end, pass, check0, n0, env).1[k].pass == pass
      && SettleFrom(s, ids, i, end, pass, check0, n0, env).1[k].index == i + k
      && SettleFrom(s, ids, i, end, pass, check0, n0, env).1[k].check == check0 + i + k
      && SettleFrom(s, ids, i, end, pass, check0, n0, env).1[k].id == ids[i + k]
    decreases end - i
  {
    if i < end {
      var step := Settlement(s, ids[i], env.clock(n0 + i), env.commitFaults(n0 + i));
      SettleFromTrace(step.state, ids, i + 1, end, pass, check0, n0, env);
      var rest := SettleFrom(step.state, ids, i + 1, end, pass, check0, n0, env).1;
      var tr := SettleFrom(s, ids, i, end, pass, check0, n0, env).1;
      assert tr == [Attempt(pass, i, check0 + i, ids[i], step.result)] + rest;
      forall k | 0 < k < end - i
        ensures tr[k].pass == pass && tr[k].index == i + k && tr[k].check == check0 + i + k && tr[k].id == ids[i + k]
      {
        assert tr[k] == rest[k - 1];
      }
    }
  }

  lemma PassKeepsSolvent(q: Progress, env: Environment, batchSize: nat)
    requires OrderedKeys(q.state.transactions, q.state.txOrder) && q.checks <= env.shutdownAt
    requires Solvent(q.state)
    ensures Solvent(Pass(q, env, batchSize).state)
  {
    if q.passes !in env.fetchFaults {
      var ids := Batch(q.state, batchSize);
      SettleFromKeepsSolvent(q.state, ids, 0, Started(|ids|, q.checks, env), q.passes, q.checks, |q.trace|, env);
    }
  }

  lemma PassConservesTotal(q: Progress, env: Environment, batchSize: nat)
    requires OrderedKeys(q.state.transactions, q.state.txOrder) && q.checks <= env.shutdownAt
    ensures TotalBalance(Pass(q, env, batchSize).state.users) == TotalBalance(q.state.users)
  {
    if q.passes !in env.fetchFaults {
      var ids := Batch(q.state, batchSize);
      SettleFromConservesTotal(q.state, ids, 0, Started(|ids|, q.checks, env), q.passes, q.checks, |q.trace|, env);
    }
  }

  /** `attempts` are the first items of `ids` in order, all of pass `pass`, item `k`
      made after check `check0 + k`. */
  ghost predicate InBatchOrder(attempts: seq<Attempt>, pass: nat, check0: nat, ids: seq<Id>)
  {
    && |attempts| <= |ids|
    && forall k :: 0 <= k < |attempts| ==>
         && attempts[k].pass == pass && attempts[k].index == k
         && attempts[k].check == check0 + k && attempts[k].id == ids[k]
  }

  /** The item loop settles a prefix of the batch in order, one attempt per item,
      each after its own flag check. It stops short only when a check finds the flag
      set, so a batch whose checks all come before the signal is settled in full,
      whatever the outcomes of its items. */
  lemma SettleBatchTrace(q: Progress, ids: seq<Id>, env: Environment)
    requires OrderedKeys(q.state.transactions, q.state.txOrder) && q.checks <= env.shutdownAt
    ensures var r := SettleBatch(q, ids, env);
      var n := |r.trace| - |q.trace|;
      && |q.trace| <= |r.trace| && r.trace[..|q.trace|] == q.trace
      && InBatchOrder(r.trace[|q.trace|..], q.passes, q.checks, ids)
      && q.checks + n <= env.shutdownAt
      && (q.checks + |ids| <= env.shutdownAt ==> n == |ids|)
      && r.checks == q.checks + n + (if n < |ids| then 1 else 0)
      && (n < |ids| ==> r.checks == env.shutdownAt + 1)
  {
    var r := SettleBatch(q, ids, env);
    var started := Started(|ids|, q.checks, env);
    var settled := SettleFrom(q.state, ids, 0, started, q.passes, q.checks, |q.trace|, env);
    SettleFromTrace(q.state, ids, 0, started, q.passes, q.checks, |q.trace|, env);
    assert r.trace == q.trace + settled.1;
    assert r.trace[|q.trace|..] == settled.1;
    forall k | 0 <= k < started
      ensures && settled.1[k].pass == q.passes && settled.1[k].index == k
              && settled.1[k].check == q.checks + k && settled.1[k].id == ids[k]
    {
      assert settled.1[k].index == 0 + k && settled.1[k].check == q.checks + 0 + k;
    }
  }

  /** One pass. A failed backlog query costs the pass and nothing else; otherwise the
      item loop runs over a batch of at most `batchSize` ids. */
  lemma PassTrace(q: Progress, env: Environment, batchSize: nat)
    requires OrderedKeys(q.state.transactions, q.state.txOrder) && q.checks <= env.shutdownAt
    ensures var r := Pass(q, env, batchSize);
      && |q.trace| <= |r.trace| && r.trace[..|q.trace|] == q.trace
      && (q.passes in env.fetchFaults ==> r == q.(passes := q.passes + 1))
      && (q.passes !in env.fetchFaults ==>
            var ids := Batch(q.state, batchSize);
            var n := |r.trace| - |q.trace|;
            && |ids| <= batchSize
            && InBatchOrder(r.trace[|q.trace|..], q.passes, q.checks, ids)
            && q.checks + n <= env.shutdownAt
            && (q.checks + |ids| <= env.shutdownAt ==> n == |ids|)
            && r.checks == q.checks + n + (if n < |ids| then 1 else 0)
            && (n < |ids| ==> r.checks == env.shutdownAt + 1))
  {
    if q.passes !in env.fetchFaults {
      SettleBatchTrace(q, Batch(q.state, batchSize), env);
    }
  }

  // ----- the whole run -----

  lemma {:induction false} RunKeepsSolvent(p: Progress, env: Environment, batchSize: nat)
    requires OrderedKeys(p.state.transactions, p.state.txOrder) && p.checks <= env.shutdownAt + 1
    requires Solvent(p.state)
    ensures Solvent(Run(p, env, batchSize).state)
    decreases env.shutdownAt + 1 - p.checks
  {
    RunUnfold(p, env, batchSize);
    if p.checks < env.shutdownAt {
      var p' := p.(checks := p.checks + 1);
      PassKeepsSolvent(p', env, batchSize);
      RunKeepsSolvent(Pass(p', env, batchSize), env, batchSize);
    }
  }

  lemma {:induction false} RunConservesTotal(p: Progress, env: Environment, batchSize: nat)
    requires OrderedKeys(p.state.transactions, p.state.txOrder) && p.checks <= env.shutdownAt + 1
    ensures TotalBalance(Run(p, env, batchSize).state.users) == TotalBalance(p.state.users)
    decreases env.shutdownAt + 1 - p.checks
  {
    RunUnfold(p, env, batchSize);
    if p.checks < env.shutdownAt {
      var p' := p.(checks := p.checks + 1);
      PassConservesTotal(p', env, batchSize);
      RunConservesTotal(Pass(p', env, batchSize), env, batchSize);
    }
  }

  /** The flag checks of `attempts` rise strictly and lie in `[lo, hi)`. */
  ghost predicate ChecksRise(attempts: seq<Attempt>, lo: nat, hi: nat)
  {
    && (forall k :: 0 <= k < |attempts| ==> lo <= attempts[k].check < hi)
    && (forall j, k :: 0 <= j < k < |attempts| ==> attempts[j].check < attempts[k].check)
  }

  lemma ChecksRiseAppend(a: seq<Attempt>, b: seq<Attempt>, lo: nat, mid: nat, mid': nat, hi: nat)
    requires lo <= mid <= mid' && mid <= hi
    requires ChecksRise(a, lo, mid) && ChecksRise(b, mid', hi)
    ensures ChecksRise(a + b, lo, hi)
  {
    forall k | 0 <= k < |a + b|
      ensures lo <= (a + b)[k].check < hi
    {
      if k < |a| {
        assert (a + b)[k] == a[k];
      } else {
        assert (a + b)[k] == b[k - |a|];
      }
    }
    forall j, k | 0 <= j < k < |a + b|
      ensures (a + b)[j].check < (a + b)[k].check
    {
      if k < |a| {
        assert (a + b)[j] == a[j] && (a + b)[k] == a[k];
      } else if j < |a| {
        assert (a + b)[j] == a[j] && (a + b)[k] == b[k - |a|];
      } else {
        assert (a + b)[j] == b[j - |a|] && (a + b)[k] == b[k - |a|];
      }
    }
  }

  lemma InBatchOrderRises(attempts: seq<Attempt>, pass: nat, check0: nat, ids: seq<Id>, lo: nat)
    requires InBatchOrder(attempts, pass, check0, ids) && lo <= check0
    ensures ChecksRise(attempts, lo, check0 + |attempts|)
  {
  }

  /** `trace` extends `old` by exactly `added`. */
  lemma ExtendTwice(t0: seq<Attempt>, t1: seq<Attempt>, t2: seq<Attempt>)
    requires |t0| <= |t1| <= |t2| && t1[..|t0|] == t0 && t2[..|t1|] == t1
    ensures t2[..|t0|] == t0 && t2[|t0|..] == t1[|t0|..] + t2[|t1|..]
  {
    assert t2[..|t0|] == t2[..|t1|][..|t0|];
    assert t2[|t0|..] == t2[|t0|..|t1|] + t2[|t1|..];
    assert t2[|t0|..|t1|] == t2[..|t1|][|t0|..];
  }

  /** The run ends with a check that finds the flag set (the loop condition reads it
      once more after a pass cut short by it). Before that, it only
      extends the log, and every settlement it starts follows a check made before the
      signal, the checks of successive settlements rising strictly: no settlement is
      started once the flag is up. */
  lemma {:induction false} RunTrace(p: Progress, env: Environment, batchSize: nat)
    requires OrderedKeys(p.state.transactions, p.state.txOrder) && p.checks <= env.shutdownAt + 1
    ensures var r := Run(p, env, batchSize);
      && env.shutdownAt < r.checks <= env.shutdownAt + 2
      && |p.trace| <= |r.trace| && r.trace[..|p.trace|] == p.trace
      && ChecksRise(r.trace[|p.trace|..], p.checks, env.shutdownAt)
    decreases env.shutdownAt + 1 - p.checks
  {
    RunUnfold(p, env, batchSize);
    var r := Run(p, env, batchSize);
    if p.checks >= env.shutdownAt {
      assert r.trace[|p.trace|..] == [];
    } else {
      var p' := p.(checks := p.checks + 1);
      var q := Pass(p', env, batchSize);
      PassTrace(p', env, batchSize);
      RunTrace(q, env, batchSize);
      ExtendTwice(p.trace, q.trace, r.trace);
      var added := q.trace[|p.trace|..];
      if p'.passes !in env.fetchFaults {
        InBatchOrderRises(added, p'.passes, p'.checks, Batch(p'.state, batchSize), p.checks);
      } else {
        assert added == [];
      }
      ChecksRiseAppend(added, r.trace[|q.trace|..], p.checks, p'.checks + |added|, q.checks, env.shutdownAt);
    }
  }

  // ----- a backlog that cannot move -----

  /** Every pending transaction has both participants and a sender who cannot cover it. */
  ghost predicate Stuck(s: DbState)
  {
    forall id :: IsPending(s, id) ==>
      && s.transactions[id].fromUserId in s.users && s.transactions[id].toUserId in s.users
      && s.users[s.transactions[id].fromUserId].balance < s.transactions[id].amount
  }

  /** The outcomes a settlement of a stuck store can have. */
  predicate Refused(r: ProcessResult)
  {
    r == ProcessResult(false, Some(InsufficientBalance)) || r == ProcessResult(false, Some(NotFoundOrProcessed))
  }

  ghost predicate AllRefused(attempts: seq<Attempt>)
  {
    forall k :: 0 <= k < |attempts| ==> Refused(attempts[k].result)
  }

  /** In a stuck store a settlement changes nothing: the balance check marks the row
      FAILED inside the unit, the throw discards that write, and the row stays PENDING. */
  lemma SettlementWhenStuck(s: DbState, id: Id, now: Timestamp, fault: Fault)
    requires Stuck(s)
    ensures Settlement(s, id, now, fault).state == s && Refused(Settlement(s, id, now, fault).result)
  {
    if IsPending(s, id) {
      InsufficientBalanceRollsBack(s, id, now, fault);
    } else {
      NotPendingIsNoop(s, id, now, fault);
    }
  }

  lemma SettleFromWhenStuck(s: DbState, ids: seq<Id>, i: nat, end: nat, pass: nat,
                             check0: nat, n0: nat, env: Environment)
    requires i <= end <= |ids| && Stuck(s)
    ensures SettleFrom(s, ids, i, end, pass, check0, n0, env).0 == s
    ensures AllRefused(SettleFrom(s, ids, i, end, pass, check0, n0, env).1)
  {
    forall j | i <= j < end
      ensures RefusedAt(s, ids, j, n0, env)
    {
      SettlementWhenStuck(s, ids[j], env.clock(n0 + j), env.commitFaults(n0 + j));
    }
    SettleFromRefused(s, ids, i, end, pass, check0, n0, env);
  }

  /** The settlement of item `j` leaves `s` as it is and is refused. */
  ghost predicate RefusedAt(s: DbState, ids: seq<Id>, j: nat, n0: nat, env: Environment)
    requires j < |ids|
  {
    var step := Settlement(s, ids[j], env.clock(n0 + j), env.commitFaults(n0 + j));
    step.state == s && Refused(step.result)
  }

  /** A store every item of the batch would leave alone stays as it is, and every
      attempt is refused. */
  lemma {:induction false} SettleFromRefused(s: DbState, ids: seq<Id>, i: nat, end: nat, pass: nat,
                                             check0: nat, n0: nat, env: Environment)
    requires i <= end <= |ids|
    requires forall j :: i <= j < end ==> RefusedAt(s, ids, j, n0, env)
    ensures SettleFrom(s, ids, i, end, pass, check0, n0, env).0 == s
    ensures AllRefused(SettleFrom(s, ids, i, end, pass, check0, n0, env).1)
    decreases end - i
  {
    if i < end {
      assert RefusedAt(s, ids, i, n0, env);
      SettleFromRefused(s, ids, i + 1, end, pass, check0, n0, env);
      RefusedPrefix(s, ids, i, end, pass, check0, n0, env);
    }
  }

  /** One more refused attempt in front of refused ones leaves them all refused. */
  lemma RefusedPrefix(s: DbState, ids: seq<Id>, i: nat, end: nat, pass: nat, check0: nat, n0: nat, env: Environment)
    requires i < end <= |ids|
    requires RefusedAt(s, ids, i, n0, env)
    requires AllRefused(SettleFrom(s, ids, i + 1, end, pass, check0, n0, env).1)
    ensures SettleFrom(s, ids, i, end, pass, check0, n0, env).0 == SettleFrom(s, ids, i + 1, end, pass, check0, n0, env).0
    ensures AllRefused(SettleFrom(s, ids, i, end, pass, check0, n0, env).1)
  {
    var rest := SettleFrom(s, ids, i + 1, end, pass, check0, n0, env).1;
    var tr := SettleFrom(s, ids, i, end, pass, check0, n0, env).1;
    assert tr[1..] == rest;
    forall k | 0 < k < |tr|
      ensures Refused(tr[k].result)
    {
      assert tr[k] == rest[k - 1];
    }
  }

  lemma PassWhenStuck(q: Progress, env: Environment, batchSize: nat)
    requires OrderedKeys(q.state.transactions, q.state.txOrder) && q.checks <= env.shutdownAt
    requires Stuck(q.state)
    ensures var r := Pass(q, env, batchSize);
      && r.state == q.state && |q.trace| <= |r.trace| && r.trace[..|q.trace|] == q.trace
      && AllRefused(r.trace[|q.trace|..])
  {
    var r := Pass(q, env, batchSize);
    if q.passes !in env.fetchFaults {
      var ids := Batch(q.state, batchSize);
      var started := Started(|ids|, q.checks, env);
      SettleFromWhenStuck(q.state, ids, 0, started, q.passes, q.checks, |q.trace|, env);
      var settled := SettleFrom(q.state, ids, 0, started, q.passes, q.checks, |q.trace|, env);
      assert r.trace == q.trace + settled.1;
      assert r.trace[|q.trace|..] == settled.1;
    } else {
      assert r.trace[|q.trace|..] == [];
    }
  }

  /** A backlog in which every pending transaction is underfunded never drains: the
      whole run leaves the store as it was, and every settlement it starts is refused,
      pass after pass, until shutdown. */
  lemma {:induction false} RunWhenStuck(p: Progress, env: Environment, batchSize: nat)
    requires OrderedKeys(p.state.transactions, p.state.txOrder) && p.checks <= env.shutdownAt + 1
    requires Stuck(p.state)
    ensures var r := Run(p, env, batchSize);
      && r.state == p.state && |p.trace| <= |r.trace| && r.trace[..|p.trace|] == p.trace
      && AllRefused(r.trace[|p.trace|..])
    decreases env.shutdownAt + 1 - p.checks
  {
    RunUnfold(p, env, batchSize);
    var r := Run(p, env, batchSize);
    if p.checks >= env.shutdownAt {
      assert r.trace[|p.trace|..] == [];
    } else {
      var p' := p.(checks := p.checks + 1);
      var q := Pass(p', env, batchSize);
      PassWhenStuck(p', env, batchSize);
      RunWhenStuck(q, env, batchSize);
      ExtendTwice(p.trace, q.trace, r.trace);
      var a: seq<Attempt>, b: seq<Attempt> := q.trace[|p.trace|..], r.trace[|q.trace|..];
      forall k | 0 <= k < |a + b|
        ensures Refused((a + b)[k].result)
      {
        if k < |a| {
          assert (a + b)[k] == a[k];
        } else {
          assert (a + b)[k] == b[k - |a|];
        }
      }
    }
  }

  /** The worker. `log` lists the settlements it has started, with their outcomes. */
  class SweeperService {
    const db: Store
    const env: Environment
    const batchSize: nat
    var isShuttingDown: bool
    var connected: bool
    var checks: nat
    var passes: nat
    var log: seq<Attempt>

    /** The flag is set exactly when a check at or after `shutdownAt` has been made,
        and the store connection is held until then. The backlog query needs the
        transactions table to be scannable. */
    ghost predicate Valid()
      reads this, db
    {
      && OrderedKeys(db.transactions, db.txOrder)
      && (isShuttingDown <==> checks > env.shutdownAt)
      && (connected <==> !isShuttingDown)
    }

    function Now(): Progress
      reads this, db
    {
      Progress(db.State(), checks, passes, log)
    }

    constructor (db: Store, env: Environment, batchSize: nat)
      requires OrderedKeys(db.transactions, db.txOrder)
      ensures this.db == db && this.env == env && this.batchSize == batchSize
      ensures Valid() && !isShuttingDown && connected && checks == 0 && passes == 0 && log == []
    {
      this.db, this.env, this.batchSize := db, env, batchSize;
      isShuttingDown, connected := false, true;
      checks, passes, log := 0, 0, [];
    }

    /** `shutdown(signal)`: raise the flag, then release the store connection. */
    method Shutdown()
      modifies this`isShuttingDown, this`connected
      ensures isShuttingDown && !connected
    {
      isShuttingDown := true;
      connected := false;
    }

    /** One read of the flag. The signal handler, if its moment has come, runs first. */
    method ReadFlag() returns (stopping: bool)
      requires Valid()
      modifies this`isShuttingDown, this`connected, this`checks
      ensures Valid() && checks == old(checks) + 1
      ensures stopping == isShuttingDown && stopping == (old(checks) >= env.shutdownAt)
    {
      if checks == env.shutdownAt {
        Shutdown();
      }
      stopping := isShuttingDown;
      checks := checks + 1;
    }

    /** One pass of `runSweeperLoop`, after its opening check found the flag clear. */
    method RunPass()
      requires Valid() && checks <= env.shutdownAt
      modifies this`isShuttingDown, this`connected, this`checks, this`passes, this`log, db
      ensures Valid()
      ensures Now() == Pass(old(Now()), env, batchSize)
    {
      if passes in env.fetchFaults {
        // the backlog query threw: the catch logs it and the next pass follows
        passes := passes + 1;
      } else {
        var ids := Batch(db.State(), batchSize);
        CompletePass(ids);
      }
    }

    /** The rest of a pass whose backlog query returned `ids`. */
    method CompletePass(ids: seq<Id>)
      requires Valid() && checks <= env.shutdownAt && passes !in env.fetchFaults
      requires ids == Batch(db.State(), batchSize)
      modifies this`isShuttingDown, this`connected, this`checks, this`passes, this`log, db
      ensures Valid()
      ensures Now() == Pass(old(Now()), env, batchSize)
    {
      ghost var q := Now();
      SettleItems(ids);
      ghost var r := SettleBatch(q, ids, env);
      assert Now() == r;
      passes := passes + 1;
      assert Now() == r.(passes := r.passes + 1);
    }

    /** The `for` loop of a pass over the fetched `ids`: before each item a check of
        the flag, which ends the pass early once it is set. */
    method SettleItems(ids: seq<Id>)
      requires Valid() && checks <= env.shutdownAt
      modifies this`isShuttingDown, this`connected, this`checks, this`log, db
      ensures Valid()
      ensures Now() == SettleBatch(old(Now()), ids, env)
    {
      var p0, c0, n0 := passes, checks, |log|;
      ghost var s0, trace0 := db.State(), log;
      ghost var started := Started(|ids|, c0, env);
      ghost var states, results := PassTrajectory(s0, ids, started, p0, c0, n0, env);
      ghost var tr: seq<Attempt> := [];
      var i := 0;
      while i < |ids|
        invariant 0 <= i <= started
        invariant checks == c0 + i && passes == p0
        invariant Valid()
        invariant db.State() == states[i]
        invariant log == trace0 + tr && |tr| == i
        invariant forall k :: 0 <= k < i ==> tr[k] == Attempt(p0, k, c0 + k, ids[k], results[k])
      {
        var stopping := ReadFlag();
        if stopping {
          break;
        }
        SettlementKeepsScan(states[i], ids[i], env.clock(n0 + i), env.commitFaults(n0 + i));
        var result := ProcessTransaction(db, ids[i], env.clock(n0 + i), env.commitFaults(n0 + i));
        assert Settled(states[i + 1], results[i]) == Settler(env)(states[i], ids[i], n0 + i);
        var attempt := Attempt(p0, i, c0 + i, ids[i], result);
        log := log + [attempt];
        tr := tr + [attempt];
        i := i + 1;
      }
      assert tr == SettleFrom(s0, ids, 0, started, p0, c0, n0, env).1;
      assert Now() == SettleBatch(Progress(s0, c0, p0, trace0), ids, env);
    }

    /** `runSweeperLoop`: passes until a check finds the flag set. */
    method RunSweeperLoop()
      requires Valid() && checks <= env.shutdownAt + 1
      modifies this`isShuttingDown, this`connected, this`checks, this`passes, this`log, db
      ensures Valid() && isShuttingDown && !connected
      ensures Now() == Run(old(Now()), env, batchSize)
    {
      while true
        invariant Valid() && checks <= env.shutdownAt + 1
        invariant Run(Now(), env, batchSize) == Run(old(Now()), env, batchSize)
        decreases env.shutdownAt + 1 - checks
      {
        ghost var p := Now();
        var stopping := ReadFlag();
        RunUnfold(p, env, batchSize);
        if stopping {
          break;
        }
        assert Now() == p.(checks := p.checks + 1);
        RunPass();
      }
    }
  }
}
