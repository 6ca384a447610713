/** Cutting a block into messages, classifying every message under its own lock and summing its events, in any
    interleaving and any order, comes to the same as one pass over the block. */
module ScannerEndToEnd {
  import opened Wrappers
  import opened Sequences
  import opened BatchCutting
  import opened BalanceSync
  import opened RowLocks
  import opened BlockScanning

  // ------------------------------------------------------------------ one pass

  /** What a block is scanned against: the transaction table at the start, the chain, the receipts and the known contracts. */
  datatype Scene = Scene(rows: seq<MetaRow>, chain: nat, receipts: map<string, seq<Log>>, contracts: set<string>)

  /** The transfers that count for balances in a list of transactions: those of the unknown ones. */
  ghost function UnknownTransfers(sc: Scene, hashes: seq<string>): (ts: seq<Transfer>)
  {
    Transfers(EventsOf(Unknown(sc.rows, sc.chain, hashes), sc.receipts, sc.contracts))
  }

  lemma UnknownTransfersAppend(sc: Scene, a: seq<string>, b: seq<string>)
    ensures UnknownTransfers(sc, a + b) == UnknownTransfers(sc, a) + UnknownTransfers(sc, b)
  {
    var x, y := Unknown(sc.rows, sc.chain, a), Unknown(sc.rows, sc.chain, b);
    UnknownAppend(sc.rows, sc.chain, a, b);
    EventsAppend(x, y, sc.receipts, sc.contracts);
    TransfersAppend(EventsOf(x, sc.receipts, sc.contracts), EventsOf(y, sc.receipts, sc.contracts));
  }

  ghost function Groups(sc: Scene, batches: seq<seq<string>>): (gs: seq<seq<Transfer>>)
    ensures |gs| == |batches|
  {
    seq(|batches|, k requires 0 <= k < |batches| => UnknownTransfers(sc, batches[k]))
  }

  lemma GroupsSnoc(sc: Scene, batches: seq<seq<string>>)
    requires batches != []
    ensures Groups(sc, batches) == Groups(sc, batches[..|batches| - 1]) + [UnknownTransfers(sc, batches[|batches| - 1])]
  {
  }

  lemma {:induction false} BatchwiseIsOnePass(sc: Scene, batches: seq<seq<string>>, c: string, u: string)
    ensures TotalDelta(Groups(sc, batches), c, u) == Delta(UnknownTransfers(sc, Concat(batches)), c, u)
  {
    if batches != [] {
      var init, last := batches[..|batches| - 1], batches[|batches| - 1];
      BatchwiseIsOnePass(sc, init, c, u);
      UnknownTransfersAppend(sc, Concat(init), last);
      DeltaAppend(UnknownTransfers(sc, Concat(init)), UnknownTransfers(sc, last), c, u);
      GroupsSnoc(sc, batches);
      TotalDeltaSnoc(Groups(sc, init), UnknownTransfers(sc, last), c, u);
    }
  }

  // ------------------------------------------------------------------ permutations

  ghost predicate IsPermutation(order: seq<nat>, n: nat) {
    multiset(order) == multiset(UpTo(n))
  }

  function UpTo(n: nat): (s: seq<nat>)
    ensures |s| == n && forall i :: 0 <= i < n ==> s[i] == i
  {
    seq(n, i requires 0 <= i => i)
  }

  lemma {:induction false} UpToCount(n: nat, x: nat)
    ensures multiset(UpTo(n))[x] == if x < n then 1 else 0
  {
    if n > 0 {
      UpToCount(n - 1, x);
      assert UpTo(n) == UpTo(n - 1) + [n - 1];
    }
  }

  lemma PermutationIsDistinct(order: seq<nat>, n: nat)
    requires IsPermutation(order, n)
    ensures Distinct(order) && |order| == n && Indices(order, n)
  {
    assert |multiset(order)| == |order| && |multiset(UpTo(n))| == n;
    forall k | 0 <= k < |order|
      ensures order[k] < n
    {
      assert order[k] in multiset(order);
      UpToCount(n, order[k]);
    }
    forall i, j | 0 <= i < j < |order|
      ensures order[i] != order[j]
    {
      var (a, b) := (order[..j], order[j..]);
      assert order == a + b;
      UpToCount(n, order[i]);
      assert multiset(order)[order[i]] == multiset(a)[order[i]] + multiset(b)[order[i]];
      assert a[i] in multiset(a);
      assert b[0] in multiset(b);
    }
  }

  ghost predicate Indices(order: seq<nat>, n: nat) {
    forall k :: 0 <= k < |order| ==> order[k] < n
  }

  ghost function Pick<T>(s: seq<T>, order: seq<nat>): (r: seq<T>)
    requires Indices(order, |s|)
    ensures |r| == |order|
  {
    seq(|order|, k requires 0 <= k < |order| => s[order[k]])
  }

  lemma PickWithout<T>(s: seq<T>, order: seq<nat>, i: nat)
    requires Indices(order, |s|) && i < |order|
    ensures Indices(Without(order, i), |s|)
    ensures multiset(Pick(s, order)) == multiset(Pick(s, Without(order, i))) + multiset{s[order[i]]}
  {
    assert Pick(s, Without(order, i)) == Without(Pick(s, order), i);
    MultisetWithout(Pick(s, order), i);
  }

  lemma {:induction false} PickMultiset<T>(s: seq<T>, a: seq<nat>, b: seq<nat>)
    requires Indices(a, |s|) && Indices(b, |s|) && multiset(a) == multiset(b)
    ensures multiset(Pick(s, a)) == multiset(Pick(s, b))
  {
    assert |multiset(a)| == |a| && |multiset(b)| == |b|;
    if a != [] {
      assert a[0] in multiset(a);
      var i := PlaceOf(a[0], b);
      MultisetWithout(b, i);
      MultisetWithout(a, 0);
      PickWithout(s, a, 0);
      PickWithout(s, b, i);
      PickMultiset(s, Without(a, 0), Without(b, i));
    }
  }

  /** Batches settled in any order add up to the deltas of one pass over the block. */
  lemma AnyOrderIsOnePass(sc: Scene, batches: seq<seq<string>>, order: seq<nat>, c: string, u: string)
    requires IsPermutation(order, |batches|) && Indices(order, |batches|)
    ensures TotalDelta(Pick(Groups(sc, batches), order), c, u) == Delta(UnknownTransfers(sc, Concat(batches)), c, u)
  {
    var gs := Groups(sc, batches);
    PickMultiset(gs, order, UpTo(|batches|));
    assert Pick(gs, UpTo(|batches|)) == gs;
    TotalDeltaAnyOrder(Pick(gs, order), gs, c, u);
    BatchwiseIsOnePass(sc, batches, c, u);
  }

  // ------------------------------------------------------------------ the batches of a block are disjoint

  lemma {:induction false} ConcatHas(batches: seq<seq<string>>, k: nat, h: string)
    requires k < |batches| && h in batches[k]
    ensures h in Concat(batches)
  {
    var init := batches[..|batches| - 1];
    if k < |init| {
      ConcatHas(init, k, h);
    }
  }

  lemma {:induction false} BatchesDisjoint(batches: seq<seq<string>>, i: nat, j: nat, h: string)
    requires Distinct(Concat(batches)) && i < j < |batches| && h in batches[i]
    ensures h !in batches[j]
  {
    var init, last := batches[..|batches| - 1], batches[|batches| - 1];
    var all := Concat(batches);
    assert all == Concat(init) + last;
    assert forall k :: 0 <= k < |Concat(init)| ==> Concat(init)[k] == all[k];
    if j < |init| {
      BatchesDisjoint(init, i, j, h);
    } else {
      ConcatHas(init, i, h);
      var k :| 0 <= k < |Concat(init)| && Concat(init)[k] == h;
      forall l | 0 <= l < |last|
        ensures last[l] != h
      {
        assert all[|Concat(init)| + l] == last[l];
      }
    }
  }

  // ------------------------------------------------------------------ scanners in any interleaving

  /** The jobs are the messages of the block's cut, all on one chain. */
  ghost predicate JobsOf(jobs: seq<Job>, chain: nat, batches: seq<seq<string>>) {
    |jobs| == |batches| && forall k :: 0 <= k < |jobs| ==> jobs[k].hashes == batches[k] && jobs[k].chain == chain
  }

  lemma JobsAreDisjoint(jobs: seq<Job>, chain: nat, batches: seq<seq<string>>)
    requires JobsOf(jobs, chain, batches) && Distinct(Concat(batches))
    ensures DisjointJobs(jobs)
  {
    forall i, j, h | 0 <= i < j < |jobs| && h in jobs[i].hashes
      ensures h !in jobs[j].hashes
    {
      BatchesDisjoint(batches, i, j, h);
    }
  }

  lemma CutBatchesNotEmpty(txs: seq<string>, p: real)
    requires MIN_TXS_PER_WORKER <= p <= MAX_TXS_PER_WORKER
    ensures forall k :: 0 <= k < |Cut(txs, p)| ==> 1 <= |Cut(txs, p)[k]| <= 60
  {
    forall k | 0 <= k < |Cut(txs, p)|
      ensures 1 <= |Cut(txs, p)[k]| <= 60
    {
      BatchSizes(txs, p, k);
    }
  }

  /** In every interleaving of the scanners of one block, each finds unknown exactly the hashes of its message that no row
      could be claimed for at the start. */
  lemma ClassificationIsStable(txs: seq<string>, nodes: nat, chain: nat, rows: seq<MetaRow>, jobs: seq<Job>, es: seq<Step>,
                               t: Scanners, i: nat)
    requires nodes > 0 && Distinct(txs) && UniqueHashes(rows)
    requires JobsOf(jobs, chain, Cut(txs, PerBatchCount(|txs|, nodes)))
    requires NoCollision(rows, jobs) && NotOurs(rows, jobs)
    requires Interleaves(Start(rows, jobs), jobs, es, t) && i < |jobs| == |t.phases| && t.phases[i] == Holding
    ensures HashesLeft(t.rows, jobs[i]) == Unknown(rows, chain, jobs[i].hashes)
  {
    var p := PerBatchCount(|txs|, nodes);
    CutIsComplete(txs, p);
    CutBatchesNotEmpty(txs, p);
    JobsAreDisjoint(jobs, chain, Cut(txs, p));
    ReadsItsOwnRows(rows, jobs, es, t, i);
    ClaimsAreSafe(rows, jobs, es, t, i);
    forall r | 0 <= r < |rows|
      ensures t.rows[r].hash == rows[r].hash
    {
      assert RowKept(rows[r], t, r);
    }
    LockedGivesUnknown(rows, t.rows, jobs[i]);
  }

  /** Cut a block whose hashes differ, let its scanners run interleaved in any way, each reading the table at any moment while
      it holds its lock, and settle their messages in any order: every contract and address gets exactly the deltas of one
      pass over the unknown transactions of the block. */
  lemma CuttingClassifyingSummingAgree(txs: seq<string>, nodes: nat, sc: Scene, jobs: seq<Job>, runs: seq<seq<Step>>,
                                       views: seq<Scanners>, order: seq<nat>, c: string, u: string)
    requires nodes > 0 && Distinct(txs) && UniqueHashes(sc.rows)
    requires JobsOf(jobs, sc.chain, Cut(txs, PerBatchCount(|txs|, nodes)))
    requires NoCollision(sc.rows, jobs) && NotOurs(sc.rows, jobs)
    requires |runs| == |views| == |jobs| && forall i :: 0 <= i < |jobs| ==> ReadUnderLock(sc.rows, jobs, runs[i], views[i], i)
    requires IsPermutation(order, |jobs|) && Indices(order, |jobs|)
    ensures TotalDelta(Pick(Settlements(sc, jobs, views), order), c, u) == Delta(UnknownTransfers(sc, txs), c, u)
  {
    var batches := Cut(txs, PerBatchCount(|txs|, nodes));
    forall i | 0 <= i < |jobs|
      ensures Settlements(sc, jobs, views)[i] == Groups(sc, batches)[i]
    {
      assert ReadUnderLock(sc.rows, jobs, runs[i], views[i], i);
      ClassificationIsStable(txs, nodes, sc.chain, sc.rows, jobs, runs[i], views[i], i);
    }
    assert Settlements(sc, jobs, views) == Groups(sc, batches);
    CutIsComplete(txs, PerBatchCount(|txs|, nodes));
    AnyOrderIsOnePass(sc, batches, order, c, u);
  }

  /** The transfers every scanner settles, after what it saw under its lock. */
  ghost function Settlements(sc: Scene, jobs: seq<Job>, views: seq<Scanners>): (gs: seq<seq<Transfer>>)
    requires |views| == |jobs|
    ensures |gs| == |jobs|
  {
    seq(|jobs|, i requires 0 <= i < |jobs| => Transfers(EventsOf(HashesLeft(views[i].rows, jobs[i]), sc.receipts, sc.contracts)))
  }

  ghost predicate ReadUnderLock(rows: seq<MetaRow>, jobs: seq<Job>, es: seq<Step>, t: Scanners, i: nat) {
    Interleaves(Start(rows, jobs), jobs, es, t) && i < |jobs| == |t.phases| && t.phases[i] == Holding
  }

  // ------------------------------------------------------------------ scanners one after another

  /** The rows of every hash outside the given ones are as they were, and no row is locked by one of ours. */
  ghost predicate Untouched(rows: seq<MetaRow>, now: seq<MetaRow>, jobs: seq<Job>, done: seq<nat>)
    requires Indices(done, |jobs|)
  {
    && |now| == |rows| && NotOurs(now, jobs)
    && (forall r :: 0 <= r < |rows| ==> now[r].hash == rows[r].hash)
    && (forall r :: 0 <= r < |rows| ==> now[r] == rows[r] || DoneHash(jobs, done, rows[r].hash))
  }

  ghost predicate DoneHash(jobs: seq<Job>, done: seq<nat>, h: string)
    requires Indices(done, |jobs|)
  {
    exists k :: 0 <= k < |done| && h in jobs[done[k]].hashes
  }

  lemma AcquiredAlone(now: seq<MetaRow>, jobs: seq<Job>, i: nat)
    requires UniqueHashes(now) && NotOurs(now, jobs) && i < |jobs| && jobs[i].hashes != []
    ensures Locked(Acquired(now, jobs[i]), jobs[i].lockId) == ClaimableSet(now, jobs[i])
  {
    forall r: nat | r < |now|
      ensures Acquired(now, jobs[i])[r].lock == Some(jobs[i].lockId) <==> Claimable(now[r], jobs[i])
    {
      EveryClaimablePicked(now, jobs[i], r);
    }
  }

  lemma JobDone(rows: seq<MetaRow>, now: seq<MetaRow>, jobs: seq<Job>, done: seq<nat>, i: nat)
    requires Indices(done, |jobs|)
    requires Untouched(rows, now, jobs, done) && i < |jobs|
    ensures Untouched(rows, RowsAfter(now, jobs[i]), jobs, done + [i])
  {
    var next := RowsAfter(now, jobs[i]);
    forall r | 0 <= r < |rows|
      ensures next[r].hash == rows[r].hash && (next[r] == rows[r] || DoneHash(jobs, done + [i], rows[r].hash))
      ensures next[r].lock == now[r].lock || next[r].lock == None
    {
      if Picked(now, jobs[i], r) {
        assert (done + [i])[|done|] == i;
      } else {
        assert next[r] == now[r];
        if now[r] != rows[r] {
          var k :| 0 <= k < |done| && rows[r].hash in jobs[done[k]].hashes;
          assert (done + [i])[k] == done[k];
        }
      }
    }
  }

  /** The hashes of a job still to come are as known as they were at the start. */
  lemma {:induction false} StillKnown(rows: seq<MetaRow>, now: seq<MetaRow>, chain: nat, hashes: seq<string>)
    requires |now| == |rows| && forall r :: 0 <= r < |rows| ==> now[r].hash == rows[r].hash
    requires forall r :: 0 <= r < |rows| && rows[r].hash in hashes ==> now[r] == rows[r]
    ensures Unknown(now, chain, hashes) == Unknown(rows, chain, hashes)
  {
    if hashes != [] {
      var init, h := hashes[..|hashes| - 1], hashes[|hashes| - 1];
      StillKnown(rows, now, chain, init);
      assert forall r :: 0 <= r < |rows| && rows[r].hash == h ==> now[r] == rows[r];
    }
  }

  lemma NextJobUnknown(rows: seq<MetaRow>, now: seq<MetaRow>, jobs: seq<Job>, done: seq<nat>, i: nat)
    requires Indices(done, |jobs|)
    requires UniqueHashes(rows) && DisjointJobs(jobs) && Untouched(rows, now, jobs, done)
    requires i < |jobs| && i !in done && jobs[i].hashes != []
    ensures HashesLeft(Acquired(now, jobs[i]), jobs[i]) == Unknown(rows, jobs[i].chain, jobs[i].hashes)
  {
    forall r | 0 <= r < |rows| && rows[r].hash in jobs[i].hashes
      ensures now[r] == rows[r]
    {
      assert !DoneHash(jobs, done, rows[r].hash);
    }
    StillKnown(rows, now, jobs[i].chain, jobs[i].hashes);
    AcquiredAlone(now, jobs, i);
    LockedGivesUnknown(now, Acquired(now, jobs[i]), jobs[i]);
  }

  /** Every balance of the table has moved by what the groups of transfers add up to. */
  ghost predicate Moved(was: Table, now: Table, groups: seq<seq<Transfer>>) {
    forall c, u :: BalanceIn(now, c, u) == Add(BalanceIn(was, c, u), TotalDelta(groups, c, u))
  }

  lemma MovedStep(was: Table, now: Table, next: Table, groups: seq<seq<Transfer>>, ts: seq<Transfer>)
    requires Moved(was, now, groups) && AmountsApplied(now, next, ts)
    ensures Moved(was, next, groups + [ts])
  {
    forall c, u
      ensures BalanceIn(next, c, u) == Add(BalanceIn(was, c, u), TotalDelta(groups + [ts], c, u))
    {
      MovedAt(was, now, next, groups, ts, c, u);
    }
  }

  lemma MovedAt(was: Table, now: Table, next: Table, groups: seq<seq<Transfer>>, ts: seq<Transfer>, c: string, u: string)
    requires BalanceIn(now, c, u) == Add(BalanceIn(was, c, u), TotalDelta(groups, c, u))
    requires BalanceIn(next, c, u) == Add(BalanceIn(now, c, u), Delta(ts, c, u))
    ensures BalanceIn(next, c, u) == Add(BalanceIn(was, c, u), TotalDelta(groups + [ts], c, u))
  {
    TotalDeltaSnoc(groups, ts, c, u);
  }

  /** The transaction table after the first k messages of the order. */
  ghost function TableAfter(rows: seq<MetaRow>, jobs: seq<Job>, order: seq<nat>, k: nat): (now: seq<MetaRow>)
    requires Indices(order, |jobs|) && k <= |order|
  {
    if k == 0 then rows else RowsAfter(TableAfter(rows, jobs, order, k - 1), jobs[order[k - 1]])
  }

  /** The transfers that message k of the order settles. */
  ghost function SettledBy(sc: Scene, jobs: seq<Job>, order: seq<nat>, k: nat): (ts: seq<Transfer>)
    requires Indices(order, |jobs|) && k < |order|
  {
    TransfersFound(TableAfter(sc.rows, jobs, order, k), jobs[order[k]], sc.receipts, sc.contracts)
  }

  ghost function SettledUpTo(sc: Scene, jobs: seq<Job>, order: seq<nat>, k: nat): (gs: seq<seq<Transfer>>)
    requires Indices(order, |jobs|) && k <= |order|
  {
    seq(k, i requires 0 <= i < k => SettledBy(sc, jobs, order, i))
  }

  lemma {:induction false} TableAfterUntouched(rows: seq<MetaRow>, jobs: seq<Job>, order: seq<nat>, k: nat)
    requires Indices(order, |jobs|) && k <= |order| && NotOurs(rows, jobs)
    ensures Untouched(rows, TableAfter(rows, jobs, order, k), jobs, order[..k])
  {
    if k > 0 {
      TableAfterUntouched(rows, jobs, order, k - 1);
      JobDone(rows, TableAfter(rows, jobs, order, k - 1), jobs, order[..k - 1], order[k - 1]);
      assert order[..k] == order[..k - 1] + [order[k - 1]];
    }
  }

  /** Every message settles the transfers that were unknown at the start, whichever messages came before it. */
  lemma SettledIsGroup(sc: Scene, jobs: seq<Job>, order: seq<nat>, k: nat)
    requires UniqueHashes(sc.rows) && NotOurs(sc.rows, jobs) && DisjointJobs(jobs)
    requires Distinct(order) && Indices(order, |jobs|) && k < |order|
    requires jobs[order[k]].hashes != [] && jobs[order[k]].chain == sc.chain
    ensures SettledBy(sc, jobs, order, k) == UnknownTransfers(sc, jobs[order[k]].hashes)
  {
    TableAfterUntouched(sc.rows, jobs, order, k);
    assert order[k] !in order[..k];
    NextJobUnknown(sc.rows, TableAfter(sc.rows, jobs, order, k), jobs, order[..k], order[k]);
  }

  method ScanMessage(ghost sc: Scene, jobs: seq<Job>, order: seq<nat>, k: nat, meta: TransactionMeta, balances: TokenBalances,
                     receipts: map<string, seq<Log>>, contracts: set<string>)
    requires Indices(order, |jobs|) && k < |order| && forall h :: h in jobs[order[k]].hashes ==> h in receipts
    requires receipts == sc.receipts && contracts == sc.contracts && meta.rows == TableAfter(sc.rows, jobs, order, k)
    modifies meta, balances
    ensures meta.rows == TableAfter(sc.rows, jobs, order, k + 1)
    ensures Applied(old(balances.balances), balances.balances, SettledBy(sc, jobs, order, k))
  {
    var scanner := new BlockScanner(jobs[order[k]]);
    scanner.Perform(meta, balances, receipts, contracts);
  }

  lemma NothingMoves(was: Table, groups: seq<seq<Transfer>>)
    requires groups == []
    ensures Moved(was, was, groups)
  {
  }

  lemma MovedNothing(was: Table, sc: Scene, jobs: seq<Job>, order: seq<nat>)
    requires Indices(order, |jobs|)
    ensures Moved(was, was, SettledUpTo(sc, jobs, order, 0))
  {
    NothingMoves(was, SettledUpTo(sc, jobs, order, 0));
  }

  lemma MovedOn(was: Table, now: Table, next: Table, sc: Scene, jobs: seq<Job>, order: seq<nat>, k: nat)
    requires Indices(order, |jobs|) && k < |order|
    requires Moved(was, now, SettledUpTo(sc, jobs, order, k)) && Applied(now, next, SettledBy(sc, jobs, order, k))
    ensures Moved(was, next, SettledUpTo(sc, jobs, order, k + 1))
  {
    MovedStep(was, now, next, SettledUpTo(sc, jobs, order, k), SettledBy(sc, jobs, order, k));
    assert SettledUpTo(sc, jobs, order, k + 1) == SettledUpTo(sc, jobs, order, k) + [SettledBy(sc, jobs, order, k)];
  }

  method ScanInOrder(ghost sc: Scene, jobs: seq<Job>, order: seq<nat>, meta: TransactionMeta, balances: TokenBalances,
                     receipts: map<string, seq<Log>>, contracts: set<string>)
    requires Indices(order, |jobs|) && forall i, h :: 0 <= i < |jobs| && h in jobs[i].hashes ==> h in receipts
    requires meta.rows == sc.rows && receipts == sc.receipts && contracts == sc.contracts
    modifies meta, balances
    ensures meta.rows == TableAfter(sc.rows, jobs, order, |order|)
    ensures Moved(old(balances.balances), balances.balances, SettledUpTo(sc, jobs, order, |order|))
  {
    MovedNothing(balances.balances, sc, jobs, order);
    for k := 0 to |order|
      modifies meta, balances
      invariant meta.rows == TableAfter(sc.rows, jobs, order, k)
      invariant Moved(old(balances.balances), balances.balances, SettledUpTo(sc, jobs, order, k))
    {
      ghost var now := balances.balances;
      ScanMessage(sc, jobs, order, k, meta, balances, receipts, contracts);
      MovedOn(old(balances.balances), now, balances.balances, sc, jobs, order, k);
    }
  }

  /** Scan the messages of a block one after another in the given order. */
  method ScanBlock(ghost txs: seq<string>, ghost nodes: nat, ghost sc: Scene, jobs: seq<Job>, order: seq<nat>,
                   meta: TransactionMeta, balances: TokenBalances, receipts: map<string, seq<Log>>, contracts: set<string>)
    requires nodes > 0 && Distinct(txs) && UniqueHashes(sc.rows) && NotOurs(sc.rows, jobs)
    requires JobsOf(jobs, sc.chain, Cut(txs, PerBatchCount(|txs|, nodes)))
    requires IsPermutation(order, |jobs|) && forall h :: h in txs ==> h in receipts
    requires meta.rows == sc.rows && receipts == sc.receipts && contracts == sc.contracts
    modifies meta, balances
    ensures forall c, u :: balances.Of(c, u) == Add(old(balances.Of(c, u)), Delta(UnknownTransfers(sc, txs), c, u))
  {
    PermutationIsDistinct(order, |jobs|);
    BlockReady(txs, nodes, sc.chain, jobs);
    ghost var was := balances.balances;
    ScanInOrder(sc, jobs, order, meta, balances, receipts, contracts);
    BlockSettled(txs, nodes, sc, jobs, order);
    MovedByBlock(was, balances.balances, sc, txs, nodes, order);
  }

  lemma BlockSettled(txs: seq<string>, nodes: nat, sc: Scene, jobs: seq<Job>, order: seq<nat>)
    requires nodes > 0 && Distinct(txs) && UniqueHashes(sc.rows) && NotOurs(sc.rows, jobs)
    requires JobsOf(jobs, sc.chain, Cut(txs, PerBatchCount(|txs|, nodes)))
    requires IsPermutation(order, |jobs|) && Indices(order, |jobs|)
    ensures SettledUpTo(sc, jobs, order, |order|) == Pick(Groups(sc, Cut(txs, PerBatchCount(|txs|, nodes))), order)
  {
    forall k | 0 <= k < |order|
      ensures SettledBy(sc, jobs, order, k) == UnknownTransfers(sc, Cut(txs, PerBatchCount(|txs|, nodes))[order[k]])
    {
      MessageSettled(txs, nodes, sc, jobs, order, k);
    }
    AllSettled(sc, jobs, Cut(txs, PerBatchCount(|txs|, nodes)), order);
  }

  lemma AllSettled(sc: Scene, jobs: seq<Job>, batches: seq<seq<string>>, order: seq<nat>)
    requires |batches| == |jobs| && Indices(order, |jobs|)
    requires forall k :: 0 <= k < |order| ==> SettledBy(sc, jobs, order, k) == UnknownTransfers(sc, batches[order[k]])
    ensures SettledUpTo(sc, jobs, order, |order|) == Pick(Groups(sc, batches), order)
  {
  }

  lemma MessageSettled(txs: seq<string>, nodes: nat, sc: Scene, jobs: seq<Job>, order: seq<nat>, k: nat)
    requires nodes > 0 && Distinct(txs) && UniqueHashes(sc.rows) && NotOurs(sc.rows, jobs)
    requires JobsOf(jobs, sc.chain, Cut(txs, PerBatchCount(|txs|, nodes)))
    requires IsPermutation(order, |jobs|) && Indices(order, |jobs|) && k < |order|
    ensures SettledBy(sc, jobs, order, k) == UnknownTransfers(sc, Cut(txs, PerBatchCount(|txs|, nodes))[order[k]])
  {
    PermutationIsDistinct(order, |jobs|);
    BlockReady(txs, nodes, sc.chain, jobs);
    SettledIsGroup(sc, jobs, order, k);
  }

  lemma BlockReady(txs: seq<string>, nodes: nat, chain: nat, jobs: seq<Job>)
    requires nodes > 0 && Distinct(txs) && JobsOf(jobs, chain, Cut(txs, PerBatchCount(|txs|, nodes)))
    ensures DisjointJobs(jobs)
    ensures forall i, h :: 0 <= i < |jobs| && h in jobs[i].hashes ==> h in txs
    ensures forall i :: 0 <= i < |jobs| ==> jobs[i].hashes != []
  {
    var p := PerBatchCount(|txs|, nodes);
    CutIsComplete(txs, p);
    CutBatchesNotEmpty(txs, p);
    JobsAreDisjoint(jobs, chain, Cut(txs, p));
    forall i, h | 0 <= i < |jobs| && h in jobs[i].hashes
      ensures h in txs
    {
      ConcatHas(Cut(txs, p), i, h);
    }
  }

  lemma MovedByBlock(was: Table, now: Table, sc: Scene, txs: seq<string>, nodes: nat, order: seq<nat>)
    requires nodes > 0
    requires var batches := Cut(txs, PerBatchCount(|txs|, nodes));
      IsPermutation(order, |batches|) && Indices(order, |batches|) && Moved(was, now, Pick(Groups(sc, batches), order))
    ensures forall c, u :: BalanceIn(now, c, u) == Add(BalanceIn(was, c, u), Delta(UnknownTransfers(sc, txs), c, u))
  {
    var batches := Cut(txs, PerBatchCount(|txs|, nodes));
    CutIsComplete(txs, PerBatchCount(|txs|, nodes));
    forall c, u
      ensures BalanceIn(now, c, u) == Add(BalanceIn(was, c, u), Delta(UnknownTransfers(sc, txs), c, u))
    {
      AnyOrderIsOnePass(sc, batches, order, c, u);
    }
  }
}
