/** Claiming rows of the transaction table by lock id, by any number of scanners at once. */
module RowLocks {
  import opened Wrappers
  import opened Sequences
  import opened Decimals

  datatype TxStatus = Submitted | Mined | OtherStatus

  datatype MetaRow = MetaRow(
    hash: string,
    uuid: string,
    clientId: nat,
    kind: nat,
    chain: nat,
    status: TxStatus,
    lock: Option<real>)

  /** One message a scanner works on. */
  datatype Job = Job(lockId: real, chain: nat, hashes: seq<string>)

  // ------------------------------------------------------------------ the lock id

  /** `parseFloat(prefix + '.' + processId)` for a process id made of digits. */
  function GetLockId(prefix: nat, processId: seq<nat>): (x: real)
    requires Digits(processId)
    ensures prefix as real <= x < prefix as real + 1.0
  {
    prefix as real + Fraction(processId)
  }

  /** Two lock ids are the same number exactly when the counters are the same and the process ids differ at most in zeros
      at the end. */
  lemma LockIdsCollideIff(p: nat, a: seq<nat>, q: nat, b: seq<nat>)
    requires Digits(a) && Digits(b)
    ensures GetLockId(p, a) == GetLockId(q, b) <==> p == q && StripZeros(a) == StripZeros(b)
  {
    FractionsEqual(a, b);
  }

  lemma ProcessesOneAndTenCollide(p: nat)
    ensures GetLockId(p, [1]) == GetLockId(p, [1, 0])
  {
    assert StripZeros([0]) == [];
    assert StripZeros([1, 0]) == [1] by {
      assert [1, 0][1..] == [0];
    }
    LockIdsCollideIff(p, [1], p, [1, 0]);
  }

  // ------------------------------------------------------------------ the table

  predicate Claimable(row: MetaRow, job: Job) {
    row.status == Submitted && row.chain == job.chain && row.hash in job.hashes && row.lock.None?
  }

  function Count(rows: seq<MetaRow>, job: Job, n: nat): (k: nat)
    requires n <= |rows|
  {
    if n == 0 then 0 else Count(rows, job, n - 1) + if Claimable(rows[n - 1], job) then 1 else 0
  }

  /** `rowsLimit || 100` */
  function RowsLimit(n: nat): (limit: nat)
  {
    if n == 0 then 100 else n
  }

  ghost predicate Picked(rows: seq<MetaRow>, job: Job, r: nat)
    requires r < |rows|
  {
    Claimable(rows[r], job) && Count(rows, job, r) < RowsLimit(|job.hashes|)
  }

  ghost function Claim(row: MetaRow, job: Job): (r: MetaRow)
  {
    row.(status := Mined, lock := Some(job.lockId))
  }

  /** The table after the claiming update, which stops at its limit. */
  ghost function Acquired(rows: seq<MetaRow>, job: Job): (r: seq<MetaRow>)
  {
    seq(|rows|, i requires 0 <= i < |rows| => if Picked(rows, job, i) then Claim(rows[i], job) else rows[i])
  }

  ghost function Released(rows: seq<MetaRow>, lockId: real): (r: seq<MetaRow>)
  {
    seq(|rows|, i requires 0 <= i < |rows| => if rows[i].lock == Some(lockId) then rows[i].(lock := None) else rows[i])
  }

  /** The rows that a read by lock id returns, in table order. */
  function LockedRows(rows: seq<MetaRow>, lockId: real, n: nat): (r: seq<MetaRow>)
    requires n <= |rows|
  {
    if n == 0 then []
    else if rows[n - 1].lock == Some(lockId) then LockedRows(rows, lockId, n - 1) + [rows[n - 1]]
    else LockedRows(rows, lockId, n - 1)
  }

  lemma {:induction false} CountGrows(rows: seq<MetaRow>, job: Job, m: nat, n: nat)
    requires m <= n <= |rows|
    ensures Count(rows, job, m) <= Count(rows, job, n)
    ensures m < n && Claimable(rows[m], job) ==> Count(rows, job, m) < Count(rows, job, n)
  {
    if m < n {
      CountGrows(rows, job, m, n - 1);
    }
  }

  /** A claiming update takes the first claimable rows of the table: whoever comes before a picked one is picked as well. */
  lemma PickedAreFirst(rows: seq<MetaRow>, job: Job, q: nat, r: nat)
    requires q < r < |rows| && Picked(rows, job, r) && Claimable(rows[q], job)
    ensures Picked(rows, job, q)
  {
    CountGrows(rows, job, q, r);
  }

  ghost function PickedBelow(rows: seq<MetaRow>, job: Job, n: nat): (r: set<nat>)
    requires n <= |rows|
  {
    set i: nat | i < n && Picked(rows, job, i)
  }

  /** It takes as many as there are, but no more than there are hashes in the message. */
  lemma {:induction false} PickedAtMost(rows: seq<MetaRow>, job: Job, n: nat)
    requires n <= |rows|
    ensures |PickedBelow(rows, job, n)| == Min(Count(rows, job, n), |job.hashes|)
  {
    if n > 0 {
      PickedAtMost(rows, job, n - 1);
      var before := PickedBelow(rows, job, n - 1);
      assert PickedBelow(rows, job, n) == before + if Picked(rows, job, n - 1) then {n - 1} else {};
      assert job.hashes == [] ==> !Claimable(rows[n - 1], job);
    }
  }

  /** A read by lock id gives the rows in table order. */
  lemma {:induction false} LockedRowsAppend(a: seq<MetaRow>, b: seq<MetaRow>, lockId: real, n: nat)
    requires n <= |b|
    ensures LockedRows(a + b, lockId, |a| + n) == LockedRows(a, lockId, |a|) + LockedRows(b, lockId, n)
  {
    if n == 0 {
      LockedRowsPrefix(a, b, lockId, |a|);
    } else {
      LockedRowsAppend(a, b, lockId, n - 1);
    }
  }

  lemma {:induction false} LockedRowsPrefix(a: seq<MetaRow>, b: seq<MetaRow>, lockId: real, n: nat)
    requires n <= |a|
    ensures LockedRows(a + b, lockId, n) == LockedRows(a, lockId, n)
  {
    if n > 0 {
      LockedRowsPrefix(a, b, lockId, n - 1);
    }
  }

  class TransactionMeta {
    var rows: seq<MetaRow>

    constructor (rows: seq<MetaRow>)
      ensures this.rows == rows
    {
      this.rows := rows;
    }

    method AcquireLock(job: Job)
      modifies this
      ensures rows == Acquired(old(rows), job)
    {
      var limit := if |job.hashes| == 0 then 100 else |job.hashes|;
      var claimed, i := 0, 0;
      while i < |rows|
        invariant 0 <= i <= |rows| == |old(rows)|
        invariant claimed == if Count(old(rows), job, i) < limit then Count(old(rows), job, i) else limit
        invariant forall r :: 0 <= r < i ==> rows[r] == Acquired(old(rows), job)[r]
        invariant forall r :: i <= r < |rows| ==> rows[r] == old(rows)[r]
      {
        if claimed < limit && Claimable(rows[i], job) {
          rows := rows[i := rows[i].(status := Mined, lock := Some(job.lockId))];
          claimed := claimed + 1;
        }
        i := i + 1;
      }
    }

    method ReleaseLock(lockId: real)
      modifies this
      ensures rows == Released(old(rows), lockId)
    {
      var i := 0;
      while i < |rows|
        invariant 0 <= i <= |rows| == |old(rows)|
        invariant forall r :: 0 <= r < i ==> rows[r] == Released(old(rows), lockId)[r]
        invariant forall r :: i <= r < |rows| ==> rows[r] == old(rows)[r]
      {
        if rows[i].lock == Some(lockId) {
          rows := rows[i := rows[i].(lock := None)];
        }
        i := i + 1;
      }
    }

    method GetByLockId(lockId: real) returns (r: seq<MetaRow>)
      ensures r == LockedRows(rows, lockId, |rows|)
    {
      r := [];
      for i := 0 to |rows|
        invariant r == LockedRows(rows, lockId, i)
      {
        if rows[i].lock == Some(lockId) {
          r := r + [rows[i]];
        }
      }
    }
  }

  // ------------------------------------------------------------------ scanners at work

  datatype Phase = Waiting | Holding | Finished

  /** claims is history: the rows each scanner's update claimed. */
  datatype Scanners = Scanners(rows: seq<MetaRow>, phases: seq<Phase>, claims: seq<set<nat>>)

  datatype Step = Acquire(scanner: nat) | Release(scanner: nat) | AcquireFails(scanner: nat)

  predicate CanStep(s: Scanners, e: Step) {
    e.scanner < |s.phases| && e.scanner < |s.claims|
    && s.phases[e.scanner] == if e.Release? then Holding else Waiting
  }

  ghost function PickedSet(rows: seq<MetaRow>, job: Job): (r: set<nat>)
  {
    set i: nat | i < |rows| && Picked(rows, job, i)
  }

  ghost function AfterStep(s: Scanners, jobs: seq<Job>, e: Step): (t: Scanners)
    requires |jobs| == |s.phases| && CanStep(s, e)
  {
    var i := e.scanner;
    match e
    case Acquire(_) => Scanners(Acquired(s.rows, jobs[i]), s.phases[i := Holding], s.claims[i := PickedSet(s.rows, jobs[i])])
    case Release(_) => s.(rows := Released(s.rows, jobs[i].lockId), phases := s.phases[i := Finished])
    case AcquireFails(_) => s.(phases := s.phases[i := Finished])
  }

  ghost predicate Interleaves(s: Scanners, jobs: seq<Job>, es: seq<Step>, t: Scanners)
    requires |jobs| == |s.phases|
    decreases |es|
  {
    if es == [] then s == t
    else CanStep(s, es[0]) && Interleaves(AfterStep(s, jobs, es[0]), jobs, es[1..], t)
  }

  ghost function ClaimableSet(rows: seq<MetaRow>, job: Job): (r: set<nat>)
  {
    set i: nat | i < |rows| && Claimable(rows[i], job)
  }

  /** Jobs with the same lock id have no claimable row between them; so it is when all the ids differ. */
  ghost predicate NoCollision(rows: seq<MetaRow>, jobs: seq<Job>) {
    forall i, j :: 0 <= i < |jobs| && 0 <= j < |jobs| && i != j && jobs[i].lockId == jobs[j].lockId ==>
      ClaimableSet(rows, jobs[i]) == {}
  }

  /** No row is locked under an id that one of the scanners will use. */
  ghost predicate NotOurs(rows: seq<MetaRow>, jobs: seq<Job>) {
    forall r, i :: 0 <= r < |rows| && 0 <= i < |jobs| ==> rows[r].lock != Some(jobs[i].lockId)
  }

  ghost function Start(rows: seq<MetaRow>, jobs: seq<Job>): (s: Scanners)
  {
    Scanners(rows, seq(|jobs|, i => Waiting), seq(|jobs|, i => {}))
  }

  ghost predicate ClaimedBySome(s: Scanners, r: nat) {
    exists i :: 0 <= i < |s.claims| && r in s.claims[i]
  }

  /** A row no scanner claimed is as it was; a claimed one was submitted and is mined now. */
  ghost predicate RowKept(was: MetaRow, s: Scanners, r: nat)
    requires r < |s.rows|
  {
    if ClaimedBySome(s, r)
    then was.status == Submitted && was.lock.None? && s.rows[r] == was.(status := Mined, lock := s.rows[r].lock)
    else s.rows[r] == was
  }

  ghost predicate ScannersFit(rows: seq<MetaRow>, jobs: seq<Job>, s: Scanners) {
    && |s.rows| == |rows| && |s.phases| == |s.claims| == |jobs|
    && (forall i, r :: 0 <= i < |jobs| && r in s.claims[i] ==> r < |rows|)
    && (forall i :: 0 <= i < |jobs| && s.phases[i] == Waiting ==> s.claims[i] == {})
  }

  ghost predicate Kept(rows: seq<MetaRow>, s: Scanners)
    requires |s.rows| == |rows|
  {
    forall r :: 0 <= r < |rows| ==> RowKept(rows[r], s, r)
  }

  ghost predicate Exclusive(s: Scanners) {
    forall i, j, r :: 0 <= i < j < |s.claims| && r in s.claims[i] ==> r !in s.claims[j]
  }

  /** A scanner's lock is on exactly the rows it claimed, while it holds them; afterwards they are free. */
  ghost predicate LocksRight(jobs: seq<Job>, s: Scanners)
    requires |s.phases| == |s.claims| == |jobs|
  {
    && (forall r, i :: 0 <= r < |s.rows| && 0 <= i < |jobs| && s.rows[r].lock == Some(jobs[i].lockId) ==> Holds(s, i, r))
    && (forall r, i :: 0 <= r < |s.rows| && 0 <= i < |jobs| && r in s.claims[i] ==> LockOf(jobs, s, i, r))
  }

  ghost predicate Holds(s: Scanners, i: nat, r: nat)
    requires i < |s.phases| == |s.claims|
  {
    s.phases[i] == Holding && r in s.claims[i]
  }

  ghost predicate LockOf(jobs: seq<Job>, s: Scanners, i: nat, r: nat)
    requires i < |s.phases| == |jobs| && r < |s.rows|
  {
    s.rows[r].lock == if s.phases[i] == Holding then Some(jobs[i].lockId) else None
  }

  ghost predicate LockInv(rows: seq<MetaRow>, jobs: seq<Job>, s: Scanners) {
    ScannersFit(rows, jobs, s) && Kept(rows, s) && Exclusive(s) && LocksRight(jobs, s)
  }

  /** What a claiming update can claim was claimed by nobody. */
  lemma PickedIsNew(rows: seq<MetaRow>, jobs: seq<Job>, s: Scanners, i: nat, r: nat)
    requires ScannersFit(rows, jobs, s) && Kept(rows, s) && i < |jobs| && r in PickedSet(s.rows, jobs[i])
    ensures !ClaimedBySome(s, r) && rows[r] == s.rows[r]
  {
    assert RowKept(rows[r], s, r);
  }

  lemma AcquireKeepsRows(rows: seq<MetaRow>, jobs: seq<Job>, s: Scanners, i: nat)
    requires ScannersFit(rows, jobs, s) && Kept(rows, s) && Exclusive(s) && CanStep(s, Acquire(i))
    ensures var t := AfterStep(s, jobs, Acquire(i)); ScannersFit(rows, jobs, t) && Kept(rows, t) && Exclusive(t)
  {
    var picked := PickedSet(s.rows, jobs[i]);
    var t := AfterStep(s, jobs, Acquire(i));
    forall r | 0 <= r < |rows|
      ensures RowKept(rows[r], t, r)
      ensures r in picked ==> !ClaimedBySome(s, r)
    {
      assert RowKept(rows[r], s, r);
      if r in picked {
        PickedIsNew(rows, jobs, s, i, r);
        assert r in t.claims[i];
      } else if j :| 0 <= j < |s.claims| && r in s.claims[j] {
        assert r in t.claims[j];
      }
    }
  }

  lemma AcquireKeepsLocks(rows: seq<MetaRow>, jobs: seq<Job>, s: Scanners, i: nat)
    requires NoCollision(rows, jobs) && LockInv(rows, jobs, s) && CanStep(s, Acquire(i))
    ensures LocksRight(jobs, AfterStep(s, jobs, Acquire(i)))
  {
    var t := AfterStep(s, jobs, Acquire(i));
    var picked := PickedSet(s.rows, jobs[i]);
    forall r, j | 0 <= r < |t.rows| && 0 <= j < |jobs|
      ensures t.rows[r].lock == Some(jobs[j].lockId) ==> Holds(t, j, r)
      ensures r in t.claims[j] ==> LockOf(jobs, t, j, r)
    {
      if r in picked {
        PickedIsNew(rows, jobs, s, i, r);
        assert t.rows[r].lock == Some(jobs[i].lockId);
      } else {
        assert t.rows[r] == s.rows[r];
        if j != i && r in s.claims[j] {
          assert LockOf(jobs, s, j, r);
        }
        if s.rows[r].lock == Some(jobs[j].lockId) {
          assert Holds(s, j, r);
        }
      }
    }
  }

  lemma ReleaseKeeps(rows: seq<MetaRow>, jobs: seq<Job>, s: Scanners, i: nat)
    requires NoCollision(rows, jobs) && LockInv(rows, jobs, s) && CanStep(s, Release(i))
    ensures LockInv(rows, jobs, AfterStep(s, jobs, Release(i)))
  {
    var t := AfterStep(s, jobs, Release(i));
    forall r, j | 0 <= r < |t.rows| && 0 <= j < |jobs|
      ensures t.rows[r].lock == Some(jobs[j].lockId) ==> Holds(t, j, r)
      ensures r in t.claims[j] ==> LockOf(jobs, t, j, r)
    {
      if s.rows[r].lock == Some(jobs[j].lockId) {
        assert Holds(s, j, r);
      }
      if r in s.claims[j] {
        assert LockOf(jobs, s, j, r);
      }
    }
    forall r | 0 <= r < |rows|
      ensures RowKept(rows[r], t, r)
    {
      assert RowKept(rows[r], s, r);
      assert ClaimedBySome(t, r) <==> ClaimedBySome(s, r);
      if s.rows[r].lock == Some(jobs[i].lockId) {
        assert Holds(s, i, r);
      }
    }
  }

  lemma FailureKeeps(rows: seq<MetaRow>, jobs: seq<Job>, s: Scanners, i: nat)
    requires LockInv(rows, jobs, s) && CanStep(s, AcquireFails(i))
    ensures LockInv(rows, jobs, AfterStep(s, jobs, AcquireFails(i)))
  {
    var t := AfterStep(s, jobs, AcquireFails(i));
    forall r | 0 <= r < |rows|
      ensures RowKept(rows[r], t, r)
    {
      assert RowKept(rows[r], s, r);
      assert ClaimedBySome(t, r) <==> ClaimedBySome(s, r);
    }
    forall r, j | 0 <= r < |t.rows| && 0 <= j < |jobs|
      ensures t.rows[r].lock == Some(jobs[j].lockId) ==> Holds(t, j, r)
      ensures r in t.claims[j] ==> LockOf(jobs, t, j, r)
    {
      if s.rows[r].lock == Some(jobs[j].lockId) {
        assert Holds(s, j, r);
      }
      if r in s.claims[j] {
        assert LockOf(jobs, s, j, r);
      }
    }
  }

  lemma StepKeepsLocks(rows: seq<MetaRow>, jobs: seq<Job>, s: Scanners, e: Step)
    requires NoCollision(rows, jobs) && LockInv(rows, jobs, s) && CanStep(s, e)
    ensures LockInv(rows, jobs, AfterStep(s, jobs, e))
  {
    match e
    case Acquire(i) => AcquireKeepsRows(rows, jobs, s, i); AcquireKeepsLocks(rows, jobs, s, i);
    case Release(i) => ReleaseKeeps(rows, jobs, s, i);
    case AcquireFails(i) => FailureKeeps(rows, jobs, s, i);
  }

  lemma {:induction false} RunKeepsLocks(rows: seq<MetaRow>, jobs: seq<Job>, s: Scanners, es: seq<Step>, t: Scanners)
    requires |jobs| == |s.phases|
    requires NoCollision(rows, jobs) && LockInv(rows, jobs, s) && Interleaves(s, jobs, es, t)
    ensures LockInv(rows, jobs, t)
    decreases |es|
  {
    if es != [] {
      StepKeepsLocks(rows, jobs, s, es[0]);
      RunKeepsLocks(rows, jobs, AfterStep(s, jobs, es[0]), es[1..], t);
    }
  }

  /** How many steps a list of scanners can still take. */
  function StepsLeft(phases: seq<Phase>): (n: nat)
  {
    if phases == [] then 0
    else
      var last := phases[|phases| - 1];
      StepsLeft(phases[..|phases| - 1]) + if last == Waiting then 2 else if last == Holding then 1 else 0
  }

  lemma {:induction false} StepsLeftDrop(phases: seq<Phase>, i: nat, now: Phase)
    requires i < |phases| && (phases[i] == Waiting ==> now != Waiting) && phases[i] != Finished && (phases[i] == Holding ==> now == Finished)
    ensures StepsLeft(phases[i := now]) < StepsLeft(phases)
  {
    var n := |phases| - 1;
    var next := phases[i := now];
    if i < n {
      assert next[..n] == phases[..n][i := now];
      StepsLeftDrop(phases[..n], i, now);
    } else {
      assert next[..n] == phases[..n];
    }
  }

  /** Every scanner claims at most once and releases what it claimed once, so that every interleaving comes to an end. */
  lemma {:induction false} EveryRunEnds(s: Scanners, jobs: seq<Job>, es: seq<Step>, t: Scanners)
    requires |jobs| == |s.phases| == |s.claims| && Interleaves(s, jobs, es, t)
    ensures |es| + StepsLeft(t.phases) <= StepsLeft(s.phases)
    decreases |es|
  {
    if es != [] {
      var u, i := AfterStep(s, jobs, es[0]), es[0].scanner;
      StepsLeftDrop(s.phases, i, u.phases[i]);
      EveryRunEnds(u, jobs, es[1..], t);
    }
  }

  lemma StartIsRight(rows: seq<MetaRow>, jobs: seq<Job>)
    requires NotOurs(rows, jobs)
    ensures LockInv(rows, jobs, Start(rows, jobs))
  {
    var s := Start(rows, jobs);
    forall r | 0 <= r < |rows|
      ensures RowKept(rows[r], s, r)
    {
      assert !ClaimedBySome(s, r);
    }
  }

  ghost function Locked(rows: seq<MetaRow>, lockId: real): (r: set<nat>)
  {
    set i: nat | i < |rows| && rows[i].lock == Some(lockId)
  }

  /** In every interleaving of scanners whose lock ids do not collide: no row is claimed twice; a claimed row went from submitted to
      mined and nothing else changed; a read by lock id returns exactly the rows the scanner claimed; a finished scanner
      leaves no row locked. */
  lemma ClaimsAreSafe(rows: seq<MetaRow>, jobs: seq<Job>, es: seq<Step>, t: Scanners, i: nat)
    requires NoCollision(rows, jobs) && NotOurs(rows, jobs)
    requires Interleaves(Start(rows, jobs), jobs, es, t) && i < |jobs|
    ensures |t.rows| == |rows| && |t.phases| == |t.claims| == |jobs|
    ensures forall j :: 0 <= j < |jobs| && j != i ==> t.claims[i] !! t.claims[j]
    ensures forall r :: 0 <= r < |rows| ==> RowKept(rows[r], t, r)
    ensures t.phases[i] == Holding ==> Locked(t.rows, jobs[i].lockId) == t.claims[i]
    ensures t.phases[i] != Holding ==> Locked(t.rows, jobs[i].lockId) == {}
    ensures t.phases[i] == Finished ==> forall r :: r in t.claims[i] ==> r < |t.rows| && t.rows[r].lock.None?
  {
    StartIsRight(rows, jobs);
    RunKeepsLocks(rows, jobs, Start(rows, jobs), es, t);
    forall r | 0 <= r < |rows| && r in t.claims[i]
      ensures LockOf(jobs, t, i, r)
    {
    }
    forall r: nat | r < |rows| && t.rows[r].lock == Some(jobs[i].lockId)
      ensures Holds(t, i, r)
    {
    }
  }

  // ------------------------------------------------------------------ a scanner gets everything that is its own

  ghost predicate UniqueHashes(rows: seq<MetaRow>) {
    forall r, q :: 0 <= r < q < |rows| ==> rows[r].hash != rows[q].hash
  }

  ghost function HashesBefore(rows: seq<MetaRow>, job: Job, n: nat): (hs: set<string>)
    requires n <= |rows|
  {
    set r | 0 <= r < n && Claimable(rows[r], job) :: rows[r].hash
  }

  lemma {:induction false} CountIsHashes(rows: seq<MetaRow>, job: Job, n: nat)
    requires UniqueHashes(rows) && n <= |rows|
    ensures Count(rows, job, n) == |HashesBefore(rows, job, n)|
  {
    if n > 0 {
      CountIsHashes(rows, job, n - 1);
      var before := HashesBefore(rows, job, n - 1);
      if Claimable(rows[n - 1], job) {
        assert HashesBefore(rows, job, n) == before + {rows[n - 1].hash};
        assert rows[n - 1].hash !in before;
      } else {
        assert HashesBefore(rows, job, n) == before;
      }
    }
  }

  /** With one row per hash, the limit of the claiming update never cuts anything off. */
  lemma EveryClaimablePicked(rows: seq<MetaRow>, job: Job, r: nat)
    requires UniqueHashes(rows) && job.hashes != [] && r < |rows|
    ensures Picked(rows, job, r) <==> Claimable(rows[r], job)
  {
    if Claimable(rows[r], job) {
      CountIsHashes(rows, job, r + 1);
      var mine := HashesBefore(rows, job, r + 1);
      var all := set h | h in job.hashes;
      assert mine <= all;
      SubsetSmaller(mine, all);
      SetOfSeq(job.hashes);
    }
  }

  ghost predicate DisjointJobs(jobs: seq<Job>) {
    forall i, j, h :: 0 <= i < j < |jobs| && h in jobs[i].hashes ==> h !in jobs[j].hashes
  }

  /** Until scanner i acquires, the rows of its hashes stay as they were; when it acquires, it gets every one that was
      claimable at the start. */
  lemma OwnRowsClaimed(rows: seq<MetaRow>, jobs: seq<Job>, s: Scanners, i: nat, r: nat)
    requires UniqueHashes(rows) && jobs != [] && LockInv(rows, jobs, s) && OwnClaims(jobs, s) && DisjointJobs(jobs)
    requires i < |jobs| && jobs[i].hashes != [] && CanStep(s, Acquire(i)) && r < |rows| && rows[r].hash in jobs[i].hashes
    ensures r in AfterStep(s, jobs, Acquire(i)).claims[i] <==> Claimable(rows[r], jobs[i])
  {
    assert RowKept(rows[r], s, r);
    assert s.rows[r].hash == rows[r].hash;
    assert forall j :: 0 <= j < |s.claims| ==> r !in s.claims[j];
    assert s.rows[r] == rows[r];
    forall q | 0 <= q < |rows|
      ensures s.rows[q].hash == rows[q].hash
    {
      assert RowKept(rows[q], s, q);
    }
    EveryClaimablePicked(s.rows, jobs[i], r);
  }

  /** Every claimed row carries a hash of its claimer's job. */
  ghost predicate OwnClaims(jobs: seq<Job>, s: Scanners)
    requires |s.claims| == |jobs|
  {
    forall i, r: nat :: 0 <= i < |jobs| && r in s.claims[i] ==> OwnClaim(jobs, s, i, r)
  }

  lemma StepKeepsOwnClaims(jobs: seq<Job>, s: Scanners, e: Step)
    requires |s.phases| == |s.claims| == |jobs| && OwnClaims(jobs, s) && CanStep(s, e)
    ensures OwnClaims(jobs, AfterStep(s, jobs, e))
  {
    var t := AfterStep(s, jobs, e);
    forall i, r: nat | 0 <= i < |jobs| && r in t.claims[i]
      ensures OwnClaim(jobs, t, i, r)
    {
      if e.Acquire? && i == e.scanner {
        assert t.claims[i] == PickedSet(s.rows, jobs[i]);
        assert Claimable(s.rows[r], jobs[i]);
      } else {
        assert OwnClaim(jobs, s, i, r);
      }
    }
  }

  ghost predicate OwnClaim(jobs: seq<Job>, s: Scanners, i: nat, r: nat)
    requires i < |jobs|
  {
    r < |s.rows| && s.rows[r].hash in jobs[i].hashes
  }

  /** Whoever holds rows got exactly the rows of its hashes that were claimable at the start. */
  ghost predicate Complete(rows: seq<MetaRow>, jobs: seq<Job>, s: Scanners)
    requires |s.phases| == |s.claims| == |jobs|
  {
    forall i :: 0 <= i < |jobs| && s.phases[i] == Holding ==> s.claims[i] == ClaimableSet(rows, jobs[i])
  }

  lemma StepKeepsComplete(rows: seq<MetaRow>, jobs: seq<Job>, s: Scanners, e: Step)
    requires UniqueHashes(rows) && LockInv(rows, jobs, s) && OwnClaims(jobs, s) && DisjointJobs(jobs)
    requires forall i :: 0 <= i < |jobs| ==> jobs[i].hashes != []
    requires CanStep(s, e) && Complete(rows, jobs, s)
    ensures Complete(rows, jobs, AfterStep(s, jobs, e))
  {
    if e.Acquire? {
      var i := e.scanner;
      forall r: nat | r < |rows|
        ensures r in AfterStep(s, jobs, e).claims[i] <==> Claimable(rows[r], jobs[i])
      {
        if rows[r].hash in jobs[i].hashes {
          OwnRowsClaimed(rows, jobs, s, i, r);
        } else {
          assert RowKept(rows[r], s, r);
        }
      }
    }
  }

  lemma {:induction false} RunKeepsComplete(rows: seq<MetaRow>, jobs: seq<Job>, s: Scanners, es: seq<Step>, t: Scanners)
    requires |jobs| == |s.phases| && NoCollision(rows, jobs)
    requires UniqueHashes(rows) && LockInv(rows, jobs, s) && OwnClaims(jobs, s) && DisjointJobs(jobs)
    requires forall i :: 0 <= i < |jobs| ==> jobs[i].hashes != []
    requires Complete(rows, jobs, s) && Interleaves(s, jobs, es, t)
    ensures LockInv(rows, jobs, t) && Complete(rows, jobs, t)
    decreases |es|
  {
    if es != [] {
      StepKeepsLocks(rows, jobs, s, es[0]);
      StepKeepsOwnClaims(jobs, s, es[0]);
      StepKeepsComplete(rows, jobs, s, es[0]);
      RunKeepsComplete(rows, jobs, AfterStep(s, jobs, es[0]), es[1..], t);
    }
  }

  /** With one row per hash and every hash in one job only, what a scanner reads under its lock does not depend on the
      interleaving: it is the rows of its own hashes that were claimable at the start. */
  lemma ReadsItsOwnRows(rows: seq<MetaRow>, jobs: seq<Job>, es: seq<Step>, t: Scanners, i: nat)
    requires NoCollision(rows, jobs) && NotOurs(rows, jobs) && UniqueHashes(rows) && DisjointJobs(jobs)
    requires forall j :: 0 <= j < |jobs| ==> jobs[j].hashes != []
    requires Interleaves(Start(rows, jobs), jobs, es, t) && i < |jobs| == |t.phases| && t.phases[i] == Holding
    ensures Locked(t.rows, jobs[i].lockId) == ClaimableSet(rows, jobs[i])
  {
    StartIsRight(rows, jobs);
    RunKeepsComplete(rows, jobs, Start(rows, jobs), es, t);
    ClaimsAreSafe(rows, jobs, es, t, i);
  }

  // ------------------------------------------------------------------ why the ids must differ

  /** In every interleaving every scanner reads exactly the rows it claimed. */
  ghost predicate ReadsRight(rows: seq<MetaRow>, jobs: seq<Job>) {
    forall es, t, i :: Interleaves(Start(rows, jobs), jobs, es, t) && 0 <= i < |jobs| ==> ReadRight(jobs, t, i)
  }

  ghost predicate ReadRight(jobs: seq<Job>, t: Scanners, i: nat)
    requires i < |jobs|
  {
    |t.phases| == |t.claims| == |jobs| && (t.phases[i] == Holding ==> Locked(t.rows, jobs[i].lockId) == t.claims[i])
  }

  /** The first row a job can claim is not cut off by the limit. */
  lemma {:induction false} FirstClaimablePicked(rows: seq<MetaRow>, job: Job, n: nat) returns (r: nat)
    requires n <= |rows| && exists i :: 0 <= i < n && Claimable(rows[i], job)
    ensures r < n && Picked(rows, job, r)
  {
    if exists i :: 0 <= i < n - 1 && Claimable(rows[i], job) {
      r := FirstClaimablePicked(rows, job, n - 1);
    } else {
      r := n - 1;
      NothingCounted(rows, job, n - 1);
    }
  }

  lemma {:induction false} NothingCounted(rows: seq<MetaRow>, job: Job, n: nat)
    requires n <= |rows| && forall i :: 0 <= i < n ==> !Claimable(rows[i], job)
    ensures Count(rows, job, n) == 0
  {
    if n > 0 {
      NothingCounted(rows, job, n - 1);
    }
  }

  /** Two scanners with one lock id, one behind the other, when the second had something to claim at the start: if it still has,
      the first reads rows it did not claim; if not, the second reads what the first took. */
  lemma CollisionMixesRows(rows: seq<MetaRow>, jobs: seq<Job>, i: nat, j: nat) returns (es: seq<Step>, t: Scanners)
    requires NotOurs(rows, jobs) && i < |jobs| && j < |jobs| && i != j && jobs[i].lockId == jobs[j].lockId
    requires ClaimableSet(rows, jobs[j]) != {}
    ensures Interleaves(Start(rows, jobs), jobs, es, t) && !(ReadRight(jobs, t, i) && ReadRight(jobs, t, j))
  {
    var s := Start(rows, jobs);
    var u := AfterStep(s, jobs, Acquire(i));
    t := AfterStep(u, jobs, Acquire(j));
    es := [Acquire(i), Acquire(j)];
    assert es[1..] == [Acquire(j)] && es[1..][1..] == [];
    assert Interleaves(t, jobs, [], t);
    assert Interleaves(u, jobs, es[1..], t);
    var r :| r in ClaimableSet(rows, jobs[j]);
    if Claimable(u.rows[r], jobs[j]) {
      var q := FirstClaimablePicked(u.rows, jobs[j], |u.rows|);
      assert t.rows[q].lock == Some(jobs[i].lockId);
      assert q in Locked(t.rows, jobs[i].lockId) && q !in t.claims[i];
    } else {
      assert r in PickedSet(rows, jobs[i]) && r !in PickedSet(u.rows, jobs[j]);
      assert t.rows[r].lock == Some(jobs[j].lockId);
      assert r in Locked(t.rows, jobs[j].lockId) && r !in t.claims[j];
    }
  }

  /** Scanners never mix up their rows if and only if no two jobs with the same lock id have a claimable row between them. */
  lemma ReadsRightIff(rows: seq<MetaRow>, jobs: seq<Job>)
    requires NotOurs(rows, jobs)
    ensures ReadsRight(rows, jobs) <==> NoCollision(rows, jobs)
  {
    if NoCollision(rows, jobs) {
      forall es, t, i | Interleaves(Start(rows, jobs), jobs, es, t) && 0 <= i < |jobs|
        ensures ReadRight(jobs, t, i)
      {
        ClaimsAreSafe(rows, jobs, es, t, i);
      }
    } else {
      var j, i :| 0 <= i < |jobs| && 0 <= j < |jobs| && i != j && jobs[j].lockId == jobs[i].lockId && ClaimableSet(rows, jobs[j]) != {};
      var es, t := CollisionMixesRows(rows, jobs, i, j);
    }
  }
}
