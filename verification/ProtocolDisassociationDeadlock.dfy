/** Exactly when a disassociation that the script accepts can bring the protocol to a stop: when a worker's marker goes to
    another process than the one it is taken from, while an old hold message for it is still queued there, and another worker's
    marker may run after it. */
module ProtocolDisassociationDeadlock {
  import opened Wrappers
  import opened WorkerProtocol
  import opened ProtocolFlush
  import opened ProtocolInvariants
  import opened ProtocolOperations
  import opened ProtocolDisassociation
  import opened ProtocolRuns
  import opened ProtocolDanger
  import opened ProtocolMispairing
  import opened ProtocolProgress
  import opened ProtocolStandstill

  predicate NobodyOnHold(rows: seq<Row>) {
    forall w :: 0 <= w < |rows| ==> rows[w].status != Hold
  }

  lemma {:induction false} NobodyToWake(rows: seq<Row>, cmd: seq<seq<Message>>, k: nat)
    requires k <= |rows| && NobodyOnHold(rows)
    ensures WakeHeld(rows, cmd, k) == cmd
    decreases |rows| - k
  {
    if k < |rows| {
      NobodyToWake(rows, cmd, k + 1);
    }
  }

  // ------------------------------------------------------------------ a queue that runs without holding anybody

  /** The first n messages can run without putting anybody on hold: a hold message among them is for a blocking worker whose
      marker does not come before it. */
  predicate Passes(rows: seq<Row>, queue: seq<Message>, n: nat)
    requires n <= |queue|
  {
    forall i :: 0 <= i < n ==> PassesAt(rows, queue, i)
  }

  predicate PassesAt(rows: seq<Row>, queue: seq<Message>, i: nat)
    requires i < |queue|
  {
    match queue[i]
    case Transaction(_) => true
    case GoToOriginal(_, _) => false
    case GoOnHold(w, _) => w < |rows| && rows[w].status == Blocking && NoMarkerAmong(queue, w, i)
    case MarkBlockingToOriginal(_, original, _) => original == Active || original == Inactive
  }

  /** t is s after queue q has lost its first n messages and the workers of the markers among them their mark. */
  ghost predicate RanPast(s: World, t: World, q: nat, n: nat)
    requires q < |s.txQueue| && n <= |s.txQueue[q]|
  {
    && t == s.(rows := t.rows, txQueue := s.txQueue[q := s.txQueue[q][n..]], executed := t.executed)
    && |t.executed| == |s.executed| && |t.rows| == |s.rows| && NobodyOnHold(t.rows)
    && (forall w :: 0 <= w < |s.rows| ==> t.rows[w].process == s.rows[w].process)
    && (forall w :: 0 <= w < |s.rows| && NoMarkerAmong(s.txQueue[q], w, n) ==> t.rows[w] == s.rows[w])
    && (forall w :: 0 <= w < |s.rows| && !NoMarkerAmong(s.txQueue[q], w, n) ==> t.rows[w].status != Blocking)
  }

  lemma PassOne(s: World, q: nat)
    requires Enabled(s, TakeTransaction(q)) && NobodyOnHold(s.rows) && PassesAt(s.rows, s.txQueue[q], 0)
    ensures RanPast(s, Next(s, TakeTransaction(q)), q, 1)
  {
    var m := s.txQueue[q][0];
    if m.MarkBlockingToOriginal? && m.worker.Some? && m.worker.value < |s.rows| && s.rows[m.worker.value].status == Blocking {
      NobodyToWake(s.rows[m.worker.value := s.rows[m.worker.value].(status := m.original)], s.cmdQueue, 0);
    }
  }

  lemma PassesOn(a: seq<Row>, b: seq<Row>, queue: seq<Message>, n: nat)
    requires 0 < n <= |queue| && Passes(a, queue, n) && |a| == |b|
    requires forall w :: 0 <= w < |a| && NoMarkerAmong(queue, w, 1) ==> b[w] == a[w]
    ensures Passes(b, queue[1..], n - 1)
  {
    var rest: seq<Message> := queue[1..];
    forall i | 0 <= i < n - 1 ensures PassesAt(b, rest, i) {
      assert PassesAt(a, queue, i + 1);
      if rest[i].GoOnHold? {
        MarkersFurtherBack(queue, rest[i].target, i + 1);
      }
    }
  }

  lemma RanOneThenMore(s: World, u: World, t: World, q: nat, n: nat)
    requires q < |s.txQueue| && 0 < n <= |s.txQueue[q]| && RanPast(s, u, q, 1) && RanPast(u, t, q, n - 1)
    ensures RanPast(s, t, q, n)
  {
    var queue := s.txQueue[q];
    assert queue[1..][n - 1..] == queue[n..];
    forall w: nat | w < |s.rows| ensures NoMarkerAmong(queue, w, n) <==> NoMarkerAmong(queue, w, 1) && NoMarkerAmong(queue[1..], w, n - 1) {
      assert forall i :: 1 <= i < n ==> queue[i] == queue[1..][i - 1];
    }
  }

  lemma {:induction false} RunPast(s: World, q: nat, n: nat) returns (t: World)
    requires q < |s.txQueue| && q < |s.consuming| && q < |s.executed| && s.consuming[q] && n <= |s.txQueue[q]|
    requires NobodyOnHold(s.rows) && Passes(s.rows, s.txQueue[q], n)
    ensures Leads(s, t) && RanPast(s, t, q, n)
    decreases n
  {
    if n == 0 {
      t := s;
      LeadsNowhere(s);
      assert s.txQueue[q][0..] == s.txQueue[q];
    } else {
      var u := Next(s, TakeTransaction(q));
      assert PassesAt(s.rows, s.txQueue[q], 0);
      PassOne(s, q);
      LeadsByStep(s, TakeTransaction(q));
      PassesOn(s.rows, u.rows, s.txQueue[q], n);
      t := RunPast(u, q, n - 1);
      LeadsOn(s, u, t);
      RanOneThenMore(s, u, t, q, n);
    }
  }

  // ------------------------------------------------------------------ the stranded worker loses its mark

  /** Where the j-th marker stands. */
  function PlaceOfMarker(s: World, ps: seq<nat>, j: nat): (i: nat)
    requires j < |ps| && ps[j] < |s.txQueue|
  {
    |s.txQueue[ps[j]]| + CountOf(ps, ps[j], j)
  }

  lemma ReleasedQueuePasses(s: World, f: World, ps: seq<nat>, keys: seq<nat>, q: nat)
    requires Core(s) && ReleasedRows(s.rows, f.rows, ps, keys) && q in ps && q < |f.txQueue|
    requires ReleasedQueues(s.rows, f.rows, s.txQueue, f.txQueue, ps, keys, s.ops)
    ensures Passes(f.rows, f.txQueue[q], |f.txQueue[q]|)
  {
    NoBlockingNoMarker(s);
    forall i | 0 <= i < |f.txQueue[q]| ensures PassesAt(f.rows, f.txQueue[q], i) {
      var j := ReleasedAt(s, f, ps, keys, q, i);
      if i < |s.txQueue[q]| && s.txQueue[q][i].GoOnHold? {
        OldHoldPasses(s, f, ps, keys, q, i);
      }
    }
  }

  lemma OldHoldPasses(s: World, f: World, ps: seq<nat>, keys: seq<nat>, q: nat, i: nat)
    requires Core(s) && ReleasedRows(s.rows, f.rows, ps, keys) && q in ps && q < |f.txQueue|
    requires ReleasedQueues(s.rows, f.rows, s.txQueue, f.txQueue, ps, keys, s.ops)
    requires i < |s.txQueue[q]| && s.txQueue[q][i].GoOnHold?
    ensures i < |f.txQueue[q]| && f.txQueue[q][i] == s.txQueue[q][i] && PassesAt(f.rows, f.txQueue[q], i)
  {
    NoBlockingNoMarker(s);
    assert s.rows[s.txQueue[q][i].target].process == Some(q);
    assert forall k :: 0 <= k <= i ==> f.txQueue[q][k] == s.txQueue[q][k];
  }

  lemma MarkerRuns(s: World, f: World, ps: seq<nat>, keys: seq<nat>, j: nat, k: nat) returns (t: World)
    requires Core(s) && ReleasedRows(s.rows, f.rows, ps, keys) && |f.executed| == |s.executed| && SameElsewhere(s, f)
    requires ReleasedQueues(s.rows, f.rows, s.txQueue, f.txQueue, ps, keys, s.ops)
    requires j < |keys| && k < |keys| && MarkerNotBefore(ps, k, j) && ps[j] < |s.txQueue|
    ensures PlaceOfMarker(s, ps, j) < |f.txQueue[ps[j]]|
    ensures Leads(f, t) && RanPast(f, t, ps[j], PlaceOfMarker(s, ps, j) + 1)
    ensures t.rows[keys[j]].status != Blocking && t.rows[keys[k]].status == Blocking
  {
    var q, at := ps[j], PlaceOfMarker(s, ps, j);
    ReleasedNobodyOn(s.rows, f.rows, ps, keys);
    ReleasedMarker(s, f, ps, keys, j);
    assert q in ps;
    ReleasedQueuePasses(s, f, ps, keys, q);
    ConsumesBefore(s, q);
    t := RunPast(f, q, at + 1);
    assert !NoMarkerAmong(f.txQueue[q], keys[j], at + 1) by {
      assert IsMarkerFor(f.txQueue[q][at], keys[j]);
    }
    OtherMarkerLater(s, f, ps, keys, j, k);
    assert keys[k] in keys;
  }

  lemma ConsumesBefore(s: World, q: nat)
    requires Core(s) && q < |s.txQueue| && forall w :: 0 <= w < |s.rows| ==> !IsTemporary(s.rows[w])
    ensures s.consuming[q]
  {
  }

  lemma OtherMarkerLater(s: World, f: World, ps: seq<nat>, keys: seq<nat>, j: nat, k: nat)
    requires TxTyped(s.rows, s.txQueue) && ReleasedRows(s.rows, f.rows, ps, keys)
    requires ReleasedQueues(s.rows, f.rows, s.txQueue, f.txQueue, ps, keys, s.ops)
    requires j < |keys| && k < |keys| && MarkerNotBefore(ps, k, j) && ps[j] < |s.txQueue|
    requires PlaceOfMarker(s, ps, j) < |f.txQueue[ps[j]]|
    ensures NoMarkerAmong(f.txQueue[ps[j]], keys[k], PlaceOfMarker(s, ps, j) + 1)
  {
    var q, at := ps[j], PlaceOfMarker(s, ps, j);
    TypedIsSafe(s.rows, s.txQueue);
    forall i | 0 <= i < at + 1 ensures !IsMarkerFor(f.txQueue[q][i], keys[k]) {
      if IsMarkerFor(f.txQueue[q][i], keys[k]) {
        var l := ReleasedRealMarker(s, f, ps, keys, q, i);
        assert keys[l] == keys[k];
        assert l == k;
        CountGrows(ps, q, j, k);
      }
    }
  }

  // ------------------------------------------------------------------ and is put on hold by its old process

  lemma FirstHold(queue: seq<Message>, w: nat, i: nat) returns (k: nat)
    requires i < |queue| && queue[i].GoOnHold? && queue[i].target == w
    ensures k <= i && queue[k].GoOnHold? && queue[k].target == w
    ensures forall l :: 0 <= l < k && queue[l].GoOnHold? ==> queue[l].target != w
  {
    k := 0;
    while !(queue[k].GoOnHold? && queue[k].target == w)
      invariant k <= i
      invariant forall l :: 0 <= l < k && queue[l].GoOnHold? ==> queue[l].target != w
      decreases i - k
    {
      k := k + 1;
    }
  }

  /** A queue of transactions only, up to k. */
  predicate OnlyTransactions(queue: seq<Message>, k: nat)
    requires k <= |queue|
  {
    forall l :: 0 <= l < k ==> queue[l].Transaction?
  }

  lemma BeforeFirstHold(s: World, a: nat, h: nat, k: nat)
    requires Core(s) && (forall w :: 0 <= w < |s.rows| ==> !IsTemporary(s.rows[w]))
    requires a < |s.rows| && s.rows[a].process == Some(h) && h < |s.txQueue| && k <= |s.txQueue[h]|
    requires forall l :: 0 <= l < k && s.txQueue[h][l].GoOnHold? ==> s.txQueue[h][l].target != a
    ensures OnlyTransactions(s.txQueue[h], k)
  {
    NoBlockingNoMarker(s);
    assert forall l :: 0 <= l < |s.txQueue[h]| && s.txQueue[h][l].GoOnHold? ==> s.rows[s.txQueue[h][l].target].process == Some(h);
    assert forall l :: 0 <= l < |s.txQueue[h]| && s.txQueue[h][l].GoOnHold? ==> s.txQueue[h][l].target == a;
  }

  /** A worker that lost its mark is put on hold by its old process, behind transactions only, while another is blocking. */
  lemma HeldByOldProcess(s: World, a: nat, z: nat, h: nat, k: nat)
    requires h < |s.txQueue| && h < |s.consuming| && h < |s.executed| && h < |s.cmdQueue| && s.consuming[h] && s.outbox == []
    requires NobodyOnHold(s.rows) && a < |s.rows| && s.rows[a].status != Blocking && NobodyOn(s.rows, h)
    requires z < |s.rows| && s.rows[z].status == Blocking
    requires k < |s.txQueue[h]| && s.txQueue[h][k].GoOnHold? && s.txQueue[h][k].target == a && OnlyTransactions(s.txQueue[h], k)
    requires NoWakeUps(s.txQueue) && AllWakeUps(s.cmdQueue)
    ensures CanDeadlock(s)
  {
    var t := RunPast(s, h, k);
    assert t.rows == s.rows;
    assert t.txQueue[h][0] == s.txQueue[h][k];
    var u := Next(t, TakeTransaction(h));
    LeadsByStep(t, TakeTransaction(h));
    assert u == t.(rows := s.rows[a := s.rows[a].(status := Hold)], consuming := t.consuming[h := false],
                   txQueue := t.txQueue[h := t.txQueue[h][1..]], executed := u.executed);
    ShorterQueueNoWakeUps(s.txQueue, u.txQueue, h, k + 1);
    assert u.rows[z].status == Blocking;
    assert forall i :: 0 <= i < |u.cmdQueue[h]| ==> IsWakeUp(u.cmdQueue[h][i]);
    DrainInert(u, h);
    var v := u.(cmdQueue := u.cmdQueue[h := []]);
    ArrivalSticks(v, h);
    LeadsOn(s, t, u);
    DeadlockAhead(u, v);
    DeadlockAhead(s, u);
  }

  lemma ShorterQueueNoWakeUps(tx: seq<seq<Message>>, ty: seq<seq<Message>>, h: nat, n: nat)
    requires NoWakeUps(tx) && h < |tx| && n <= |tx[h]| && ty == tx[h := tx[h][n..]]
    ensures NoWakeUps(ty)
  {
    forall q, i | 0 <= q < |ty| && 0 <= i < |ty[q]| ensures !ty[q][i].GoToOriginal? {
      assert ty[q][i] == tx[q][if q == h then i + n else i];
    }
  }

  /** The old queue of the stranded worker: transactions only, up to its first hold message. */
  lemma OldQueue(s: World, f: World, ps: seq<nat>, keys: seq<nat>, a: nat, h: nat) returns (k: nat)
    requires Core(s) && ReleasedRows(s.rows, f.rows, ps, keys) && a in keys && a < |s.rows| && s.rows[a].process == Some(h)
    requires ReleasedQueues(s.rows, f.rows, s.txQueue, f.txQueue, ps, keys, s.ops) && HoldQueued(s.txQueue, a, h)
    ensures h < |f.txQueue| && k < |f.txQueue[h]| && f.txQueue[h][k].GoOnHold? && f.txQueue[h][k].target == a
    ensures OnlyTransactions(f.txQueue[h], k) && NobodyOn(f.rows, h)
  {
    var i :| 0 <= i < |s.txQueue[h]| && s.txQueue[h][i].GoOnHold? && s.txQueue[h][i].target == a;
    k := FirstHold(s.txQueue[h], a, i);
    BeforeFirstHold(s, a, h, k);
    ReleasedNobodyOn(s.rows, f.rows, ps, keys);
    assert h in ps;
    assert s.txQueue[h] <= f.txQueue[h];
  }

  lemma StrandedDeadlocks(s: World, f: World, ps: seq<nat>, keys: seq<nat>, j: nat)
    requires Core(s) && ReleasedRows(s.rows, f.rows, ps, keys) && SameElsewhere(s, f) && f.outbox == []
    requires ReleasedQueues(s.rows, f.rows, s.txQueue, f.txQueue, ps, keys, s.ops)
    requires Stranded(s, ps, keys, j) && ps[j] < |s.txQueue|
    ensures CanDeadlock(f)
  {
    var a := keys[j];
    var h := s.rows[a].process.value;
    var k :| 0 <= k < |keys| && MarkerNotBefore(ps, k, j);
    assert a in keys;
    var first := OldQueue(s, f, ps, keys, a, h);
    var t := MarkerRuns(s, f, ps, keys, j, k);
    assert t.txQueue[h] == f.txQueue[h];
    ReleasedNoWakeUps(s, f, ps, keys);
    ShorterQueueNoWakeUps(f.txQueue, t.txQueue, ps[j], PlaceOfMarker(s, ps, j) + 1);
    OldCommands(s, h);
    HeldByOldProcess(t, a, keys[k], h, first);
    DeadlockAhead(f, t);
  }

  lemma OldCommands(s: World, h: nat)
    requires Core(s) && h < |s.txQueue| && forall w :: 0 <= w < |s.rows| ==> !IsTemporary(s.rows[w])
    ensures AllWakeUps(s.cmdQueue) && s.consuming[h] && |s.cmdQueue| == |s.consuming| == |s.executed| == |s.txQueue|
  {
    ConsumesBefore(s, h);
  }

  lemma ReleasedNoWakeUps(s: World, f: World, ps: seq<nat>, keys: seq<nat>)
    requires TxTyped(s.rows, s.txQueue) && ReleasedRows(s.rows, f.rows, ps, keys)
    requires ReleasedQueues(s.rows, f.rows, s.txQueue, f.txQueue, ps, keys, s.ops)
    ensures NoWakeUps(f.txQueue)
  {
    forall q, i | 0 <= q < |f.txQueue| && 0 <= i < |f.txQueue[q]| ensures !f.txQueue[q][i].GoToOriginal? {
      var j := ReleasedAt(s, f, ps, keys, q, i);
    }
  }

  lemma DangerousDisassociationDeadlocks(s: World, ps: seq<nat>)
    requires Core(s) && s.outbox == [] && CanDisassociate(s, ps) && DangerousDisassociation(s, ps)
    ensures CanDeadlock(Disassociate(s, ps))
  {
    var t, f, keys := Disassociate(s, ps), Flush(Disassociate(s, ps)), KeysOf(s, ps);
    ReleaseEffect(s, ps);
    ProcessesInRange(s, ps);
    var j :| 0 <= j < |keys| && Stranded(s, ps, keys, j);
    StrandedDeadlocks(s, f, ps, keys, j);
    LeadsToFlush(t);
    DeadlockAhead(t, f);
  }

  /** After a run without danger, take any disassociation the script accepts in a settled world, its processes in any order and
      possibly named twice: it can lead to a deadlock if and only if some worker's marker goes to another process than the one
      the worker is taken from, where an old hold message for it is still queued, and another worker's marker does not come
      before it on the same queue. */
  lemma DisassociationCanDeadlockIff(s0: World, es0: seq<Event>, s: World, ps: seq<nat>)
    requires Initial(s0) && Reaches(s0, es0, s) && HarmlessRun(s0, es0)
    requires s.outbox == [] && Settled(s) && CanDisassociate(s, ps)
    ensures CanDeadlock(Disassociate(s, ps)) <==> DangerousDisassociation(s, ps)
  {
    InitialIsSafe(s0);
    RunKeepsSafeInv(s0, es0, s);
    assert Flush(s) == s;
    SettledIsCore(s);
    if DangerousDisassociation(s, ps) {
      DangerousDisassociationDeadlocks(s, ps);
    } else {
      StepKeepsSafeInv(s, StartDisassociate(ps));
      SafeCannotDeadlock(Disassociate(s, ps));
    }
  }
}
