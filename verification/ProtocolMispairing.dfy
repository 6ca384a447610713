/** When the wrong pairing of a disassociation's markers with its processes can bring the protocol to a stop.  Here: without
    danger, the disassociation leads into a safe world, whatever the order of the processes and whether or not some are named
    twice. */
module ProtocolMispairing {
  import opened Wrappers
  import opened Sequences
  import opened WorkerProtocol
  import opened ProtocolFlush
  import opened ProtocolInvariants
  import opened ProtocolOperations
  import opened ProtocolDisassociation
  import opened ProtocolSafety

  function KeysOf(s: World, ps: seq<nat>): (keys: seq<nat>)
    requires CanDisassociate(s, ps)
  {
    SortedKeys(WorkersOn(s.rows, ps), |s.rows|)
  }

  predicate HoldQueued(tx: seq<seq<Message>>, w: nat, q: nat) {
    q < |tx| && exists i :: 0 <= i < |tx[q]| && tx[q][i].GoOnHold? && tx[q][i].target == w
  }

  /** The j-th marker goes to a process other than the one its worker is taken from, an old hold message for the worker is
      still queued there, and another worker's marker does not run before the j-th. */
  predicate Stranded(s: World, ps: seq<nat>, keys: seq<nat>, j: nat) {
    && j < |keys| && j < |ps| && keys[j] < |s.rows|
    && s.rows[keys[j]].process.Some? && s.rows[keys[j]].process.value != ps[j]
    && HoldQueued(s.txQueue, keys[j], s.rows[keys[j]].process.value)
    && exists k :: 0 <= k < |keys| && MarkerNotBefore(ps, k, j)
  }

  predicate MarkerNotBefore(ps: seq<nat>, k: nat, j: nat) {
    k < |ps| && j < |ps| && k != j && (k > j || ps[k] != ps[j])
  }

  predicate DangerousDisassociation(s: World, ps: seq<nat>)
    requires CanDisassociate(s, ps)
  {
    var keys := KeysOf(s, ps);
    exists j :: 0 <= j < |keys| && Stranded(s, ps, keys, j)
  }

  // ------------------------------------------------------------------ which marker goes where

  function ReleaseMessage(rows: seq<Row>, keys: seq<nat>, op: nat, i: nat): (m: Message)
    requires forall k :: 0 <= k < |keys| ==> keys[k] < |rows|
  {
    if i < |keys| then MarkBlockingToOriginal(Some(keys[i]), rows[keys[i]].status, op)
    else MarkBlockingToOriginal(None, Active, op)
  }

  /** The markers among the first n that go to process r, in the order they are sent. */
  function MarkersTo(rows: seq<Row>, ps: seq<nat>, keys: seq<nat>, op: nat, r: nat, n: nat): (ms: seq<Message>)
    requires n <= |ps| && forall k :: 0 <= k < |keys| ==> keys[k] < |rows|
    ensures |ms| == CountOf(ps, r, n)
  {
    if n == 0 then []
    else MarkersTo(rows, ps, keys, op, r, n - 1) + if ps[n - 1] == r then [ReleaseMessage(rows, keys, op, n - 1)] else []
  }

  function CountOf(ps: seq<nat>, r: nat, n: nat): (c: nat)
    requires n <= |ps|
  {
    if n == 0 then 0 else CountOf(ps, r, n - 1) + if ps[n - 1] == r then 1 else 0
  }

  lemma {:induction false} CountGrows(ps: seq<nat>, r: nat, j: nat, n: nat)
    requires j < n <= |ps| && ps[j] == r
    ensures CountOf(ps, r, j) < CountOf(ps, r, n)
  {
    if j < n - 1 {
      CountGrows(ps, r, j, n - 1);
    }
  }

  lemma {:induction false} MarkersToHas(rows: seq<Row>, ps: seq<nat>, keys: seq<nat>, op: nat, n: nat, j: nat)
    requires j < n <= |ps| && forall k :: 0 <= k < |keys| ==> keys[k] < |rows|
    ensures CountOf(ps, ps[j], j) < |MarkersTo(rows, ps, keys, op, ps[j], n)|
    ensures MarkersTo(rows, ps, keys, op, ps[j], n)[CountOf(ps, ps[j], j)] == ReleaseMessage(rows, keys, op, j)
  {
    if j < n - 1 {
      MarkersToHas(rows, ps, keys, op, n - 1, j);
    }
  }

  lemma {:induction false} MarkersToFrom(rows: seq<Row>, ps: seq<nat>, keys: seq<nat>, op: nat, r: nat, n: nat, i: nat) returns (j: nat)
    requires n <= |ps| && forall k :: 0 <= k < |keys| ==> keys[k] < |rows|
    requires i < |MarkersTo(rows, ps, keys, op, r, n)|
    ensures j < n && ps[j] == r && CountOf(ps, r, j) == i
    ensures MarkersTo(rows, ps, keys, op, r, n)[i] == ReleaseMessage(rows, keys, op, j)
  {
    if i < |MarkersTo(rows, ps, keys, op, r, n - 1)| {
      j := MarkersToFrom(rows, ps, keys, op, r, n - 1, i);
    } else {
      j := n - 1;
    }
  }

  lemma {:induction false} ReleaseSent(rows: seq<Row>, ps: seq<nat>, keys: seq<nat>, op: nat, n: nat, r: nat)
    requires n <= |ps| && forall k :: 0 <= k < |keys| ==> keys[k] < |rows|
    ensures Sent(ReleaseActions(rows, ps, keys, op, n), r) == MarkersTo(rows, ps, keys, op, r, n)
  {
    if n > 0 {
      ReleaseSent(rows, ps, keys, op, n - 1, r);
      var step := [Publish(ps[n - 1], ReleaseMessage(rows, keys, op, n - 1))];
      SentAppend(ReleaseActions(rows, ps, keys, op, n - 1), step, r);
      assert step[1..] == [];
    }
  }

  lemma {:induction false} NoMarkersTo(rows: seq<Row>, ps: seq<nat>, keys: seq<nat>, op: nat, r: nat, n: nat)
    requires n <= |ps| && r !in ps && forall k :: 0 <= k < |keys| ==> keys[k] < |rows|
    ensures MarkersTo(rows, ps, keys, op, r, n) == []
  {
    if n > 0 {
      NoMarkersTo(rows, ps, keys, op, r, n - 1);
    }
  }

  // ------------------------------------------------------------------ what a disassociation does, however it pairs

  /** The workers keys are the different ones found on the processes ps, and b is the table without them. */
  ghost predicate ReleasedRows(a: seq<Row>, b: seq<Row>, ps: seq<nat>, keys: seq<nat>) {
    && |a| == |b| && |keys| <= |ps| && Ascending(keys)
    && (forall w :: 0 <= w < |a| ==> !IsTemporary(a[w]))
    && (forall k :: 0 <= k < |keys| ==> keys[k] < |a|)
    && (forall w :: 0 <= w < |a| && w in keys ==> b[w] == a[w].(process := None, status := Blocking))
    && (forall w :: 0 <= w < |a| && w !in keys ==> b[w] == a[w])
    && (forall w :: 0 <= w < |a| ==> (w in keys <==> a[w].process.Some? && a[w].process.value in ps))
  }

  ghost predicate ReleasedQueues(a: seq<Row>, b: seq<Row>, tx: seq<seq<Message>>, ty: seq<seq<Message>>, ps: seq<nat>, keys: seq<nat>, op: nat)
    requires forall k :: 0 <= k < |keys| ==> keys[k] < |a|
  {
    && |ty| == |tx|
    && (forall r :: 0 <= r < |tx| && r in ps ==> ty[r] == tx[r] + MarkersTo(a, ps, keys, op, r, |ps|))
    && (forall r :: 0 <= r < |tx| && r !in ps ==> ReleasedElsewhere(b, tx[r], ty[r], r, op))
  }

  ghost predicate ReleasedElsewhere(b: seq<Row>, was: seq<Message>, queue: seq<Message>, r: nat, op: nat) {
    && (NobodyOn(b, r) ==> queue == was)
    && (forall v :: 0 <= v < |b| && b[v].process == Some(r) ==> queue == was + [GoOnHold(v, op)])
  }

  lemma KeysNotMore(ids: seq<nat>, n: nat)
    ensures |SortedKeys(ids, n)| <= |ids|
  {
    SortedKeysAscend(ids, n);
    SortedKeysInRange(ids, n);
    DistinctNotMore(SortedKeys(ids, n), ids);
  }

  lemma ReleaseRowsEffect(s: World, ps: seq<nat>)
    requires Alone(s.rows) && CanDisassociate(s, ps)
    ensures ReleasedRows(s.rows, Detach(s.rows, WorkersOn(s.rows, ps)), ps, KeysOf(s, ps))
  {
    var ids := WorkersOn(s.rows, ps);
    var keys := KeysOf(s, ps);
    KeysNotMore(ids, |s.rows|);
    SortedKeysAscend(ids, |s.rows|);
    SortedKeysInRange(ids, |s.rows|);
    forall w | 0 <= w < |s.rows| ensures w in ids <==> s.rows[w].process.Some? && s.rows[w].process.value in ps {
      if w in ids {
        var i :| 0 <= i < |ids| && ids[i] == w;
        assert ps[i] in ps;
      }
      if s.rows[w].process.Some? && s.rows[w].process.value in ps {
        var i :| 0 <= i < |ps| && ps[i] == s.rows[w].process.value;
        assert ids[i] == w;
      }
    }
  }

  lemma ReleasedNobodyOn(a: seq<Row>, b: seq<Row>, ps: seq<nat>, keys: seq<nat>)
    requires Alone(a) && ReleasedRows(a, b, ps, keys)
    ensures Alone(b)
    ensures forall r :: r in ps ==> NobodyOn(b, r)
    ensures forall w :: 0 <= w < |b| ==> (b[w].status == Blocking <==> w in keys) && b[w].status != Hold
  {
    forall r, w | r in ps && 0 <= w < |b| ensures b[w].process != Some(r) {
      assert w !in keys ==> b[w] == a[w];
    }
  }

  lemma ReleaseSentTo(a: seq<Row>, b: seq<Row>, ps: seq<nat>, keys: seq<nat>, op: nat, r: nat)
    requires Alone(a) && ReleasedRows(a, b, ps, keys) && r in ps
    ensures Sent(ReleaseActions(a, ps, keys, op, |ps|) + SiblingActions(b, op, |b|), r) == MarkersTo(a, ps, keys, op, r, |ps|)
  {
    SentAppend(ReleaseActions(a, ps, keys, op, |ps|), SiblingActions(b, op, |b|), r);
    ReleaseSent(a, ps, keys, op, |ps|, r);
    ReleasedNobodyOn(a, b, ps, keys);
    assert NobodyOn(b, r);
    SiblingActionsSent(b, op, |b|, r);
  }

  lemma ReleaseSentElsewhere(a: seq<Row>, b: seq<Row>, ps: seq<nat>, keys: seq<nat>, op: nat, r: nat)
    requires Alone(a) && ReleasedRows(a, b, ps, keys) && r !in ps
    ensures var sent := Sent(ReleaseActions(a, ps, keys, op, |ps|) + SiblingActions(b, op, |b|), r);
      && (NobodyOn(b, r) ==> sent == [])
      && (forall v :: 0 <= v < |b| && b[v].process == Some(r) ==> sent == [GoOnHold(v, op)])
  {
    SentAppend(ReleaseActions(a, ps, keys, op, |ps|), SiblingActions(b, op, |b|), r);
    ReleaseSent(a, ps, keys, op, |ps|, r);
    NoMarkersTo(a, ps, keys, op, r, |ps|);
    ReleasedNobodyOn(a, b, ps, keys);
    SiblingActionsSent(b, op, |b|, r);
  }

  lemma ReleaseQueueEffect(s: World, t: World, ps: seq<nat>, keys: seq<nat>, r: nat)
    requires r < |s.txQueue| && t.txQueue == s.txQueue && Alone(s.rows) && ReleasedRows(s.rows, t.rows, ps, keys)
    requires t.outbox == ReleaseActions(s.rows, ps, keys, s.ops, |ps|) + SiblingActions(t.rows, s.ops, |t.rows|)
    ensures r in ps ==> Flush(t).txQueue[r] == s.txQueue[r] + MarkersTo(s.rows, ps, keys, s.ops, r, |ps|)
    ensures r !in ps ==> ReleasedElsewhere(t.rows, s.txQueue[r], Flush(t).txQueue[r], r, s.ops)
  {
    SendAllIsSent(s.txQueue, t.outbox);
    if r in ps {
      ReleaseSentTo(s.rows, t.rows, ps, keys, s.ops, r);
    } else {
      ReleaseSentElsewhere(s.rows, t.rows, ps, keys, s.ops, r);
    }
  }

  lemma ReleaseEffect(s: World, ps: seq<nat>)
    requires s.outbox == [] && Alone(s.rows) && CanDisassociate(s, ps)
    ensures var f, keys := Flush(Disassociate(s, ps)), KeysOf(s, ps);
      && ReleasedRows(s.rows, f.rows, ps, keys)
      && ReleasedQueues(s.rows, f.rows, s.txQueue, f.txQueue, ps, keys, s.ops)
      && SameElsewhere(s, f) && f.outbox == []
  {
    var t, keys := Disassociate(s, ps), KeysOf(s, ps);
    DisassociateForm(s, ps);
    ReleaseRowsEffect(s, ps);
    ReleaseActionsAt(s.rows, ps, keys, s.ops, |ps|);
    SiblingActionsHold(t.rows, s.ops, |t.rows|);
    AttachAllPublications(t.rows, t.outbox);
    forall r | 0 <= r < |s.txQueue|
      ensures r in ps ==> Flush(t).txQueue[r] == s.txQueue[r] + MarkersTo(s.rows, ps, keys, s.ops, r, |ps|)
      ensures r !in ps ==> ReleasedElsewhere(t.rows, s.txQueue[r], Flush(t).txQueue[r], r, s.ops)
    {
      ReleaseQueueEffect(s, t, ps, keys, r);
    }
  }

  // ------------------------------------------------------------------ without danger: a safe world

  /** Everything on a queue after the operation: an old message, the marker j, or the hold message of a sibling. */
  lemma ReleasedAt(s: World, f: World, ps: seq<nat>, keys: seq<nat>, q: nat, i: nat) returns (j: nat)
    requires ReleasedRows(s.rows, f.rows, ps, keys) && ReleasedQueues(s.rows, f.rows, s.txQueue, f.txQueue, ps, keys, s.ops)
    requires q < |f.txQueue| && i < |f.txQueue[q]|
    ensures i < |s.txQueue[q]| ==> f.txQueue[q][i] == s.txQueue[q][i]
    ensures i >= |s.txQueue[q]| ==>
      || (j < |ps| && ps[j] == q && i == |s.txQueue[q]| + CountOf(ps, q, j) && f.txQueue[q][i] == ReleaseMessage(s.rows, keys, s.ops, j))
      || (q !in ps && f.txQueue[q][i].GoOnHold? && f.txQueue[q][i].target < |f.rows| && f.rows[f.txQueue[q][i].target].process == Some(q))
  {
    j := 0;
    if i >= |s.txQueue[q]| && q in ps {
      j := MarkersToFrom(s.rows, ps, keys, s.ops, q, |ps|, i - |s.txQueue[q]|);
    }
  }

  /** The marker of the worker keys[j]. */
  lemma ReleasedMarker(s: World, f: World, ps: seq<nat>, keys: seq<nat>, j: nat)
    requires ReleasedRows(s.rows, f.rows, ps, keys) && ReleasedQueues(s.rows, f.rows, s.txQueue, f.txQueue, ps, keys, s.ops)
    requires j < |keys| && ps[j] < |s.txQueue|
    ensures MarkerStands(f.txQueue, keys[j], ps[j], |s.txQueue[ps[j]]| + CountOf(ps, ps[j], j))
  {
    MarkersToHas(s.rows, ps, keys, s.ops, |ps|, j);
    assert ps[j] in ps;
  }

  lemma TypedIsSafe(rows: seq<Row>, tx: seq<seq<Message>>)
    requires TxTyped(rows, tx)
    ensures SafeTyped(rows, tx)
  {
    forall p, i | 0 <= p < |tx| && 0 <= i < |tx[p]| ensures MessageTyped(rows, tx[p][i]) {
    }
  }

  lemma NobodyBlockingNoMarker(s: World)
    requires SafeTyped(s.rows, s.txQueue) && !AnyBlocking(s.rows)
    ensures forall p, i :: 0 <= p < |s.txQueue| && 0 <= i < |s.txQueue[p]| ==> !RealMarker(s.txQueue[p][i])
  {
    forall p, i | 0 <= p < |s.txQueue| && 0 <= i < |s.txQueue[p]| ensures !RealMarker(s.txQueue[p][i]) {
      assert MessageTyped(s.rows, s.txQueue[p][i]);
    }
  }

  /** A marker on a queue after the operation is one the operation has sent. */
  lemma ReleasedRealMarker(s: World, f: World, ps: seq<nat>, keys: seq<nat>, q: nat, i: nat) returns (j: nat)
    requires ReleasedRows(s.rows, f.rows, ps, keys) && ReleasedQueues(s.rows, f.rows, s.txQueue, f.txQueue, ps, keys, s.ops)
    requires SafeTyped(s.rows, s.txQueue)
    requires q < |f.txQueue| && i < |f.txQueue[q]| && RealMarker(f.txQueue[q][i])
    ensures j < |keys| && ps[j] == q && i == |s.txQueue[q]| + CountOf(ps, q, j) && f.txQueue[q][i] == ReleaseMessage(s.rows, keys, s.ops, j)
  {
    NobodyBlockingNoMarker(s);
    j := ReleasedAt(s, f, ps, keys, q, i);
  }

  lemma ReleasedTyped(s: World, f: World, ps: seq<nat>, keys: seq<nat>)
    requires ReleasedRows(s.rows, f.rows, ps, keys) && ReleasedQueues(s.rows, f.rows, s.txQueue, f.txQueue, ps, keys, s.ops)
    requires SafeTyped(s.rows, s.txQueue)
    ensures SafeTyped(f.rows, f.txQueue) && MarkersUnique(f.txQueue)
  {
    NobodyBlockingNoMarker(s);
    forall q, i | 0 <= q < |f.txQueue| && 0 <= i < |f.txQueue[q]| ensures MessageTyped(f.rows, f.txQueue[q][i]) {
      var j := ReleasedAt(s, f, ps, keys, q, i);
      if i < |s.txQueue[q]| {
        assert MessageTyped(s.rows, s.txQueue[q][i]);
      }
      if j < |keys| {
        assert keys[j] in keys;
      }
    }
    forall w: nat, q: nat, i: nat, r: nat, k: nat | MarkerStands(f.txQueue, w, q, i) && MarkerStands(f.txQueue, w, r, k)
      ensures q == r && i == k
    {
      var j := ReleasedRealMarker(s, f, ps, keys, q, i);
      var l := ReleasedRealMarker(s, f, ps, keys, r, k);
      assert keys[j] == keys[l];
    }
  }

  lemma ReleasedMarkerExists(s: World, f: World, ps: seq<nat>, keys: seq<nat>)
    requires ReleasedRows(s.rows, f.rows, ps, keys) && ReleasedQueues(s.rows, f.rows, s.txQueue, f.txQueue, ps, keys, s.ops)
    requires Alone(s.rows) && forall i :: 0 <= i < |ps| ==> ps[i] < |s.txQueue|
    ensures MarkerExists(f.rows, f.txQueue)
  {
    ReleasedNobodyOn(s.rows, f.rows, ps, keys);
    forall w | 0 <= w < |f.rows| && f.rows[w].status == Blocking
      ensures exists p :: 0 <= p < |f.txQueue| && MarkerFrom(f.txQueue[p], w, 0)
    {
      var j :| 0 <= j < |keys| && keys[j] == w;
      ReleasedMarker(s, f, ps, keys, j);
      assert MarkerFrom(f.txQueue[ps[j]], w, 0);
    }
  }

  /** Where the j-th marker goes home, it stands behind every old message there. */
  lemma HomeHold(s: World, f: World, ps: seq<nat>, keys: seq<nat>, j: nat, i: nat)
    requires ReleasedRows(s.rows, f.rows, ps, keys) && ReleasedQueues(s.rows, f.rows, s.txQueue, f.txQueue, ps, keys, s.ops)
    requires j < |keys| && ps[j] < |s.txQueue| && i < |s.txQueue[ps[j]]|
    ensures MarkerFrom(f.txQueue[ps[j]], keys[j], i + 1)
  {
    ReleasedMarker(s, f, ps, keys, j);
  }

  /** Where no other worker's marker may run after it, the j-th is the last. */
  lemma LastHold(s: World, f: World, ps: seq<nat>, keys: seq<nat>, j: nat)
    requires ReleasedRows(s.rows, f.rows, ps, keys) && ReleasedQueues(s.rows, f.rows, s.txQueue, f.txQueue, ps, keys, s.ops)
    requires TxTyped(s.rows, s.txQueue) && j < |keys| && ps[j] < |s.txQueue|
    requires forall k :: 0 <= k < |keys| ==> !MarkerNotBefore(ps, k, j)
    ensures LastMarker(f.txQueue, keys[j])
  {
    var at := |s.txQueue[ps[j]]| + CountOf(ps, ps[j], j);
    TypedIsSafe(s.rows, s.txQueue);
    ReleasedMarker(s, f, ps, keys, j);
    forall q, i | 0 <= q < |f.txQueue| && 0 <= i < |f.txQueue[q]| && RealMarker(f.txQueue[q][i])
      ensures q == ps[j] && i < at + 1
    {
      var k := ReleasedRealMarker(s, f, ps, keys, q, i);
      assert !MarkerNotBefore(ps, k, j);
      if k < j {
        CountGrows(ps, ps[j], k, j);
      }
    }
    assert Mute(f.txQueue, ps[j], at + 1);
  }

  lemma ReleasedHold(s: World, f: World, ps: seq<nat>, keys: seq<nat>, w: nat, q: nat, i: nat)
    requires Core(s) && ReleasedRows(s.rows, f.rows, ps, keys)
    requires ReleasedQueues(s.rows, f.rows, s.txQueue, f.txQueue, ps, keys, s.ops)
    requires forall k :: 0 <= k < |ps| ==> ps[k] < |s.txQueue|
    requires forall j :: 0 <= j < |keys| ==> !Stranded(s, ps, keys, j)
    requires q < |s.txQueue| && i < |s.txQueue[q]| && s.txQueue[q][i].GoOnHold? && s.txQueue[q][i].target == w
    ensures w < |f.rows| && HoldOk(f.rows, f.txQueue, w, q, i)
  {
    assert s.rows[w].process == Some(q);
    ReleasedNobodyOn(s.rows, f.rows, ps, keys);
    if w in keys {
      var j :| 0 <= j < |keys| && keys[j] == w;
      if ps[j] == q {
        HomeHold(s, f, ps, keys, j, i);
      } else {
        assert HoldQueued(s.txQueue, w, q);
        assert !Stranded(s, ps, keys, j);
        LastHold(s, f, ps, keys, j);
      }
    } else {
      NoMarkerWhereSomebodyStays(s, f, ps, keys, w, q);
    }
  }

  lemma NoMarkerWhereSomebodyStays(s: World, f: World, ps: seq<nat>, keys: seq<nat>, w: nat, q: nat)
    requires ReleasedRows(s.rows, f.rows, ps, keys) && ReleasedQueues(s.rows, f.rows, s.txQueue, f.txQueue, ps, keys, s.ops)
    requires Alone(s.rows) && TxTyped(s.rows, s.txQueue) && w < |f.rows| && f.rows[w].process == Some(q) && q < |f.txQueue|
    ensures forall i :: 0 <= i < |f.txQueue[q]| ==> !RealMarker(f.txQueue[q][i])
  {
    ReleasedNobodyOn(s.rows, f.rows, ps, keys);
    NoBlockingNoMarker(s);
    assert q !in ps;
  }

  lemma ReleasedHolds(s: World, f: World, ps: seq<nat>, keys: seq<nat>)
    requires Core(s) && ReleasedRows(s.rows, f.rows, ps, keys)
    requires ReleasedQueues(s.rows, f.rows, s.txQueue, f.txQueue, ps, keys, s.ops)
    requires forall k :: 0 <= k < |ps| ==> ps[k] < |s.txQueue|
    requires forall j :: 0 <= j < |keys| ==> !Stranded(s, ps, keys, j)
    ensures HoldsOk(f.rows, f.txQueue)
  {
    forall w: nat, q: nat, i: nat | HoldAt(f.txQueue, w, q, i)
      ensures w < |f.rows| && HoldOk(f.rows, f.txQueue, w, q, i)
    {
      var j := ReleasedAt(s, f, ps, keys, q, i);
      if i < |s.txQueue[q]| {
        ReleasedHold(s, f, ps, keys, w, q, i);
      } else {
        ReleasedNobodyOn(s.rows, f.rows, ps, keys);
        NoMarkerWhereSomebodyStays(s, f, ps, keys, w, q);
      }
    }
  }

  lemma ReleasedTables(s: World, f: World, ps: seq<nat>, keys: seq<nat>)
    requires Shape(s) && Alone(s.rows) && CmdTyped(s.rows, s.cmdQueue) && Consumption(s.rows, s.consuming)
    requires ReleasedRows(s.rows, f.rows, ps, keys) && SameElsewhere(s, f) && |f.txQueue| == |s.txQueue|
    ensures Shape(f) && Alone(f.rows) && CommandsOk(f.rows, f.txQueue, f.cmdQueue)
    ensures Consumption(f.rows, f.consuming) && Awake(f.rows, f.cmdQueue)
    ensures forall p :: 0 <= p < |f.consuming| ==> f.consuming[p]
  {
    ReleasedNobodyOn(s.rows, f.rows, ps, keys);
    forall p, i | 0 <= p < |f.cmdQueue| && 0 <= i < |f.cmdQueue[p]|
      ensures CommandOk(f.rows, f.txQueue, p, f.cmdQueue[p][i])
    {
    }
  }

  lemma ProcessesInRange(s: World, ps: seq<nat>)
    requires Shape(s) && CanDisassociate(s, ps)
    ensures forall k :: 0 <= k < |ps| ==> ps[k] < |s.txQueue|
  {
    forall k | 0 <= k < |ps| ensures ps[k] < |s.txQueue| {
      assert FirstOn(s.rows, ps[k], 0).Some?;
    }
  }

  lemma HarmlessDisassociation(s: World, ps: seq<nat>)
    requires Core(s) && s.outbox == [] && CanDisassociate(s, ps) && !DangerousDisassociation(s, ps)
    ensures Safe(Flush(Disassociate(s, ps)))
  {
    var f, keys := Flush(Disassociate(s, ps)), KeysOf(s, ps);
    ReleaseEffect(s, ps);
    ProcessesInRange(s, ps);
    ReleasedTables(s, f, ps, keys);
    TypedIsSafe(s.rows, s.txQueue);
    ReleasedTyped(s, f, ps, keys);
    ReleasedMarkerExists(s, f, ps, keys);
    ReleasedHolds(s, f, ps, keys);
  }

  /** Processes given in ascending order of their workers' ids are never dangerous. */
  lemma AscendingIsHarmless(s: World, ps: seq<nat>)
    requires CanDisassociate(s, ps) && Ascending(WorkersOn(s.rows, ps))
    ensures !DangerousDisassociation(s, ps)
  {
    PairingIsRightIffAscending(s.rows, WorkersOn(s.rows, ps));
  }
}
