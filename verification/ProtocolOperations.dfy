/** What an association and a disassociation do once all their publications are made, and that both keep the core
    invariant. */
module ProtocolOperations {
  import opened Wrappers
  import opened Sequences
  import opened WorkerProtocol
  import opened ProtocolFlush
  import opened ProtocolInvariants

  // ------------------------------------------------------------------ a transaction arrives

  function InsertAt(queue: seq<Message>, k: nat, m: Message): (r: seq<Message>)
    requires k <= |queue|
    ensures |r| == |queue| + 1
    ensures forall i :: 0 <= i < |r| && i != k ==> r[i] == queue[if i < k then i else i - 1]
    ensures r[k] == m
  {
    queue[..k] + [m] + queue[k..]
  }

  lemma ArrivalIsInsertion(s: World, p: nat, id: nat)
    requires Enabled(s, Arrive(p, id))
    ensures var f := Flush(s);
            |s.txQueue[p]| <= |f.txQueue[p]|
            && Flush(Next(s, Arrive(p, id)))
               == f.(txQueue := f.txQueue[p := InsertAt(f.txQueue[p], |s.txQueue[p]|, Transaction(id))])
  {
    var t := Next(s, Arrive(p, id));
    SendAllIsSent(s.txQueue, s.outbox);
    SendAllIsSent(t.txQueue, t.outbox);
    var f := Flush(s);
    var inserted := f.txQueue[p := InsertAt(f.txQueue[p], |s.txQueue[p]|, Transaction(id))];
    assert f.txQueue[p][..|s.txQueue[p]|] == s.txQueue[p];
    assert f.txQueue[p][|s.txQueue[p]|..] == Sent(s.outbox, p);
    assert Flush(t).txQueue == inserted;
  }

  function Arrived(tx: seq<seq<Message>>, p: nat, k: nat, id: nat): (ty: seq<seq<Message>>)
    requires p < |tx| && k <= |tx[p]|
  {
    tx[p := InsertAt(tx[p], k, Transaction(id))]
  }

  lemma InsertionKeepsCore(f: World, p: nat, k: nat, id: nat)
    requires Core(f) && p < |f.txQueue| && k <= |f.txQueue[p]|
    ensures Core(f.(txQueue := f.txQueue[p := InsertAt(f.txQueue[p], k, Transaction(id))]))
  {
    InsertionKeepsTyped(f.rows, f.txQueue, p, k, id);
    InsertionKeepsMarkersOnce(f.txQueue, p, k, id);
    InsertionKeepsMarkerExists(f.rows, f.txQueue, p, k, id);
    InsertionKeepsHoldPlaced(f, p, k, id);
    InsertionKeepsMarkersRun(f.txQueue, f.consuming, p, k, id);
  }

  lemma InsertionKeepsTyped(rows: seq<Row>, tx: seq<seq<Message>>, p: nat, k: nat, id: nat)
    requires TxTyped(rows, tx) && p < |tx| && k <= |tx[p]|
    ensures TxTyped(rows, Arrived(tx, p, k, id))
  {
  }

  lemma InsertionKeepsMarkerExists(rows: seq<Row>, tx: seq<seq<Message>>, p: nat, k: nat, id: nat)
    requires MarkerExists(rows, tx) && p < |tx| && k <= |tx[p]|
    ensures MarkerExists(rows, Arrived(tx, p, k, id))
  {
    var ty := Arrived(tx, p, k, id);
    forall w | 0 <= w < |rows| && rows[w].status == Blocking
      ensures exists q :: 0 <= q < |ty| && MarkerFrom(ty[q], w, 0)
    {
      var q :| 0 <= q < |tx| && MarkerFrom(tx[q], w, 0);
      InsertionKeepsMarkers(tx[p], k, Transaction(id), w, 0);
      assert MarkerFrom(ty[q], w, 0);
    }
  }

  lemma InsertionKeepsMarkersRun(tx: seq<seq<Message>>, consuming: seq<bool>, p: nat, k: nat, id: nat)
    requires |tx| == |consuming| && MarkersRun(tx, consuming) && p < |tx| && k <= |tx[p]|
    ensures MarkersRun(Arrived(tx, p, k, id), consuming)
  {
    InsertionKeepsAnyMarker(tx[p], k, Transaction(id), 0);
  }

  lemma InsertionKeepsMarkersOnce(was: seq<seq<Message>>, p: nat, k: nat, id: nat)
    requires MarkersOnce(was) && p < |was| && k <= |was[p]|
    ensures MarkersOnce(was[p := InsertAt(was[p], k, Transaction(id))])
  {
    var tx: seq<seq<Message>> := was[p := InsertAt(was[p], k, Transaction(id))];
    forall a, i, b, j | 0 <= a < |tx| && 0 <= i < |tx[a]| && 0 <= b < |tx| && 0 <= j < |tx[b]|
      && tx[a][i].MarkBlockingToOriginal? && tx[b][j].MarkBlockingToOriginal? && tx[a][i].worker == tx[b][j].worker
      ensures a == b && i == j
    {
      var i' := if a == p && i > k then i - 1 else i;
      var j' := if b == p && j > k then j - 1 else j;
      assert was[a][i'] == tx[a][i] && was[b][j'] == tx[b][j];
    }
  }

  lemma InsertionKeepsMarkers(queue: seq<Message>, k: nat, m: Message, w: nat, i: nat)
    requires k <= |queue| && i <= |queue| && m.Transaction?
    ensures MarkerFrom(queue, w, i) == MarkerFrom(InsertAt(queue, k, m), w, if i <= k then i else i + 1)
  {
    if MarkerFrom(queue, w, i) {
      InsertionLosesNoMarker(queue, k, m, w, i);
    }
    if MarkerFrom(InsertAt(queue, k, m), w, if i <= k then i else i + 1) {
      InsertionAddsNoMarker(queue, k, m, w, i);
    }
  }

  lemma InsertedPlaces(queue: seq<Message>, k: nat, m: Message, j: nat)
    requires k <= |queue|
    ensures j < |queue| ==> InsertAt(queue, k, m)[if j < k then j else j + 1] == queue[j]
    ensures j <= |queue| && j != k ==> InsertAt(queue, k, m)[j] == queue[if j < k then j else j - 1]
    ensures InsertAt(queue, k, m)[k] == m
  {
  }

  lemma InsertionLosesNoMarker(queue: seq<Message>, k: nat, m: Message, w: nat, i: nat)
    requires k <= |queue| && i <= |queue| && MarkerFrom(queue, w, i)
    ensures MarkerFrom(InsertAt(queue, k, m), w, if i <= k then i else i + 1)
  {
    var j :| i <= j < |queue| && IsMarkerFor(queue[j], w);
    InsertedPlaces(queue, k, m, j);
    var r: seq<Message> := InsertAt(queue, k, m);
    assert IsMarkerFor(r[if j < k then j else j + 1], w);
  }

  lemma InsertionAddsNoMarker(queue: seq<Message>, k: nat, m: Message, w: nat, i: nat)
    requires k <= |queue| && i <= |queue| && m.Transaction?
    requires MarkerFrom(InsertAt(queue, k, m), w, if i <= k then i else i + 1)
    ensures MarkerFrom(queue, w, i)
  {
    var r: seq<Message> := InsertAt(queue, k, m);
    var j :| (if i <= k then i else i + 1) <= j < |r| && IsMarkerFor(r[j], w);
    InsertedPlaces(queue, k, m, j);
    InsertedPlaces(queue, k, m, k);
    assert IsMarkerFor(queue[if j < k then j else j - 1], w);
  }

  lemma InsertionKeepsAnyMarker(queue: seq<Message>, k: nat, m: Message, i: nat)
    requires k <= |queue| && i <= |queue| && m.Transaction?
    ensures AnyMarkerFrom(queue, i) == AnyMarkerFrom(InsertAt(queue, k, m), if i <= k then i else i + 1)
  {
    var r := InsertAt(queue, k, m);
    var i' := if i <= k then i else i + 1;
    if AnyMarkerFrom(queue, i) {
      var j :| i <= j < |queue| && queue[j].MarkBlockingToOriginal?;
      assert r[if j < k then j else j + 1].MarkBlockingToOriginal?;
    }
    if AnyMarkerFrom(r, i') {
      var j :| i' <= j < |r| && r[j].MarkBlockingToOriginal?;
      assert queue[if j < k then j else j - 1].MarkBlockingToOriginal?;
    }
  }

  lemma InsertionKeepsHoldPlaced(f: World, p: nat, k: nat, id: nat)
    requires Core(f) && p < |f.txQueue| && k <= |f.txQueue[p]|
    requires TxTyped(f.rows, f.txQueue[p := InsertAt(f.txQueue[p], k, Transaction(id))])
    ensures HoldPlaced(f.rows, f.txQueue[p := InsertAt(f.txQueue[p], k, Transaction(id))])
  {
    var was := f.txQueue[p];
    var queue := InsertAt(was, k, Transaction(id));
    forall i | 0 <= i < |queue| && queue[i].GoOnHold?
      ensures var w := queue[i].target;
              if f.rows[w].status == Blocking then MarkerFrom(queue, w, i + 1)
              else f.rows[w].process == Some(p) && !AnyMarkerFrom(queue, i + 1)
    {
      var o := if i < k then i else i - 1;
      assert was[o] == queue[i];
      InsertionKeepsMarkers(was, k, Transaction(id), queue[i].target, o + 1);
      InsertionKeepsAnyMarker(was, k, Transaction(id), o + 1);
      if i < k {
        assert o + 1 <= k;
      }
    }
  }

  // ------------------------------------------------------------------ the lists an operation works through

  lemma {:induction false} AvailableMeaning(rows: seq<Row>, n: nat)
    requires n <= |rows|
    ensures forall w: nat :: w in Available(rows, n) <==> (w < n && IsAvailable(rows[w]))
    ensures Distinct(Available(rows, n))
  {
    if n > 0 {
      AvailableMeaning(rows, n - 1);
      var before := Available(rows, n - 1);
      assert forall i :: 0 <= i < |before| ==> before[i] in before;
    }
  }

  lemma {:induction false} AttachActionsRows(rows: seq<Row>, ws: seq<nat>, ps: seq<nat>, op: nat, n: nat, w: nat)
    requires n <= |ws| && n <= |ps| && Distinct(ws) && w < |rows|
    ensures forall i :: 0 <= i < n && ws[i] == w ==>
              AttachAll(rows, AttachActions(ws, ps, op, n))[w] == rows[w].(process := Some(ps[i]))
    ensures (forall i :: 0 <= i < n ==> ws[i] != w) ==> AttachAll(rows, AttachActions(ws, ps, op, n))[w] == rows[w]
  {
    if n > 0 {
      AttachActionsRows(rows, ws, ps, op, n - 1, w);
      var before := AttachActions(ws, ps, op, n - 1);
      var step := [Attach(ws[n - 1], ps[n - 1]), Publish(ps[n - 1], GoOnHold(ws[n - 1], op))];
      AttachAllAppend(rows, before, step);
      AttachAllPublications(AttachOne(AttachAll(rows, before), step[0]), step[1..]);
    }
  }

  lemma AttachStepSent(w: nat, q: nat, op: nat, p: nat)
    ensures Sent([Attach(w, q), Publish(q, GoOnHold(w, op))], p) == if q == p then [GoOnHold(w, op)] else []
  {
    var step := [Attach(w, q), Publish(q, GoOnHold(w, op))];
    assert step[1..] == [Publish(q, GoOnHold(w, op))];
    assert step[1..][1..] == [];
    assert Sent(step, p) == Sent(step[1..], p);
    assert Sent([], p) == [];
  }

  lemma AttachActionsSentStep(ws: seq<nat>, ps: seq<nat>, op: nat, n: nat, p: nat)
    requires n < |ws| && n < |ps|
    ensures Sent(AttachActions(ws, ps, op, n + 1), p)
         == Sent(AttachActions(ws, ps, op, n), p) + if ps[n] == p then [GoOnHold(ws[n], op)] else []
  {
    var step := [Attach(ws[n], ps[n]), Publish(ps[n], GoOnHold(ws[n], op))];
    SentAppend(AttachActions(ws, ps, op, n), step, p);
    AttachStepSent(ws[n], ps[n], op, p);
  }

  lemma {:induction false} AttachActionsSent(ws: seq<nat>, ps: seq<nat>, op: nat, n: nat, p: nat)
    requires n <= |ws| && n <= |ps| && Distinct(ps)
    ensures forall i :: 0 <= i < n && ps[i] == p ==> Sent(AttachActions(ws, ps, op, n), p) == [GoOnHold(ws[i], op)]
    ensures (forall i :: 0 <= i < n ==> ps[i] != p) ==> Sent(AttachActions(ws, ps, op, n), p) == []
  {
    if n == 0 {
      assert Sent([], p) == [];
    } else {
      AttachActionsSent(ws, ps, op, n - 1, p);
      AttachActionsSentStep(ws, ps, op, n - 1, p);
    }
  }

  lemma {:induction false} MarkerActionsPublish(rows: seq<Row>, op: nat, n: nat)
    requires n <= |rows|
    ensures forall i :: 0 <= i < |MarkerActions(rows, op, n)| ==> MarkerActions(rows, op, n)[i].Publish?
  {
    if n > 0 {
      MarkerActionsPublish(rows, op, n - 1);
    }
  }

  lemma {:induction false} MarkerActionsSent(rows: seq<Row>, op: nat, n: nat, p: nat)
    requires n <= |rows| && Alone(rows)
    ensures forall w :: 0 <= w < n && rows[w].process == Some(p) ==>
              Sent(MarkerActions(rows, op, n), p) == [MarkBlockingToOriginal(Some(w), rows[w].status, op)]
    ensures (forall w :: 0 <= w < n ==> rows[w].process != Some(p)) ==> Sent(MarkerActions(rows, op, n), p) == []
  {
    if n > 0 {
      MarkerActionsSent(rows, op, n - 1, p);
      if IsWorking(rows[n - 1]) {
        var q := rows[n - 1].process.value;
        assert FirstOn(rows, q, 0) == Some(n - 1);
        var step := [Publish(q, MarkBlockingToOriginal(Some(n - 1), rows[n - 1].status, op))];
        SentAppend(MarkerActions(rows, op, n - 1), step, p);
        assert step[1..] == [];
        assert q == p ==> forall w :: 0 <= w < n - 1 ==> rows[w].process != Some(p);
      }
    }
  }

  /** What an association leaves in the table: ws are the workers attached to the new processes ps. */
  ghost predicate AssociatedRows(a: seq<Row>, b: seq<Row>, ws: seq<nat>, ps: seq<nat>) {
    && |a| == |b| && |ws| == |ps| && Distinct(ws) && Distinct(ps)
    && (forall w :: 0 <= w < |a| && IsWorking(a[w]) ==>
          !IsTemporary(a[w]) && b[w] == a[w].(status := Blocking) && a[w].process.value !in ps)
    && (forall i :: 0 <= i < |ws| ==>
          ws[i] < |a| && IsAvailable(a[ws[i]]) && b[ws[i]] == a[ws[i]].(process := Some(ps[i])))
    && (forall w :: 0 <= w < |a| && !IsWorking(a[w]) && w !in ws ==> b[w] == a[w])
  }

  predicate NobodyOn(rows: seq<Row>, p: nat) {
    forall w :: 0 <= w < |rows| ==> rows[w].process != Some(p)
  }

  /** What it adds to the transaction queues: a marker for each old process, a hold message for each new one. */
  ghost predicate AssociatedQueues(a: seq<Row>, tx: seq<seq<Message>>, ty: seq<seq<Message>>, ws: seq<nat>, ps: seq<nat>, op: nat) {
    && |ty| == |tx| && |ws| == |ps|
    && (forall w :: 0 <= w < |a| && IsWorking(a[w]) && a[w].process.value < |tx| ==>
          ty[a[w].process.value] == tx[a[w].process.value] + [MarkBlockingToOriginal(Some(w), a[w].status, op)])
    && (forall i :: 0 <= i < |ps| ==> ps[i] < |tx| && ty[ps[i]] == tx[ps[i]] + [GoOnHold(ws[i], op)])
    && (forall p :: 0 <= p < |tx| && p !in ps && NobodyOn(a, p) ==> ty[p] == tx[p])
  }

  ghost predicate SameElsewhere(s: World, f: World) {
    f.cmdQueue == s.cmdQueue && f.consuming == s.consuming && f.executed == s.executed && f.ops == s.ops + 1
  }

  function UsedWorkers(rows: seq<Row>, ps: seq<nat>): (ws: seq<nat>)
    ensures |ws| == |UsedProcesses(rows, ps)|
  {
    Available(rows, |rows|)[..|UsedProcesses(rows, ps)|]
  }

  lemma AssociateHasEffect(s: World, ps: seq<nat>, allocatable: set<nat>)
    requires s.outbox == [] && Alone(s.rows) && CanAssociate(s, ps, allocatable)
    ensures var f := Flush(Associate(s, ps, allocatable));
            var used := UsedProcesses(s.rows, ps);
            var ws := UsedWorkers(s.rows, ps);
            && AssociatedRows(s.rows, f.rows, ws, used)
            && AssociatedQueues(s.rows, s.txQueue, f.txQueue, ws, used, s.ops)
            && SameElsewhere(s, f)
  {
    AssociateRowsEffect(s, ps, allocatable);
    AssociateQueuesEffect(s, ps, allocatable);
  }

  lemma AssociateRowsEffect(s: World, ps: seq<nat>, allocatable: set<nat>)
    requires s.outbox == [] && CanAssociate(s, ps, allocatable)
    ensures AssociatedRows(s.rows, Flush(Associate(s, ps, allocatable)).rows, UsedWorkers(s.rows, ps), UsedProcesses(s.rows, ps))
  {
    var used := UsedProcesses(s.rows, ps);
    var ws := UsedWorkers(s.rows, ps);
    var b := Flush(Associate(s, ps, allocatable)).rows;
    UsedWorkersMeaning(s.rows, ps);
    forall w | 0 <= w < |s.rows| && IsWorking(s.rows[w])
      ensures !IsTemporary(s.rows[w]) && b[w] == s.rows[w].(status := Blocking) && s.rows[w].process.value !in used
    {
      WorkingRowBlocked(s, ps, allocatable, w);
    }
    forall i | 0 <= i < |ws|
      ensures ws[i] < |s.rows| && IsAvailable(s.rows[ws[i]]) && b[ws[i]] == s.rows[ws[i]].(process := Some(used[i]))
    {
      AssociateRows(s, ps, allocatable, ws[i]);
    }
    forall w | 0 <= w < |s.rows| && !IsWorking(s.rows[w]) && w !in ws ensures b[w] == s.rows[w] {
      OtherRowKept(s, ps, allocatable, w);
    }
  }

  lemma UsedWorkersMeaning(rows: seq<Row>, ps: seq<nat>)
    ensures var ws := UsedWorkers(rows, ps);
      && Distinct(ws) && (forall i :: 0 <= i < |ws| ==> ws[i] == Available(rows, |rows|)[i])
      && (forall i :: 0 <= i < |ws| ==> ws[i] < |rows| && IsAvailable(rows[ws[i]]))
      && (forall i :: 0 <= i < |UsedProcesses(rows, ps)| ==> UsedProcesses(rows, ps)[i] in ps)
  {
    var avail := Available(rows, |rows|);
    AvailableMeaning(rows, |rows|);
    assert forall i :: 0 <= i < |avail| ==> avail[i] in avail;
  }

  lemma WorkingRowBlocked(s: World, ps: seq<nat>, allocatable: set<nat>, w: nat)
    requires s.outbox == [] && CanAssociate(s, ps, allocatable) && w < |s.rows| && IsWorking(s.rows[w])
    ensures !IsTemporary(s.rows[w]) && s.rows[w].process.value !in UsedProcesses(s.rows, ps)
    ensures Flush(Associate(s, ps, allocatable)).rows[w] == s.rows[w].(status := Blocking)
  {
    UsedWorkersMeaning(s.rows, ps);
    AssociateRows(s, ps, allocatable, w);
  }

  lemma OtherRowKept(s: World, ps: seq<nat>, allocatable: set<nat>, w: nat)
    requires s.outbox == [] && CanAssociate(s, ps, allocatable) && w < |s.rows| && !IsWorking(s.rows[w])
    requires w !in UsedWorkers(s.rows, ps)
    ensures Flush(Associate(s, ps, allocatable)).rows[w] == s.rows[w]
  {
    var ws := UsedWorkers(s.rows, ps);
    assert forall i :: 0 <= i < |ws| ==> ws[i] in ws;
    AssociateRows(s, ps, allocatable, w);
  }

  lemma AssociateQueuesEffect(s: World, ps: seq<nat>, allocatable: set<nat>)
    requires s.outbox == [] && Alone(s.rows) && CanAssociate(s, ps, allocatable)
    ensures AssociatedQueues(s.rows, s.txQueue, Flush(Associate(s, ps, allocatable)).txQueue,
                             UsedWorkers(s.rows, ps), UsedProcesses(s.rows, ps), s.ops)
  {
    var used := UsedProcesses(s.rows, ps);
    var ty := Flush(Associate(s, ps, allocatable)).txQueue;
    forall w | 0 <= w < |s.rows| && IsWorking(s.rows[w]) && s.rows[w].process.value < |s.txQueue|
      ensures ty[s.rows[w].process.value]
           == s.txQueue[s.rows[w].process.value] + [MarkBlockingToOriginal(Some(w), s.rows[w].status, s.ops)]
    {
      AssociateQueue(s, ps, allocatable, s.rows[w].process.value);
    }
    forall i | 0 <= i < |used|
      ensures used[i] < |s.txQueue| && ty[used[i]] == s.txQueue[used[i]] + [GoOnHold(UsedWorkers(s.rows, ps)[i], s.ops)]
    {
      assert used[i] in used;
      AssociateQueue(s, ps, allocatable, used[i]);
    }
    forall p | 0 <= p < |s.txQueue| && p !in used && NobodyOn(s.rows, p) ensures ty[p] == s.txQueue[p] {
      AssociateQueue(s, ps, allocatable, p);
    }
  }

  lemma AssociateRows(s: World, ps: seq<nat>, allocatable: set<nat>, w: nat)
    requires s.outbox == [] && CanAssociate(s, ps, allocatable) && w < |s.rows|
    ensures var used := UsedProcesses(s.rows, ps);
            var avail := Available(s.rows, |s.rows|);
            var t := Associate(s, ps, allocatable);
            && |used| <= |avail|
            && (forall i :: 0 <= i < |used| && avail[i] == w ==> Flush(t).rows[w] == t.rows[w].(process := Some(used[i])))
            && ((forall i :: 0 <= i < |used| ==> avail[i] != w) ==> Flush(t).rows[w] == t.rows[w])
  {
    var used := UsedProcesses(s.rows, ps);
    var avail := Available(s.rows, |s.rows|);
    var t := Associate(s, ps, allocatable);
    var attach := AttachActions(avail, used, s.ops, |used|);
    var markers := MarkerActions(s.rows, s.ops, |s.rows|);
    AvailableMeaning(s.rows, |s.rows|);
    assert t.outbox == attach + markers;
    AttachActionsRows(t.rows, avail, used, s.ops, |used|, w);
    MarkerActionsPublish(s.rows, s.ops, |s.rows|);
    AttachAllAppend(t.rows, attach, markers);
    AttachAllPublications(AttachAll(t.rows, attach), markers);
  }

  lemma AssociateQueue(s: World, ps: seq<nat>, allocatable: set<nat>, p: nat)
    requires s.outbox == [] && Alone(s.rows) && CanAssociate(s, ps, allocatable) && p < |s.txQueue|
    ensures var used := UsedProcesses(s.rows, ps);
            var avail := Available(s.rows, |s.rows|);
            var queue := Flush(Associate(s, ps, allocatable)).txQueue[p];
            && |used| <= |avail|
            && (forall i :: 0 <= i < |used| && used[i] == p ==> queue == s.txQueue[p] + [GoOnHold(avail[i], s.ops)])
            && (forall w :: 0 <= w < |s.rows| && s.rows[w].process == Some(p) ==>
                  queue == s.txQueue[p] + [MarkBlockingToOriginal(Some(w), s.rows[w].status, s.ops)])
            && (p !in used && (forall w :: 0 <= w < |s.rows| ==> s.rows[w].process != Some(p)) ==> queue == s.txQueue[p])
  {
    var used := UsedProcesses(s.rows, ps);
    AssociateSent(s, ps, allocatable, p);
    AttachActionsSent(Available(s.rows, |s.rows|), used, s.ops, |used|, p);
    MarkerActionsSent(s.rows, s.ops, |s.rows|, p);
    assert forall i :: 0 <= i < |used| ==> used[i] in used && used[i] in ps;
  }

  /** What an association sends to process p. */
  lemma AssociateSent(s: World, ps: seq<nat>, allocatable: set<nat>, p: nat)
    requires s.outbox == [] && CanAssociate(s, ps, allocatable) && p < |s.txQueue|
    ensures var used := UsedProcesses(s.rows, ps);
            var avail := Available(s.rows, |s.rows|);
            && |used| <= |avail|
            && Flush(Associate(s, ps, allocatable)).txQueue[p]
               == s.txQueue[p] + (Sent(AttachActions(avail, used, s.ops, |used|), p) + Sent(MarkerActions(s.rows, s.ops, |s.rows|), p))
  {
    var used := UsedProcesses(s.rows, ps);
    var t := Associate(s, ps, allocatable);
    var attach := AttachActions(Available(s.rows, |s.rows|), used, s.ops, |used|);
    var markers := MarkerActions(s.rows, s.ops, |s.rows|);
    assert t.outbox == attach + markers;
    SendAllIsSent(s.txQueue, t.outbox);
    SentAppend(attach, markers, p);
  }

  lemma AssociateKeepsTables(s: World, f: World, ws: seq<nat>, ps: seq<nat>)
    requires Shape(s) && Alone(s.rows) && CmdTyped(s.rows, s.cmdQueue) && Consumption(s.rows, s.consuming)
    requires AssociatedRows(s.rows, f.rows, ws, ps) && |s.txQueue| == |f.txQueue| && SameElsewhere(s, f)
    requires forall i :: 0 <= i < |ps| ==> ps[i] < |s.txQueue|
    requires NoStaleWakeUp(s.cmdQueue, ws, ps)
    ensures Shape(f) && Alone(f.rows) && CmdTyped(f.rows, f.cmdQueue) && Consumption(f.rows, f.consuming)
    ensures forall p :: 0 <= p < |f.consuming| ==> f.consuming[p]
    ensures Awake(f.rows, f.cmdQueue)
  {
    forall w | 0 <= w < |s.rows| ensures s.rows[w].status != Hold && f.rows[w].status != Hold {
      if w in ws {
        var i :| 0 <= i < |ws| && ws[i] == w;
      }
    }
    forall w | 0 <= w < |f.rows| && f.rows[w].process.Some?
      ensures f.rows[w].process == s.rows[w].process || exists i :: 0 <= i < |ws| && ws[i] == w && f.rows[w].process == Some(ps[i])
    {
      if w in ws {
        var i :| 0 <= i < |ws| && ws[i] == w;
      }
    }
  }

  /** No wake-up for a worker about to be attached waits on the command queue of another process. */
  predicate NoStaleWakeUp(cmd: seq<seq<Message>>, ws: seq<nat>, ps: seq<nat>)
    requires |ws| == |ps|
  {
    forall p, j, i :: 0 <= p < |cmd| && 0 <= j < |cmd[p]| && 0 <= i < |ws| ==>
      cmd[p][j].GoToOriginal? && cmd[p][j].target == ws[i] ==> ps[i] == p
  }

  /** m is the message an association publishes to process p. */
  ghost predicate Announced(a: seq<Row>, ws: seq<nat>, ps: seq<nat>, op: nat, p: nat, m: Message)
    requires |ws| == |ps|
  {
    || (m.GoOnHold? && m.op == op && exists i :: 0 <= i < |ps| && ps[i] == p && ws[i] == m.target)
    || (m.MarkBlockingToOriginal? && m.op == op && m.worker.Some? && m.worker.value < |a|
        && a[m.worker.value].process == Some(p) && m.original == a[m.worker.value].status)
  }

  /** Queue p after an association: unchanged, or with one announcement more. */
  lemma AssociatedQueueAt(a: seq<Row>, tx: seq<seq<Message>>, ty: seq<seq<Message>>, ws: seq<nat>, ps: seq<nat>, op: nat, p: nat)
    requires p < |tx| && AssociatedQueues(a, tx, ty, ws, ps, op)
    ensures ty[p] == tx[p] || (|ty[p]| == |tx[p]| + 1 && tx[p] <= ty[p] && Announced(a, ws, ps, op, p, ty[p][|tx[p]|]))
  {
    if p in ps {
      var i :| 0 <= i < |ps| && ps[i] == p;
    } else if !NobodyOn(a, p) {
      var w :| 0 <= w < |a| && a[w].process == Some(p);
      assert IsWorking(a[w]);
    }
  }

  lemma AssociateKeepsTyped(s: World, f: World, ws: seq<nat>, ps: seq<nat>)
    requires TxTyped(s.rows, s.txQueue)
    requires AssociatedRows(s.rows, f.rows, ws, ps)
    requires AssociatedQueues(s.rows, s.txQueue, f.txQueue, ws, ps, s.ops)
    ensures TxTyped(f.rows, f.txQueue)
  {
    BlockingStays(s.rows, f.rows, ws, ps);
    forall p, i | 0 <= p < |f.txQueue| && 0 <= i < |f.txQueue[p]|
      ensures && !f.txQueue[p][i].GoToOriginal?
              && (f.txQueue[p][i].GoOnHold? ==> f.txQueue[p][i].target < |f.rows|)
              && (f.txQueue[p][i].MarkBlockingToOriginal? ==>
                  && f.txQueue[p][i].worker.Some?
                  && f.txQueue[p][i].worker.value < |f.rows|
                  && f.rows[f.txQueue[p][i].worker.value].status == Blocking
                  && (f.txQueue[p][i].original == Active || f.txQueue[p][i].original == Inactive))
    {
      AssociatedQueueAt(s.rows, s.txQueue, f.txQueue, ws, ps, s.ops, p);
      if i < |s.txQueue[p]| {
        assert f.txQueue[p][i] == s.txQueue[p][i];
      }
    }
  }

  lemma BlockingStays(a: seq<Row>, b: seq<Row>, ws: seq<nat>, ps: seq<nat>)
    requires AssociatedRows(a, b, ws, ps)
    ensures forall w :: 0 <= w < |a| && a[w].status == Blocking ==> !IsWorking(a[w]) && b[w] == a[w]
    ensures forall w :: 0 <= w < |a| && b[w].status == Blocking ==> IsWorking(a[w]) || a[w].status == Blocking
  {
    forall w | 0 <= w < |a| && w in ws ensures IsAvailable(a[w]) && b[w].status == Active {
      var i :| 0 <= i < |ws| && ws[i] == w;
    }
  }

  lemma AssociateKeepsOnce(s: World, f: World, ws: seq<nat>, ps: seq<nat>)
    requires Alone(s.rows) && TxTyped(s.rows, s.txQueue) && MarkersOnce(s.txQueue)
    requires AssociatedRows(s.rows, f.rows, ws, ps)
    requires AssociatedQueues(s.rows, s.txQueue, f.txQueue, ws, ps, s.ops)
    ensures MarkersOnce(f.txQueue)
  {
    var tx: seq<seq<Message>>, ty: seq<seq<Message>> := s.txQueue, f.txQueue;
    BlockingStays(s.rows, f.rows, ws, ps);
    forall p, i, q, j | 0 <= p < |ty| && 0 <= i < |ty[p]| && 0 <= q < |ty| && 0 <= j < |ty[q]|
      && ty[p][i].MarkBlockingToOriginal? && ty[q][j].MarkBlockingToOriginal? && ty[p][i].worker == ty[q][j].worker
      ensures p == q && i == j
    {
      AssociatedQueueAt(s.rows, tx, ty, ws, ps, s.ops, p);
      AssociatedQueueAt(s.rows, tx, ty, ws, ps, s.ops, q);
      assert i < |tx[p]| ==> ty[p][i] == tx[p][i];
      assert j < |tx[q]| ==> ty[q][j] == tx[q][j];
    }
  }

  lemma AssociateKeepsMarkerExists(s: World, f: World, ws: seq<nat>, ps: seq<nat>)
    requires Shape(s) && MarkerExists(s.rows, s.txQueue)
    requires AssociatedRows(s.rows, f.rows, ws, ps)
    requires AssociatedQueues(s.rows, s.txQueue, f.txQueue, ws, ps, s.ops)
    ensures MarkerExists(f.rows, f.txQueue)
  {
    BlockingStays(s.rows, f.rows, ws, ps);
    forall w | 0 <= w < |f.rows| && f.rows[w].status == Blocking
      ensures exists p :: 0 <= p < |f.txQueue| && MarkerFrom(f.txQueue[p], w, 0)
    {
      if IsWorking(s.rows[w]) {
        var p := s.rows[w].process.value;
        assert IsMarkerFor(f.txQueue[p][|s.txQueue[p]|], w);
        assert MarkerFrom(f.txQueue[p], w, 0);
      } else {
        var p :| 0 <= p < |s.txQueue| && MarkerFrom(s.txQueue[p], w, 0);
        var j :| 0 <= j < |s.txQueue[p]| && IsMarkerFor(s.txQueue[p][j], w);
        AssociatedQueueAt(s.rows, s.txQueue, f.txQueue, ws, ps, s.ops, p);
        assert f.txQueue[p][j] == s.txQueue[p][j];
        assert MarkerFrom(f.txQueue[p], w, 0);
      }
    }
  }

  lemma AssociateKeepsHoldPlaced(s: World, f: World, ws: seq<nat>, ps: seq<nat>)
    requires Shape(s) && TxTyped(s.rows, s.txQueue) && HoldPlaced(s.rows, s.txQueue)
    requires TxTyped(f.rows, f.txQueue)
    requires AssociatedRows(s.rows, f.rows, ws, ps)
    requires AssociatedQueues(s.rows, s.txQueue, f.txQueue, ws, ps, s.ops)
    ensures HoldPlaced(f.rows, f.txQueue)
  {
    var tx: seq<seq<Message>>, ty: seq<seq<Message>> := s.txQueue, f.txQueue;
    BlockingStays(s.rows, f.rows, ws, ps);
    forall p, i | 0 <= p < |ty| && 0 <= i < |ty[p]| && ty[p][i].GoOnHold?
      ensures var w := ty[p][i].target;
              if f.rows[w].status == Blocking then MarkerFrom(ty[p], w, i + 1)
              else f.rows[w].process == Some(p) && !AnyMarkerFrom(ty[p], i + 1)
    {
      var w := ty[p][i].target;
      AssociatedQueueAt(s.rows, tx, ty, ws, ps, s.ops, p);
      if i < |tx[p]| {
        assert ty[p][i] == tx[p][i];
        if s.rows[w].status == Blocking {
          var j :| i + 1 <= j < |tx[p]| && IsMarkerFor(tx[p][j], w);
          assert IsMarkerFor(ty[p][j], w);
        } else {
          assert IsWorking(s.rows[w]);
          assert IsMarkerFor(ty[p][|tx[p]|], w);
        }
      }
    }
  }

  lemma AssociateKeepsCore(s: World, f: World, ws: seq<nat>, ps: seq<nat>)
    requires Core(s) && AssociatedRows(s.rows, f.rows, ws, ps) && SameElsewhere(s, f)
    requires AssociatedQueues(s.rows, s.txQueue, f.txQueue, ws, ps, s.ops)
    requires NoStaleWakeUp(s.cmdQueue, ws, ps)
    ensures Core(f)
  {
    AssociateKeepsTables(s, f, ws, ps);
    AssociateKeepsTyped(s, f, ws, ps);
    AssociateKeepsOnce(s, f, ws, ps);
    AssociateKeepsMarkerExists(s, f, ws, ps);
    AssociateKeepsHoldPlaced(s, f, ws, ps);
  }
}
