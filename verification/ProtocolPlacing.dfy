/** Where messages stand in careful runs, whatever became of earlier operations: every queued hold message is for the worker of its
    own process, unless that worker was taken off and a marker stands behind it. */
module ProtocolPlacing {
  import opened Wrappers
  import opened Sequences
  import opened WorkerProtocol
  import opened ProtocolInvariants
  import opened ProtocolOperations
  import opened ProtocolDisassociation
  import opened ProtocolSafety
  import opened ProtocolMispairing
  import opened ProtocolStandstill

  /** An association is started only when no worker of the client is blocking, wherever it is, and a disassociation names every
      process once.  (The associating script itself looks only at workers that are on a process; the disassociating one
      accepts a process named twice.) */
  predicate Careful(s: World, e: Event) {
    match e
    case StartAssociate(ps, allocatable) => CanAssociate(s, ps, allocatable) ==> !AnyBlocking(s.rows)
    case StartDisassociate(ps) => CanDisassociate(s, ps) ==> Distinct(ps)
    case _ => true
  }

  ghost predicate CarefulRun(s: World, es: seq<Event>)
    decreases |es|
  {
    es == [] || (Enabled(s, es[0]) && Careful(s, es[0]) && CarefulRun(Next(s, es[0]), es[1..]))
  }

  ghost predicate HoldHome(rows: seq<Row>, tx: seq<seq<Message>>, q: nat, i: nat)
    requires q < |tx| && i < |tx[q]| && tx[q][i].GoOnHold?
  {
    var w := tx[q][i].target;
    w < |rows| && (rows[w].process == Some(q) || (rows[w].process.None? && AnyMarkerFrom(tx[q], i + 1)))
  }

  ghost predicate HoldsHome(rows: seq<Row>, tx: seq<seq<Message>>) {
    forall q, i :: 0 <= q < |tx| && 0 <= i < |tx[q]| && tx[q][i].GoOnHold? ==> HoldHome(rows, tx, q, i)
  }

  /** While a worker is blocking, a process with a held worker on it does not consume. */
  predicate HeldStopped(rows: seq<Row>, consuming: seq<bool>) {
    AnyBlocking(rows) ==>
      forall w :: 0 <= w < |rows| && rows[w].status == Hold && rows[w].process.Some? && rows[w].process.value < |consuming| ==>
        !consuming[rows[w].process.value]
  }

  ghost predicate Placed(f: World) {
    && Shape(f) && Alone(f.rows)
    && TxTyped(f.rows, f.txQueue) && MarkersOnce(f.txQueue) && MarkerExists(f.rows, f.txQueue)
    && HoldsHome(f.rows, f.txQueue)
    && HeldStopped(f.rows, f.consuming)
    && AllWakeUps(f.cmdQueue)
  }

  // ------------------------------------------------------------------ taking a message

  lemma PopKeepsHome(rows: seq<Row>, tx: seq<seq<Message>>, p: nat)
    requires p < |tx| && tx[p] != [] && HoldsHome(rows, tx)
    ensures HoldsHome(rows, Popped(tx, p))
  {
    var ty: seq<seq<Message>> := Popped(tx, p);
    forall q, i | 0 <= q < |ty| && 0 <= i < |ty[q]| && ty[q][i].GoOnHold? ensures HoldHome(rows, ty, q, i) {
      PoppedAt(tx, p, q, i);
      assert HoldHome(rows, tx, q, Back(p, q, i));
      if AnyMarkerFrom(tx[q], Back(p, q, i) + 1) {
        var j :| Back(p, q, i) + 1 <= j < |tx[q]| && tx[q][j].MarkBlockingToOriginal?;
        var k := if q == p then j - 1 else j;
        PoppedAt(tx, p, q, k);
        assert ty[q][k].MarkBlockingToOriginal?;
      }
    }
  }

  lemma PopKeepsNames(rows: seq<Row>, tx: seq<seq<Message>>, p: nat)
    requires p < |tx| && tx[p] != [] && TxTyped(rows, tx) && MarkersOnce(tx)
    ensures TxTyped(rows, Popped(tx, p)) && MarkersOnce(Popped(tx, p))
    ensures tx[p][0].MarkBlockingToOriginal? ==>
      forall q :: 0 <= q < |tx| ==> !MarkerFrom(Popped(tx, p)[q], tx[p][0].worker.value, 0)
  {
  }

  lemma UnblockedTyped(rows: seq<Row>, tx: seq<seq<Message>>, w: nat, original: Status)
    requires w < |rows| && TxTyped(rows, tx) && forall q :: 0 <= q < |tx| ==> !MarkerFrom(tx[q], w, 0)
    ensures TxTyped(Unblocked(rows, w, original), tx)
  {
    forall q, i | 0 <= q < |tx| && 0 <= i < |tx[q]| ensures !IsMarkerFor(tx[q][i], w) {
      assert !MarkerFrom(tx[q], w, 0);
    }
  }

  /** Tables in which everybody is where he was have the hold messages at home alike. */
  lemma SameProcessesKeepHome(a: seq<Row>, b: seq<Row>, tx: seq<seq<Message>>)
    requires |a| == |b| && (forall w :: 0 <= w < |a| ==> b[w].process == a[w].process) && HoldsHome(a, tx)
    ensures HoldsHome(b, tx)
  {
    forall q, i | 0 <= q < |tx| && 0 <= i < |tx[q]| && tx[q][i].GoOnHold? ensures HoldHome(b, tx, q, i) {
      assert HoldHome(a, tx, q, i);
    }
  }

  lemma MarkerKeepsPlaced(s: World, p: nat)
    requires Placed(s) && Enabled(s, TakeTransaction(p)) && s.txQueue[p][0].MarkBlockingToOriginal?
    ensures Placed(Next(s, TakeTransaction(p)))
  {
    var m: Message := s.txQueue[p][0];
    var w := m.worker.value;
    var rows, ty := Unblocked(s.rows, w, m.original), Popped(s.txQueue, p);
    PopKeepsNames(s.rows, s.txQueue, p);
    PopKeepsHome(s.rows, s.txQueue, p);
    PopKeepsOtherMarkers(s, p);
    UnblockedTyped(s.rows, ty, w, m.original);
    SameProcessesKeepHome(s.rows, rows, ty);
    UnblockedStopped(s.rows, s.consuming, w, m.original);
    if w < |s.rows| && |s.cmdQueue| > 0 {
      WakingSendsWakeUps(rows, s.cmdQueue, 0, 0);
    }
    assert MarkerExists(rows, ty);
  }

  lemma UnblockedStopped(rows: seq<Row>, consuming: seq<bool>, w: nat, original: Status)
    requires w < |rows| && rows[w].status == Blocking && (original == Active || original == Inactive) && HeldStopped(rows, consuming)
    ensures HeldStopped(Unblocked(rows, w, original), consuming)
  {
    assert AnyBlocking(rows);
  }

  /** Tables with the same attachments and the same blocking workers. */
  lemma SamePlacesKeepPlaced(a: seq<Row>, b: seq<Row>, tx: seq<seq<Message>>)
    requires SamePlaces(a, b) && Alone(a) && TxTyped(a, tx) && MarkerExists(a, tx) && HoldsHome(a, tx)
    ensures Alone(b) && TxTyped(b, tx) && MarkerExists(b, tx) && HoldsHome(b, tx)
    ensures AnyBlocking(a) <==> AnyBlocking(b)
  {
    SameProcessesKeepHome(a, b, tx);
    if AnyBlocking(a) {
      var w :| 0 <= w < |a| && a[w].status == Blocking;
      assert b[w].status == Blocking;
    }
    assert TxTyped(b, tx);
  }

  lemma IdlePopKeepsPlaced(s: World, p: nat)
    requires Placed(s) && Enabled(s, TakeTransaction(p)) && !s.txQueue[p][0].MarkBlockingToOriginal?
    ensures Placed(PopTransaction(s, p))
  {
    PopKeepsNames(s.rows, s.txQueue, p);
    PopKeepsHome(s.rows, s.txQueue, p);
    PopKeepsOtherMarkers(s, p);
  }

  lemma GoOnHoldKeepsPlaced(s: World, p: nat)
    requires Placed(s) && Enabled(s, TakeTransaction(p)) && s.txQueue[p][0].GoOnHold?
    ensures Placed(Next(s, TakeTransaction(p)))
  {
    IdlePopKeepsPlaced(s, p);
    assert HoldHome(s.rows, s.txQueue, p, 0);
    HoldingKeepsPlaced(PopTransaction(s, p), p, s.txQueue[p][0].target, s.txQueue[p][0].op);
  }

  lemma HoldingKeepsPlaced(u: World, p: nat, w: nat, op: nat)
    requires Placed(u) && p < |u.consuming| && w < |u.rows| && (u.rows[w].process == Some(p) || u.rows[w].process.None?)
    ensures Placed(Execute(u, p, GoOnHold(w, op)))
  {
    var rows := u.rows[w := u.rows[w].(status := Hold)];
    if !IsTemporary(u.rows[w]) && AnyBlocking(u.rows) {
      assert Execute(u, p, GoOnHold(w, op)) == u.(rows := rows, consuming := u.consuming[p := false]);
      SamePlacesKeepPlaced(u.rows, rows, u.txQueue);
      HoldingStops(u.rows, u.consuming, p, w);
    } else {
      assert Execute(u, p, GoOnHold(w, op)) == u;
    }
  }

  lemma HoldingStops(rows: seq<Row>, consuming: seq<bool>, p: nat, w: nat)
    requires w < |rows| && p < |consuming| && (rows[w].process == Some(p) || rows[w].process.None?)
    requires HeldStopped(rows, consuming) && AnyBlocking(rows)
    ensures HeldStopped(rows[w := rows[w].(status := Hold)], consuming[p := false])
  {
  }

  lemma TakeTransactionKeepsPlaced(s: World, p: nat)
    requires Placed(s) && Enabled(s, TakeTransaction(p))
    ensures Placed(Next(s, TakeTransaction(p)))
  {
    match s.txQueue[p][0] {
      case Transaction(_) => IdlePopKeepsPlaced(s, p);
      case MarkBlockingToOriginal(_, _, _) => MarkerKeepsPlaced(s, p);
      case GoOnHold(_, _) => GoOnHoldKeepsPlaced(s, p);
      case GoToOriginal(_, _) =>
    }
  }

  lemma TakeCommandKeepsPlaced(s: World, p: nat)
    requires Placed(s) && Enabled(s, TakeCommand(p))
    ensures Placed(Next(s, TakeCommand(p)))
  {
    assert IsWakeUp(s.cmdQueue[p][0]);
    PoppedWakeUps(s.cmdQueue, p);
    SamePlacesKeepPlaced(s.rows, Next(s, TakeCommand(p)).rows, s.txQueue);
  }

  lemma RestartKeepsPlaced(s: World, p: nat)
    requires Placed(s) && p < |s.consuming|
    ensures Placed(Restart(s, p))
  {
    var t := Restart(s, p);
    SamePlacesKeepPlaced(s.rows, t.rows, s.txQueue);
    if AnyBlocking(s.rows) && !AnyHeldOn(s.rows, p) {
      assert t.rows == s.rows;
    }
  }

  lemma ArrivalKeepsPlaced(s: World, p: nat, k: nat, id: nat)
    requires Placed(s) && p < |s.txQueue| && k <= |s.txQueue[p]|
    ensures Placed(s.(txQueue := s.txQueue[p := InsertAt(s.txQueue[p], k, Transaction(id))]))
  {
    var tx: seq<seq<Message>>, ty: seq<seq<Message>> := s.txQueue, Inserted(s.txQueue, p, k, id);
    assert ty == Arrived(tx, p, k, id);
    InsertionKeepsTyped(s.rows, tx, p, k, id);
    InsertionKeepsMarkersOnce(tx, p, k, id);
    InsertionKeepsMarkerExists(s.rows, tx, p, k, id);
    forall q, j | 0 <= q < |ty| && 0 <= j < |ty[q]| && ty[q][j].GoOnHold? ensures HoldHome(s.rows, ty, q, j) {
      var i := InsertedFrom(tx, p, k, id, q, j);
      assert HoldHome(s.rows, tx, q, i);
      if AnyMarkerFrom(tx[q], i + 1) {
        var l :| i + 1 <= l < |tx[q]| && tx[q][l].MarkBlockingToOriginal?;
        InsertedAt(tx, p, k, id, q, l);
        assert ty[q][Shifted(p, k, q, l)].MarkBlockingToOriginal?;
      }
    }
  }

  // ------------------------------------------------------------------ operations

  ghost predicate NoMarkers(tx: seq<seq<Message>>) {
    forall p, i :: 0 <= p < |tx| && 0 <= i < |tx[p]| ==> !tx[p][i].MarkBlockingToOriginal?
  }

  /** While nobody is blocking there is no marker, and every hold message is on its worker's process. */
  lemma QuietPlaces(s: World)
    requires Placed(s) && !AnyBlocking(s.rows)
    ensures NoMarkers(s.txQueue)
    ensures forall q, i :: 0 <= q < |s.txQueue| && 0 <= i < |s.txQueue[q]| && s.txQueue[q][i].GoOnHold? ==>
      s.txQueue[q][i].target < |s.rows| && s.rows[s.txQueue[q][i].target].process == Some(q)
  {
    NoBlockingNoMarker(s);
    forall q, i | 0 <= q < |s.txQueue| && 0 <= i < |s.txQueue[q]| && s.txQueue[q][i].GoOnHold?
      ensures s.txQueue[q][i].target < |s.rows| && s.rows[s.txQueue[q][i].target].process == Some(q)
    {
      assert HoldHome(s.rows, s.txQueue, q, i);
    }
  }

  lemma AssociationKeepsHome(s: World, f: World, ws: seq<nat>, ps: seq<nat>)
    requires Placed(s) && !AnyBlocking(s.rows) && AssociatedRows(s.rows, f.rows, ws, ps)
    requires AssociatedQueues(s.rows, s.txQueue, f.txQueue, ws, ps, s.ops)
    ensures HoldsHome(f.rows, f.txQueue)
  {
    QuietPlaces(s);
    forall q, i | 0 <= q < |f.txQueue| && 0 <= i < |f.txQueue[q]| && f.txQueue[q][i].GoOnHold?
      ensures HoldHome(f.rows, f.txQueue, q, i)
    {
      AssociatedQueueAt(s.rows, s.txQueue, f.txQueue, ws, ps, s.ops, q);
      if i < |s.txQueue[q]| {
        assert f.txQueue[q][i] == s.txQueue[q][i];
        assert IsWorking(s.rows[f.txQueue[q][i].target]);
      }
    }
  }

  /** Nobody is held on a process when an association is accepted. */
  lemma AssociationHoldsNobody(s: World, f: World, ws: seq<nat>, ps: seq<nat>)
    requires AssociatedRows(s.rows, f.rows, ws, ps)
    ensures forall w :: 0 <= w < |f.rows| && f.rows[w].process.Some? ==> f.rows[w].status != Hold
  {
    forall w | 0 <= w < |f.rows| && f.rows[w].process.Some? ensures f.rows[w].status != Hold {
      if w in ws {
        var i :| 0 <= i < |ws| && ws[i] == w;
      }
    }
  }

  lemma AssociatedStaysAlone(s: World, f: World, ws: seq<nat>, ps: seq<nat>)
    requires Shape(s) && Alone(s.rows) && AssociatedRows(s.rows, f.rows, ws, ps) && |s.txQueue| == |f.txQueue| && SameElsewhere(s, f)
    requires forall i :: 0 <= i < |ps| ==> ps[i] < |s.txQueue|
    ensures Shape(f) && Alone(f.rows)
  {
    forall w | 0 <= w < |f.rows| && f.rows[w].process.Some?
      ensures f.rows[w].process == s.rows[w].process || exists i :: 0 <= i < |ws| && ws[i] == w && f.rows[w].process == Some(ps[i])
    {
      if w in ws {
        var i :| 0 <= i < |ws| && ws[i] == w;
      }
    }
  }

  lemma AssociationKeepsPlaced(s: World, f: World, ws: seq<nat>, ps: seq<nat>)
    requires Placed(s) && !AnyBlocking(s.rows) && AssociatedRows(s.rows, f.rows, ws, ps) && SameElsewhere(s, f)
    requires AssociatedQueues(s.rows, s.txQueue, f.txQueue, ws, ps, s.ops)
    ensures Placed(f)
  {
    AssociatedStaysAlone(s, f, ws, ps);
    AssociateKeepsTyped(s, f, ws, ps);
    AssociateKeepsOnce(s, f, ws, ps);
    AssociateKeepsMarkerExists(s, f, ws, ps);
    AssociationKeepsHome(s, f, ws, ps);
    AssociationHoldsNobody(s, f, ws, ps);
  }

  /** Different processes have different workers, so every marker names one. */
  lemma DistinctKeys(s: World, ps: seq<nat>)
    requires CanDisassociate(s, ps) && Distinct(ps)
    ensures |KeysOf(s, ps)| == |ps|
  {
    var ids := WorkersOn(s.rows, ps);
    SortedKeysInRange(ids, |s.rows|);
    assert Distinct(ids);
    DistinctNotMore(ids, KeysOf(s, ps));
    KeysNotMore(ids, |s.rows|);
  }

  /** Where every marker names a worker, one stands behind each old message of a process that is given up. */
  lemma ReleasedMarkerBehind(s: World, f: World, ps: seq<nat>, keys: seq<nat>, q: nat, i: nat)
    requires ReleasedRows(s.rows, f.rows, ps, keys) && ReleasedQueues(s.rows, f.rows, s.txQueue, f.txQueue, ps, keys, s.ops)
    requires q in ps && q < |s.txQueue| && i < |s.txQueue[q]|
    ensures AnyMarkerFrom(f.txQueue[q], i + 1)
  {
    var j :| 0 <= j < |ps| && ps[j] == q;
    MarkersToHas(s.rows, ps, keys, s.ops, |ps|, j);
    var at := |s.txQueue[q]| + CountOf(ps, q, j);
    assert f.txQueue[q][at].MarkBlockingToOriginal?;
  }

  lemma ReleaseKeepsHome(s: World, f: World, ps: seq<nat>, keys: seq<nat>)
    requires Placed(s) && ReleasedRows(s.rows, f.rows, ps, keys)
    requires ReleasedQueues(s.rows, f.rows, s.txQueue, f.txQueue, ps, keys, s.ops)
    ensures HoldsHome(f.rows, f.txQueue)
  {
    assert !AnyBlocking(s.rows);
    QuietPlaces(s);
    forall q, i | 0 <= q < |f.txQueue| && 0 <= i < |f.txQueue[q]| && f.txQueue[q][i].GoOnHold?
      ensures HoldHome(f.rows, f.txQueue, q, i)
    {
      var j := ReleasedAt(s, f, ps, keys, q, i);
      if i < |s.txQueue[q]| && f.txQueue[q][i].target in keys {
        ReleasedMarkerBehind(s, f, ps, keys, q, i);
      }
    }
  }

  lemma ReleasedNames(s: World, f: World, ps: seq<nat>, keys: seq<nat>)
    requires TxTyped(s.rows, s.txQueue) && ReleasedRows(s.rows, f.rows, ps, keys) && |keys| == |ps|
    requires ReleasedQueues(s.rows, f.rows, s.txQueue, f.txQueue, ps, keys, s.ops)
    ensures TxTyped(f.rows, f.txQueue) && MarkersOnce(f.txQueue)
  {
    TypedIsSafe(s.rows, s.txQueue);
    ReleasedTyped(s, f, ps, keys);
    NoBlockingNoMarker(s);
    forall q, i | 0 <= q < |f.txQueue| && 0 <= i < |f.txQueue[q]|
      ensures MessageTyped(f.rows, f.txQueue[q][i])
      ensures f.txQueue[q][i].MarkBlockingToOriginal? ==> f.txQueue[q][i].worker.Some?
    {
      var j := ReleasedAt(s, f, ps, keys, q, i);
    }
    NamedOnce(f.txQueue);
  }

  lemma NamedOnce(tx: seq<seq<Message>>)
    requires MarkersUnique(tx)
    requires forall q, i :: 0 <= q < |tx| && 0 <= i < |tx[q]| && tx[q][i].MarkBlockingToOriginal? ==> tx[q][i].worker.Some?
    ensures MarkersOnce(tx)
  {
    forall p, i, q, j | 0 <= p < |tx| && 0 <= i < |tx[p]| && 0 <= q < |tx| && 0 <= j < |tx[q]|
      && tx[p][i].MarkBlockingToOriginal? && tx[q][j].MarkBlockingToOriginal? && tx[p][i].worker == tx[q][j].worker
      ensures p == q && i == j
    {
      var w := tx[p][i].worker.value;
      assert MarkerStands(tx, w, p, i) && MarkerStands(tx, w, q, j);
    }
  }

  lemma ReleaseKeepsPlaced(s: World, f: World, ps: seq<nat>, keys: seq<nat>)
    requires Placed(s) && ReleasedRows(s.rows, f.rows, ps, keys) && |keys| == |ps| && SameElsewhere(s, f)
    requires ReleasedQueues(s.rows, f.rows, s.txQueue, f.txQueue, ps, keys, s.ops)
    requires forall i :: 0 <= i < |ps| ==> ps[i] < |s.txQueue|
    ensures Placed(f)
  {
    ReleasedNobodyOn(s.rows, f.rows, ps, keys);
    ReleasedNames(s, f, ps, keys);
    ReleasedMarkerExists(s, f, ps, keys);
    ReleaseKeepsHome(s, f, ps, keys);
  }
}
