/** When an accepted operation can bring the protocol to a stop.  Both conditions speak of the tables and queues before the
    operation; here: without danger, the operation leads into a safe world. */
module ProtocolDanger {
  import opened Wrappers
  import opened WorkerProtocol
  import opened ProtocolFlush
  import opened ProtocolInvariants
  import opened ProtocolOperations
  import opened ProtocolSafety

  /** Nothing is left behind by an unlucky earlier operation: markers name a worker, a hold message for a worker that is not
      blocking stands on its process with no marker behind it, one for a blocking worker has that worker's marker behind it, and
      a wake-up of a worker on a process stands on that process's queue. */
  ghost predicate Settled(s: World) {
    && (forall p, i :: 0 <= p < |s.txQueue| && 0 <= i < |s.txQueue[p]| && s.txQueue[p][i].MarkBlockingToOriginal? ==> s.txQueue[p][i].worker.Some?)
    && (forall w: nat, p: nat, i: nat :: HoldAt(s.txQueue, w, p, i) ==> HoldSettled(s.rows, s.txQueue, w, p, i))
    && (forall p, i :: 0 <= p < |s.cmdQueue| && 0 <= i < |s.cmdQueue[p]| && s.cmdQueue[p][i].GoToOriginal? ==>
          WakeUpSettled(s.rows, s.cmdQueue[p][i].target, p))
  }

  ghost predicate HoldSettled(rows: seq<Row>, tx: seq<seq<Message>>, w: nat, p: nat, i: nat)
    requires p < |tx|
  {
    w < |rows| && if rows[w].status == Blocking then MarkerFrom(tx[p], w, i + 1) else WellPlaced(rows, tx, w, p, i)
  }

  ghost predicate WakeUpSettled(rows: seq<Row>, w: nat, p: nat) {
    w < |rows| && (rows[w].process.Some? ==> rows[w].process.value == p)
  }

  lemma CoreIsSafe(s: World)
    requires Core(s)
    ensures Safe(s) && Settled(s)
  {
    forall p, i | 0 <= p < |s.txQueue| && 0 <= i < |s.txQueue[p]| ensures MessageTyped(s.rows, s.txQueue[p][i]) {
    }
    forall w: nat, p: nat, i: nat, q: nat, j: nat | MarkerStands(s.txQueue, w, p, i) && MarkerStands(s.txQueue, w, q, j)
      ensures p == q && i == j
    {
    }
    forall w: nat, p: nat, i: nat | HoldAt(s.txQueue, w, p, i)
      ensures HoldSettled(s.rows, s.txQueue, w, p, i) && HoldOk(s.rows, s.txQueue, w, p, i)
    {
      assert s.txQueue[p][i].GoOnHold? && s.txQueue[p][i].target == w;
    }
    forall p, i | 0 <= p < |s.txQueue| && 0 <= i < |s.txQueue[p]| && RealMarker(s.txQueue[p][i]) ensures s.consuming[p] {
      assert AnyMarkerFrom(s.txQueue[p], 0);
    }
  }

  lemma SettledIsCore(s: World)
    requires Safe(s) && Settled(s)
    ensures Core(s)
  {
    SettledTyped(s);
    forall p, i | 0 <= p < |s.txQueue| && 0 <= i < |s.txQueue[p]| && s.txQueue[p][i].GoOnHold?
      ensures var w := s.txQueue[p][i].target;
        if s.rows[w].status == Blocking then MarkerFrom(s.txQueue[p], w, i + 1)
        else s.rows[w].process == Some(p) && !AnyMarkerFrom(s.txQueue[p], i + 1)
    {
      assert HoldAt(s.txQueue, s.txQueue[p][i].target, p, i);
    }
    forall p, i | 0 <= p < |s.cmdQueue| && 0 <= i < |s.cmdQueue[p]|
      ensures CommandOk(s.rows, s.txQueue, p, s.cmdQueue[p][i])
    {
    }
  }

  lemma SettledTyped(s: World)
    requires Safe(s) && Settled(s)
    ensures TxTyped(s.rows, s.txQueue) && MarkersOnce(s.txQueue) && MarkersRun(s.txQueue, s.consuming)
  {
    forall p, i | 0 <= p < |s.txQueue| && 0 <= i < |s.txQueue[p]| ensures MessageTyped(s.rows, s.txQueue[p][i]) {
    }
    forall p, i, q, j | 0 <= p < |s.txQueue| && 0 <= i < |s.txQueue[p]| && 0 <= q < |s.txQueue| && 0 <= j < |s.txQueue[q]|
      && s.txQueue[p][i].MarkBlockingToOriginal? && s.txQueue[q][j].MarkBlockingToOriginal?
      && s.txQueue[p][i].worker == s.txQueue[q][j].worker
      ensures p == q && i == j
    {
      var w := s.txQueue[p][i].worker.value;
      assert MarkerStands(s.txQueue, w, p, i) && MarkerStands(s.txQueue, w, q, j);
    }
    forall p | 0 <= p < |s.txQueue| && AnyMarkerFrom(s.txQueue[p], 0) ensures s.consuming[p] {
      var j :| 0 <= j < |s.txQueue[p]| && s.txQueue[p][j].MarkBlockingToOriginal?;
      assert RealMarker(s.txQueue[p][j]);
    }
  }

  // ------------------------------------------------------------------ association

  /** A wake-up for w waits on the command queue of a process other than q. */
  predicate WakeUpElsewhere(cmd: seq<seq<Message>>, w: nat, q: nat) {
    exists p, i :: 0 <= p < |cmd| && 0 <= i < |cmd[p]| && cmd[p][i].GoToOriginal? && cmd[p][i].target == w && p != q
  }

  /** Some worker is blocking, or will be, while its marker is not on queue q. */
  predicate BlockedElsewhere(s: World, q: nat)
    requires q < |s.txQueue|
  {
    exists z :: 0 <= z < |s.rows| && (IsWorking(s.rows[z]) || (s.rows[z].status == Blocking && !MarkerFrom(s.txQueue[q], z, 0)))
  }

  /** The association attaches to q a worker with a wake-up waiting elsewhere, and the hold message it puts on q can run while
      a worker is blocking. */
  predicate DangerousAssociation(s: World, ps: seq<nat>, allocatable: set<nat>)
    requires CanAssociate(s, ps, allocatable)
  {
    var ws, used := UsedWorkers(s.rows, ps), UsedProcesses(s.rows, ps);
    exists k :: 0 <= k < |ws| && DangerousAt(s, ws, used, k)
  }

  predicate DangerousAt(s: World, ws: seq<nat>, used: seq<nat>, k: nat)
    requires k < |ws| == |used|
  {
    used[k] < |s.txQueue| && WakeUpElsewhere(s.cmdQueue, ws[k], used[k]) && BlockedElsewhere(s, used[k])
  }

  function Silent(s: World): (r: World)
  {
    s.(cmdQueue := seq(|s.cmdQueue|, p => []))
  }

  /** The command queues do not enter into an association. */
  lemma AssociationSilent(s: World, ps: seq<nat>, allocatable: set<nat>)
    requires s.outbox == []
    ensures CanAssociate(Silent(s), ps, allocatable) <==> CanAssociate(s, ps, allocatable)
    ensures Flush(Associate(Silent(s), ps, allocatable)) == Silent(Flush(Associate(s, ps, allocatable)))
  {
  }

  lemma NobodyHeld(s: World, ps: seq<nat>, allocatable: set<nat>)
    requires Consumption(s.rows, s.consuming) && CanAssociate(s, ps, allocatable)
    ensures forall w :: 0 <= w < |s.rows| ==> s.rows[w].status != Hold
  {
    forall w | 0 <= w < |s.rows| ensures s.rows[w].status != Hold {
      assert s.rows[w].status == Hold ==> IsWorking(s.rows[w]);
    }
  }

  /** But for the command queues, an association always leads from a core world into one. */
  lemma AssociatedIsCore(s: World, ps: seq<nat>, allocatable: set<nat>)
    requires Core(s) && s.outbox == [] && CanAssociate(s, ps, allocatable)
    ensures Core(Silent(Flush(Associate(s, ps, allocatable))))
    ensures forall w :: 0 <= w < |s.rows| ==> Flush(Associate(s, ps, allocatable)).rows[w].status != Hold
  {
    NobodyHeld(s, ps, allocatable);
    AssociationSilent(s, ps, allocatable);
    var ws, used := UsedWorkers(s.rows, ps), UsedProcesses(s.rows, ps);
    assert Core(Silent(s));
    AssociateHasEffect(Silent(s), ps, allocatable);
    AssociateKeepsCore(Silent(s), Flush(Associate(Silent(s), ps, allocatable)), ws, used);
    AssociatedNobodyHeld(s.rows, Flush(Associate(s, ps, allocatable)).rows, ws, used);
  }

  lemma AssociatedNobodyHeld(a: seq<Row>, b: seq<Row>, ws: seq<nat>, ps: seq<nat>)
    requires AssociatedRows(a, b, ws, ps) && forall w :: 0 <= w < |a| ==> a[w].status != Hold
    ensures forall w :: 0 <= w < |b| ==> b[w].status != Hold
  {
    forall w | 0 <= w < |b| ensures b[w].status != Hold {
      if w in ws {
        var i :| 0 <= i < |ws| && ws[i] == w;
      }
    }
  }

  /** The only hold message for a worker just attached is the one at the end of its new queue. */
  lemma OnlyHold(s: World, f: World, ws: seq<nat>, ps: seq<nat>, k: nat, q: nat, j: nat)
    requires Core(s) && AssociatedRows(s.rows, f.rows, ws, ps)
    requires AssociatedQueues(s.rows, s.txQueue, f.txQueue, ws, ps, s.ops)
    requires k < |ws| && HoldAt(f.txQueue, ws[k], q, j)
    ensures q == ps[k] && j == |s.txQueue[q]|
  {
    AssociatedQueueAt(s.rows, s.txQueue, f.txQueue, ws, ps, s.ops, q);
    assert forall i :: 0 <= i < |s.txQueue[q]| && s.txQueue[q][i].GoOnHold? ==> s.txQueue[q][i].target != ws[k] by {
      NoHoldForUnattached(s, ws[k], q);
    }
    assert forall i :: 0 <= i < |s.txQueue[q]| ==> f.txQueue[q][i] == s.txQueue[q][i];
  }

  lemma NoHoldForUnattached(s: World, w: nat, q: nat)
    requires Core(s) && w < |s.rows| && s.rows[w].status != Blocking && s.rows[w].process == None && q < |s.txQueue|
    ensures forall i :: 0 <= i < |s.txQueue[q]| && s.txQueue[q][i].GoOnHold? ==> s.txQueue[q][i].target != w
  {
  }

  lemma MarkerHome(s: World, f: World, ws: seq<nat>, ps: seq<nat>, k: nat, r: nat, l: nat)
    requires Core(s) && AssociatedRows(s.rows, f.rows, ws, ps)
    requires AssociatedQueues(s.rows, s.txQueue, f.txQueue, ws, ps, s.ops)
    requires k < |ps| && ps[k] < |s.txQueue| && !BlockedElsewhere(s, ps[k])
    requires r < |f.txQueue| && l < |f.txQueue[r]| && RealMarker(f.txQueue[r][l])
    ensures r == ps[k] && l < |s.txQueue[r]|
  {
    assert forall z :: 0 <= z < |s.rows| ==> !IsWorking(s.rows[z]);
    AssociatedQueueAt(s.rows, s.txQueue, f.txQueue, ws, ps, s.ops, r);
    if l < |s.txQueue[r]| {
      assert f.txQueue[r][l] == s.txQueue[r][l];
      var z := s.txQueue[r][l].worker.value;
      assert s.rows[z].status == Blocking;
      assert MarkerFrom(s.txQueue[ps[k]], z, 0);
      var l' :| 0 <= l' < |s.txQueue[ps[k]]| && IsMarkerFor(s.txQueue[ps[k]][l'], z);
    }
  }

  lemma HarmlessAssociation(s: World, ps: seq<nat>, allocatable: set<nat>)
    requires Core(s) && s.outbox == [] && CanAssociate(s, ps, allocatable) && !DangerousAssociation(s, ps, allocatable)
    ensures Safe(Flush(Associate(s, ps, allocatable)))
  {
    var f := Flush(Associate(s, ps, allocatable));
    var ws, used := UsedWorkers(s.rows, ps), UsedProcesses(s.rows, ps);
    AssociatedIsCore(s, ps, allocatable);
    CoreIsSafe(Silent(f));
    AssociateHasEffect(s, ps, allocatable);
    forall p, i | 0 <= p < |f.cmdQueue| && 0 <= i < |f.cmdQueue[p]|
      ensures CommandOk(f.rows, f.txQueue, p, f.cmdQueue[p][i])
    {
      HarmlessWakeUp(s, f, ws, used, p, i);
    }
  }

  lemma HarmlessWakeUp(s: World, f: World, ws: seq<nat>, used: seq<nat>, p: nat, i: nat)
    requires Core(s) && AssociatedRows(s.rows, f.rows, ws, used) && SameElsewhere(s, f)
    requires AssociatedQueues(s.rows, s.txQueue, f.txQueue, ws, used, s.ops)
    requires forall k :: 0 <= k < |ws| ==> !DangerousAt(s, ws, used, k)
    requires p < |f.cmdQueue| && i < |f.cmdQueue[p]|
    ensures CommandOk(f.rows, f.txQueue, p, f.cmdQueue[p][i])
  {
    var m: Message := s.cmdQueue[p][i];
    var w := m.target;
    if w in ws {
      var k :| 0 <= k < |ws| && ws[k] == w;
      if used[k] != p {
        assert WakeUpElsewhere(s.cmdQueue, w, used[k]);
        assert !DangerousAt(s, ws, used, k);
        forall q: nat, j: nat | HoldAt(f.txQueue, w, q, j)
          ensures Mute(f.txQueue, q, j)
        {
          OnlyHold(s, f, ws, used, k, q, j);
          forall r, l | 0 <= r < |f.txQueue| && 0 <= l < |f.txQueue[r]| && RealMarker(f.txQueue[r][l])
            ensures r == q && l < j
          {
            MarkerHome(s, f, ws, used, k, r, l);
          }
        }
      }
    } else {
      assert f.rows[w].process == s.rows[w].process;
    }
  }
}
