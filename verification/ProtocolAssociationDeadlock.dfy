/** Exactly when an association that the script accepts can bring the protocol to a stop: when a worker it attaches still has a
    wake-up waiting on the command queue of another process than its new one, and a worker is then blocking whose marker is not
    on the new process's queue. */
module ProtocolAssociationDeadlock {
  import opened Wrappers
  import opened WorkerProtocol
  import opened ProtocolFlush
  import opened ProtocolInvariants
  import opened ProtocolOperations
  import opened ProtocolRuns
  import opened ProtocolDanger
  import opened ProtocolProgress
  import opened ProtocolStandstill

  /** The commands while worker w, attached to process q, is on its way to the standstill: a stale wake-up for w waits on p,
      and the command queue of q holds wake-ups for w only. */
  ghost predicate StaleAhead(cmd: seq<seq<Message>>, w: nat, q: nat, p: nat) {
    && AllWakeUps(cmd) && p < |cmd| && q < |cmd| && p != q
    && GoToOriginal(w, Active) in cmd[p]
    && OnlyFor(cmd[q], w)
  }

  predicate OnlyFor(queue: seq<Message>, w: nat) {
    forall i :: 0 <= i < |queue| && queue[i].GoToOriginal? ==> queue[i].target == w
  }

  lemma WakingKeepsStale(rows: seq<Row>, cmd: seq<seq<Message>>, w: nat, q: nat, p: nat)
    requires Alone(rows) && w < |rows| && rows[w].process == Some(q) && StaleAhead(cmd, w, q, p)
    requires forall v :: 0 <= v < |rows| && rows[v].status == Hold ==> rows[v].process.Some? && rows[v].process.value < |cmd|
    ensures StaleAhead(WakeHeld(rows, cmd, 0), w, q, p)
  {
    WakeHeldAdds(rows, cmd, 0);
    WakingSendsWakeUps(rows, cmd, 0, p);
    var woken: seq<seq<Message>> := WakeHeld(rows, cmd, 0);
    var i :| 0 <= i < |cmd[p]| && cmd[p][i] == GoToOriginal(w, Active);
    assert woken[p][i] == cmd[p][i];
    forall j | 0 <= j < |woken[q]| && woken[q][j].GoToOriginal? ensures woken[q][j].target == w {
      if j < |cmd[q]| {
        assert woken[q][j] == cmd[q][j];
      }
    }
  }

  /** On the way to the standstill: but for the commands, a core world. */
  ghost predicate OnTheWay(s: World, w: nat, q: nat, p: nat) {
    && s.outbox == [] && Core(Silent(s)) && StaleAhead(s.cmdQueue, w, q, p)
    && w < |s.rows| && s.rows[w].process == Some(q)
  }

  /** The commands decide nothing about a message of a transaction queue. */
  lemma SilentStep(s: World, r: nat)
    requires Enabled(s, TakeTransaction(r))
    ensures Enabled(Silent(s), TakeTransaction(r))
    ensures Silent(Next(s, TakeTransaction(r))) == Silent(Next(Silent(s), TakeTransaction(r)))
  {
    var m := s.txQueue[r][0];
    var t, u := Next(s, TakeTransaction(r)), Next(Silent(s), TakeTransaction(r));
    assert |t.cmdQueue| == |u.cmdQueue| == |s.cmdQueue|;
  }

  lemma BlockingSilentCore(s: World)
    requires Core(s) && AnyBlocking(s.rows)
    ensures Core(Silent(s))
  {
  }

  lemma StepOnTheWay(s: World, w: nat, q: nat, p: nat, r: nat)
    requires OnTheWay(s, w, q, p) && Enabled(s, TakeTransaction(r))
    ensures var t := Next(s, TakeTransaction(r));
      && t.outbox == [] && |t.rows| == |s.rows| && t.rows[w].process == Some(q) && StaleAhead(t.cmdQueue, w, q, p)
      && Shape(t) && Consumption(t.rows, t.consuming) && NoWakeUps(t.txQueue)
      && (AnyBlocking(t.rows) ==> OnTheWay(t, w, q, p))
  {
    var t, u := Next(s, TakeTransaction(r)), Next(Silent(s), TakeTransaction(r));
    SilentStep(s, r);
    TakeTransactionKeepsCore(Silent(s), r);
    assert t.rows == Silent(t).rows == Silent(u).rows == u.rows;
    assert t.txQueue == Silent(t).txQueue == Silent(u).txQueue == u.txQueue;
    StepCommands(s, w, q, p, r);
    if AnyBlocking(t.rows) {
      BlockingSilentCore(u);
    }
  }

  lemma StepCommands(s: World, w: nat, q: nat, p: nat, r: nat)
    requires OnTheWay(s, w, q, p) && Enabled(s, TakeTransaction(r))
    ensures StaleAhead(Next(s, TakeTransaction(r)).cmdQueue, w, q, p)
  {
    var m := s.txQueue[r][0];
    if m.MarkBlockingToOriginal? && m.worker.Some? && m.worker.value < |s.rows| && s.rows[m.worker.value].status == Blocking {
      var rows := s.rows[m.worker.value := s.rows[m.worker.value].(status := m.original)];
      assert TxTyped(s.rows, s.txQueue);
      WakingKeepsStale(rows, s.cmdQueue, w, q, p);
    }
  }

  // ------------------------------------------------------------------ the new worker is put on hold

  lemma OwnProcessConsumes(s: World, w: nat, q: nat, p: nat)
    requires OnTheWay(s, w, q, p) && s.rows[w].status != Hold
    ensures s.consuming[q]
  {
    assert forall v :: 0 <= v < |s.rows| && s.rows[v].process == Some(q) ==> v == w;
    assert !AnyHeldOn(s.rows, q);
  }

  predicate MarkerNotOn(s: World, z: nat, q: nat)
    requires q < |s.txQueue|
  {
    z < |s.rows| && s.rows[z].status == Blocking && !MarkerFrom(s.txQueue[q], z, 0)
  }

  /** What running the head of q does to w and to a worker z that is blocking for the sake of another queue. */
  lemma HeadOfNewQueue(s: World, w: nat, q: nat, p: nat, z: nat)
    requires OnTheWay(s, w, q, p) && !IsTemporary(s.rows[w]) && q < |s.txQueue| && MarkerNotOn(s, z, q)
    requires Enabled(s, TakeTransaction(q))
    ensures var t := Next(s, TakeTransaction(q)); var m := s.txQueue[q][0];
      && |t.rows| == |s.rows| && t.txQueue == s.txQueue[q := s.txQueue[q][1..]] && MarkerNotOn(t, z, q)
      && t.rows[w].status == if m.GoOnHold? && m.target == w then Hold else s.rows[w].status
  {
    var t := Next(s, TakeTransaction(q));
    var m := s.txQueue[q][0];
    assert !IsMarkerFor(m, z);
    assert TxTyped(s.rows, s.txQueue);
    assert forall i :: 0 <= i < |t.txQueue[q]| ==> t.txQueue[q][i] == s.txQueue[q][i + 1];
    assert AnyBlocking(s.rows);
  }

  lemma {:induction false} RunToHold(s: World, w: nat, q: nat, p: nat, z: nat, i: nat) returns (t: World)
    requires OnTheWay(s, w, q, p) && !IsTemporary(s.rows[w]) && q < |s.txQueue| && MarkerNotOn(s, z, q)
    requires i < |s.txQueue[q]| && s.txQueue[q][i].GoOnHold? && s.txQueue[q][i].target == w
    ensures Leads(s, t) && OnTheWay(t, w, q, p) && t.rows[w].status == Hold && AnyBlocking(t.rows)
    decreases i
  {
    OwnProcessConsumes(s, w, q, p);
    var u := Next(s, TakeTransaction(q));
    LeadsByStep(s, TakeTransaction(q));
    HeadOfNewQueue(s, w, q, p, z);
    StepOnTheWay(s, w, q, p, q);
    assert AnyBlocking(u.rows);
    if u.rows[w].status == Hold {
      t := u;
    } else {
      assert u.txQueue[q][i - 1] == s.txQueue[q][i];
      t := RunToHold(u, w, q, p, z, i - 1);
      LeadsOn(s, u, t);
    }
  }

  // ------------------------------------------------------------------ the markers run

  /** No worker is blocking any more; w is on hold on its stopped process, and the stale wake-up is still ahead. */
  ghost predicate Calm(s: World, w: nat, q: nat, p: nat) {
    && s.outbox == [] && NoWakeUps(s.txQueue) && !AnyBlocking(s.rows) && StaleAhead(s.cmdQueue, w, q, p)
    && q < |s.txQueue| && q < |s.consuming| && !s.consuming[q]
    && w < |s.rows| && s.rows[w].status == Hold
  }

  lemma HeldStaysHeld(s: World, w: nat, r: nat)
    requires Enabled(s, TakeTransaction(r)) && NoWakeUps(s.txQueue) && w < |s.rows| && s.rows[w].status == Hold
    ensures w < |Next(s, TakeTransaction(r)).rows| && Next(s, TakeTransaction(r)).rows[w] == s.rows[w]
  {
    assert !s.txQueue[r][0].GoToOriginal?;
  }

  /** While a worker is blocking, some process with a marker in its queue goes on. */
  lemma SomeMarkerAhead(s: World) returns (r: nat)
    requires Core(Silent(s)) && AnyBlocking(s.rows)
    ensures Enabled(s, TakeTransaction(r)) && NoWakeUps(s.txQueue)
  {
    CoreIsSafe(Silent(s));
    BlockingMarkerRuns(Silent(s));
    r :| 0 <= r < |s.txQueue| && s.txQueue[r] != [] && s.consuming[r];
    assert TxTyped(s.rows, s.txQueue);
  }

  lemma NowCalm(s: World, w: nat, q: nat, p: nat)
    requires s.outbox == [] && NoWakeUps(s.txQueue) && !AnyBlocking(s.rows) && StaleAhead(s.cmdQueue, w, q, p)
    requires Shape(s) && Consumption(s.rows, s.consuming) && w < |s.rows| && s.rows[w].process == Some(q) && s.rows[w].status == Hold
    ensures Calm(s, w, q, p)
  {
    assert AnyHeldOn(s.rows, q);
  }

  lemma {:induction false} RunMarkers(s: World, w: nat, q: nat, p: nat) returns (t: World)
    requires OnTheWay(s, w, q, p) && s.rows[w].status == Hold && AnyBlocking(s.rows)
    ensures Leads(s, t) && Calm(t, w, q, p)
    decreases TotalLength(s.txQueue)
  {
    var r := SomeMarkerAhead(s);
    var u := Next(s, TakeTransaction(r));
    LeadsByStep(s, TakeTransaction(r));
    StepOnTheWay(s, w, q, p, r);
    HeldStaysHeld(s, w, r);
    ShorterByOne(s, r);
    if AnyBlocking(u.rows) {
      t := RunMarkers(u, w, q, p);
      LeadsOn(s, u, t);
    } else {
      t := u;
      NowCalm(u, w, q, p);
    }
  }

  lemma ShorterByOne(s: World, r: nat)
    requires Enabled(s, TakeTransaction(r))
    ensures TotalLength(Next(s, TakeTransaction(r)).txQueue) < TotalLength(s.txQueue)
  {
    TotalLengthUpdate(s.txQueue, r, s.txQueue[r][1..]);
  }

  // ------------------------------------------------------------------ the stale wake-up comes first

  /** The stale wake-up has marked the worker active, and its process has not been told. */
  ghost predicate Forgotten(s: World, w: nat, q: nat) {
    && s.outbox == [] && NoWakeUps(s.txQueue) && !AnyBlocking(s.rows) && AllWakeUps(s.cmdQueue)
    && q < |s.txQueue| && q < |s.consuming| && !s.consuming[q] && q < |s.cmdQueue| && OnlyFor(s.cmdQueue[q], w)
    && w < |s.rows| && s.rows[w].status == Active
  }

  lemma CommandInCalm(s: World, w: nat, q: nat, p: nat)
    requires Calm(s, w, q, p)
    ensures Enabled(s, TakeCommand(p))
    ensures var t := Next(s, TakeCommand(p)); if s.cmdQueue[p][0].target == w then Forgotten(t, w, q) else Calm(t, w, q, p)
  {
    var t := Next(s, TakeCommand(p));
    var m := s.cmdQueue[p][0];
    PoppedWakeUps(s.cmdQueue, p);
    assert IsWakeUp(m);
    assert t.cmdQueue[q] == s.cmdQueue[q];
    if m.target != w {
      var i :| 0 <= i < |s.cmdQueue[p]| && s.cmdQueue[p][i] == GoToOriginal(w, Active);
      assert t.cmdQueue[p][i - 1] == s.cmdQueue[p][i];
    }
  }

  lemma {:induction false} RunStale(s: World, w: nat, q: nat, p: nat) returns (t: World)
    requires Calm(s, w, q, p)
    ensures Leads(s, t) && Forgotten(t, w, q)
    decreases |s.cmdQueue[p]|
  {
    CommandInCalm(s, w, q, p);
    var u := Next(s, TakeCommand(p));
    LeadsByStep(s, TakeCommand(p));
    if s.cmdQueue[p][0].target == w {
      t := u;
    } else {
      t := RunStale(u, w, q, p);
      LeadsOn(s, u, t);
    }
  }

  lemma ForgottenDeadlocks(s: World, w: nat, q: nat)
    requires Forgotten(s, w, q)
    ensures CanDeadlock(s)
  {
    forall i | 0 <= i < |s.cmdQueue[q]| ensures Inert(s.rows, s.cmdQueue[q][i]) {
      assert IsWakeUp(s.cmdQueue[q][i]);
    }
    DrainInert(s, q);
    var t := s.(cmdQueue := s.cmdQueue[q := []]);
    ArrivalSticks(t, q);
    DeadlockAhead(s, t);
  }

  lemma OnTheWayDeadlocks(s: World, w: nat, q: nat, p: nat, z: nat, i: nat)
    requires OnTheWay(s, w, q, p) && !IsTemporary(s.rows[w]) && q < |s.txQueue| && MarkerNotOn(s, z, q)
    requires i < |s.txQueue[q]| && s.txQueue[q][i].GoOnHold? && s.txQueue[q][i].target == w
    ensures CanDeadlock(s)
  {
    var held := RunToHold(s, w, q, p, z, i);
    var calm := RunMarkers(held, w, q, p);
    var forgotten := RunStale(calm, w, q, p);
    ForgottenDeadlocks(forgotten, w, q);
    LeadsOn(s, held, calm);
    LeadsOn(s, calm, forgotten);
    DeadlockAhead(s, forgotten);
  }

  // ------------------------------------------------------------------ from the association on

  /** The dangerous association, once published and with the new process's old commands worked off. */
  lemma DangerousIsOnTheWay(s: World, f: World, ws: seq<nat>, used: seq<nat>, k: nat) returns (p: nat, z: nat)
    requires Core(s) && AssociatedRows(s.rows, f.rows, ws, used) && SameElsewhere(s, f) && f.outbox == []
    requires AssociatedQueues(s.rows, s.txQueue, f.txQueue, ws, used, s.ops)
    requires Core(Silent(f)) && k < |ws| && DangerousAt(s, ws, used, k)
    ensures used[k] < |f.cmdQueue| && OnTheWay(f.(cmdQueue := f.cmdQueue[used[k] := []]), ws[k], used[k], p)
    ensures used[k] < |f.txQueue| && MarkerNotOn(f, z, used[k])
  {
    var w, q := ws[k], used[k];
    var i;
    p, i :| 0 <= p < |s.cmdQueue| && 0 <= i < |s.cmdQueue[p]| && s.cmdQueue[p][i].GoToOriginal? && s.cmdQueue[p][i].target == w && p != q;
    assert s.cmdQueue[p][i] == GoToOriginal(w, Active);
    var g := f.(cmdQueue := f.cmdQueue[q := []]);
    assert g.cmdQueue[p][i] == GoToOriginal(w, Active);
    assert AllWakeUps(g.cmdQueue);
    assert Silent(g) == Silent(f);
    z := MarkerGoesElsewhere(s, f, ws, used, k);
  }

  lemma MarkerGoesElsewhere(s: World, f: World, ws: seq<nat>, used: seq<nat>, k: nat) returns (z: nat)
    requires TxTyped(s.rows, s.txQueue) && AssociatedRows(s.rows, f.rows, ws, used)
    requires AssociatedQueues(s.rows, s.txQueue, f.txQueue, ws, used, s.ops)
    requires k < |ws| && used[k] < |s.txQueue| && BlockedElsewhere(s, used[k])
    ensures MarkerNotOn(f, z, used[k])
  {
    var q := used[k];
    z :| 0 <= z < |s.rows| && (IsWorking(s.rows[z]) || (s.rows[z].status == Blocking && !MarkerFrom(s.txQueue[q], z, 0)));
    if IsWorking(s.rows[z]) {
      NotBlockingNoMarker(s.rows, s.txQueue, z, q);
    }
    BlockingStays(s.rows, f.rows, ws, used);
    NoMarkerBehindHold(s.txQueue[q], GoOnHold(ws[k], s.ops), z);
  }

  lemma NotBlockingNoMarker(rows: seq<Row>, tx: seq<seq<Message>>, z: nat, q: nat)
    requires TxTyped(rows, tx) && z < |rows| && rows[z].status != Blocking && q < |tx|
    ensures !MarkerFrom(tx[q], z, 0)
  {
  }

  lemma NoMarkerBehindHold(queue: seq<Message>, hold: Message, z: nat)
    requires hold.GoOnHold? && !MarkerFrom(queue, z, 0)
    ensures !MarkerFrom(queue + [hold], z, 0)
  {
    assert forall j :: 0 <= j < |queue| ==> (queue + [hold])[j] == queue[j];
  }

  lemma DangerousAssociationDeadlocks(s: World, ps: seq<nat>, allocatable: set<nat>)
    requires Core(s) && s.outbox == [] && CanAssociate(s, ps, allocatable) && DangerousAssociation(s, ps, allocatable)
    ensures CanDeadlock(Associate(s, ps, allocatable))
  {
    var t, f := Associate(s, ps, allocatable), Flush(Associate(s, ps, allocatable));
    var ws, used := UsedWorkers(s.rows, ps), UsedProcesses(s.rows, ps);
    AssociatedIsCore(s, ps, allocatable);
    AssociateHasEffect(s, ps, allocatable);
    var k :| 0 <= k < |ws| && DangerousAt(s, ws, used, k);
    var p, z := DangerousIsOnTheWay(s, f, ws, used, k);
    var q := used[k];
    var g := f.(cmdQueue := f.cmdQueue[q := []]);
    InertAfterAssociation(s, f, q);
    DrainInert(f, q);
    assert g.txQueue[q][|s.txQueue[q]|] == GoOnHold(ws[k], s.ops);
    assert g.rows[ws[k]].status == Active;
    OnTheWayDeadlocks(g, ws[k], q, p, z, |s.txQueue[q]|);
    DeadlockAhead(f, g);
    LeadsToFlush(t);
    DeadlockAhead(t, f);
  }

  lemma InertAfterAssociation(s: World, f: World, q: nat)
    requires CmdTyped(s.rows, s.cmdQueue) && f.cmdQueue == s.cmdQueue && q < |f.cmdQueue|
    requires forall w :: 0 <= w < |f.rows| ==> f.rows[w].status != Hold
    ensures forall i :: 0 <= i < |f.cmdQueue[q]| ==> Inert(f.rows, f.cmdQueue[q][i])
  {
  }

  /** After a run without danger, take any association the script accepts in a settled world: it can lead to a deadlock if and
      only if it attaches a worker that has a wake-up waiting on another process's command queue, while some worker on a process
      or some blocking worker keeps the new process's hold message effective. */
  lemma AssociationCanDeadlockIff(s0: World, es0: seq<Event>, s: World, ps: seq<nat>, allocatable: set<nat>)
    requires Initial(s0) && Reaches(s0, es0, s) && HarmlessRun(s0, es0)
    requires s.outbox == [] && Settled(s) && CanAssociate(s, ps, allocatable)
    ensures CanDeadlock(Associate(s, ps, allocatable)) <==> DangerousAssociation(s, ps, allocatable)
  {
    InitialIsSafe(s0);
    RunKeepsSafeInv(s0, es0, s);
    assert Flush(s) == s;
    SettledIsCore(s);
    if DangerousAssociation(s, ps, allocatable) {
      DangerousAssociationDeadlocks(s, ps, allocatable);
    } else {
      StepKeepsSafeInv(s, StartAssociate(ps, allocatable));
      SafeCannotDeadlock(Associate(s, ps, allocatable));
    }
  }
}
