/** What every step of the hold/block protocol keeps, for worlds with no operation in flight. */
module ProtocolInvariants {
  import opened Wrappers
  import opened WorkerProtocol

  predicate IsMarkerFor(m: Message, w: nat) {
    m.MarkBlockingToOriginal? && m.worker == Some(w)
  }

  /** A marker for w stands in the queue at position k or later. */
  predicate MarkerFrom(queue: seq<Message>, w: nat, k: nat) {
    exists j :: k <= j < |queue| && IsMarkerFor(queue[j], w)
  }

  /** No marker for w among the first k messages. */
  predicate NoMarkerAmong(queue: seq<Message>, w: nat, k: nat)
    requires k <= |queue|
  {
    forall i :: 0 <= i < k ==> !IsMarkerFor(queue[i], w)
  }

  lemma MarkersFurtherBack(queue: seq<Message>, w: nat, k: nat)
    requires 0 < k <= |queue| && NoMarkerAmong(queue, w, k)
    ensures NoMarkerAmong(queue[1..], w, k - 1)
  {
  }

  predicate AnyMarkerFrom(queue: seq<Message>, k: nat) {
    exists j :: k <= j < |queue| && queue[j].MarkBlockingToOriginal?
  }

  predicate Shape(s: World) {
    && |s.txQueue| == |s.cmdQueue| == |s.consuming| == |s.executed|
    && (forall w :: 0 <= w < |s.rows| && s.rows[w].process.Some? ==> s.rows[w].process.value < |s.txQueue|)
  }

  /** At most one worker of the client on a process. */
  predicate Alone(rows: seq<Row>) {
    forall a, b :: 0 <= a < |rows| && 0 <= b < |rows| && rows[a].process.Some? && rows[a].process == rows[b].process ==> a == b
  }

  /** A marker names a blocking worker and the status to give it back; nothing on a transaction queue wakes anyone. */
  predicate TxTyped(rows: seq<Row>, tx: seq<seq<Message>>) {
    forall p, i :: 0 <= p < |tx| && 0 <= i < |tx[p]| ==>
      && !tx[p][i].GoToOriginal?
      && (tx[p][i].GoOnHold? ==> tx[p][i].target < |rows|)
      && (tx[p][i].MarkBlockingToOriginal? ==>
            && tx[p][i].worker.Some?
            && tx[p][i].worker.value < |rows|
            && rows[tx[p][i].worker.value].status == Blocking
            && (tx[p][i].original == Active || tx[p][i].original == Inactive))
  }

  predicate MarkersOnce(tx: seq<seq<Message>>) {
    forall p, i, q, j :: 0 <= p < |tx| && 0 <= i < |tx[p]| && 0 <= q < |tx| && 0 <= j < |tx[q]|
      && tx[p][i].MarkBlockingToOriginal? && tx[q][j].MarkBlockingToOriginal? && tx[p][i].worker == tx[q][j].worker
      ==> p == q && i == j
  }

  predicate MarkerExists(rows: seq<Row>, tx: seq<seq<Message>>) {
    forall w :: 0 <= w < |rows| && rows[w].status == Blocking ==> exists p :: 0 <= p < |tx| && MarkerFrom(tx[p], w, 0)
  }

  /** A hold message for a worker that is not blocking stands on the worker's own process with no marker behind it;
      one for a blocking worker has that worker's marker behind it. */
  predicate HoldPlaced(rows: seq<Row>, tx: seq<seq<Message>>)
    requires TxTyped(rows, tx)
  {
    forall p, i :: 0 <= p < |tx| && 0 <= i < |tx[p]| && tx[p][i].GoOnHold? ==>
      var w := tx[p][i].target;
      if rows[w].status == Blocking then MarkerFrom(tx[p], w, i + 1)
      else rows[w].process == Some(p) && !AnyMarkerFrom(tx[p], i + 1)
  }

  /** A command queue holds wake-ups only, and a wake-up of a worker on a process stands on that process's queue. */
  predicate CmdTyped(rows: seq<Row>, cmd: seq<seq<Message>>) {
    forall p, i :: 0 <= p < |cmd| && 0 <= i < |cmd[p]| ==>
      && cmd[p][i].GoToOriginal?
      && cmd[p][i].target < |rows|
      && cmd[p][i].original == Active
      && (rows[cmd[p][i].target].process.Some? ==> rows[cmd[p][i].target].process.value == p)
  }

  /** A process consumes its transaction queue exactly when no worker on it is on hold. */
  predicate Consumption(rows: seq<Row>, consuming: seq<bool>) {
    && (forall w :: 0 <= w < |rows| && rows[w].status == Hold ==> rows[w].process.Some?)
    && (forall p :: 0 <= p < |consuming| ==> consuming[p] == !AnyHeldOn(rows, p))
  }

  /** A process with a marker waiting consumes its transaction queue. */
  predicate MarkersRun(tx: seq<seq<Message>>, consuming: seq<bool>)
    requires |tx| == |consuming|
  {
    forall p :: 0 <= p < |tx| && AnyMarkerFrom(tx[p], 0) ==> consuming[p]
  }

  /** A held worker waits for a blocking one, or has its wake-up waiting. */
  predicate Awake(rows: seq<Row>, cmd: seq<seq<Message>>) {
    forall w :: 0 <= w < |rows| && rows[w].status == Hold ==>
      || AnyBlocking(rows)
      || (rows[w].process.Some? && rows[w].process.value < |cmd| && GoToOriginal(w, Active) in cmd[rows[w].process.value])
  }

  predicate Core(s: World) {
    && Shape(s)
    && Alone(s.rows)
    && TxTyped(s.rows, s.txQueue)
    && MarkersOnce(s.txQueue)
    && MarkerExists(s.rows, s.txQueue)
    && HoldPlaced(s.rows, s.txQueue)
    && CmdTyped(s.rows, s.cmdQueue)
    && Consumption(s.rows, s.consuming)
    && MarkersRun(s.txQueue, s.consuming)
    && Awake(s.rows, s.cmdQueue)
  }

  // ------------------------------------------------------------------ transaction queue facts under popping

  lemma PopKeepsQueueFacts(s: World, p: nat)
    requires Core(s) && Enabled(s, TakeTransaction(p))
    ensures var tx := PopTransaction(s, p).txQueue;
            && TxTyped(s.rows, tx)
            && MarkersOnce(tx)
            && HoldPlaced(s.rows, tx)
            && MarkersRun(tx, s.consuming)
    ensures var tx := PopTransaction(s, p).txQueue; var m := s.txQueue[p][0];
            && (forall w :: 0 <= w < |s.rows| && s.rows[w].status == Blocking && !IsMarkerFor(m, w) ==>
                  exists q :: 0 <= q < |tx| && MarkerFrom(tx[q], w, 0))
            && (m.MarkBlockingToOriginal? ==>
                  forall q :: 0 <= q < |tx| ==> !MarkerFrom(tx[q], m.worker.value, 0))
  {
    PopKeepsOtherMarkers(s, p);
    PopKeepsHoldPlaced(s, p);
    PopKeepsMarkersRun(s.txQueue, s.consuming, p);
  }

  lemma PopKeepsMarkersRun(tx: seq<seq<Message>>, consuming: seq<bool>, p: nat)
    requires |tx| == |consuming| && p < |tx| && tx[p] != [] && MarkersRun(tx, consuming)
    ensures MarkersRun(tx[p := tx[p][1..]], consuming)
  {
    var after := tx[p := tx[p][1..]];
    forall q | 0 <= q < |after| && AnyMarkerFrom(after[q], 0) ensures consuming[q] {
      var j :| 0 <= j < |after[q]| && after[q][j].MarkBlockingToOriginal?;
      assert tx[q][if q == p then j + 1 else j].MarkBlockingToOriginal?;
    }
  }

  lemma PopKeepsOtherMarkers(s: World, p: nat)
    requires MarkerExists(s.rows, s.txQueue) && Enabled(s, TakeTransaction(p))
    ensures var tx := PopTransaction(s, p).txQueue;
            forall w :: 0 <= w < |s.rows| && s.rows[w].status == Blocking && !IsMarkerFor(s.txQueue[p][0], w) ==>
              exists q :: 0 <= q < |tx| && MarkerFrom(tx[q], w, 0)
  {
    var tx := PopTransaction(s, p).txQueue;
    forall w | 0 <= w < |s.rows| && s.rows[w].status == Blocking && !IsMarkerFor(s.txQueue[p][0], w)
      ensures exists q :: 0 <= q < |tx| && MarkerFrom(tx[q], w, 0)
    {
      var q :| 0 <= q < |s.txQueue| && MarkerFrom(s.txQueue[q], w, 0);
      var j :| 0 <= j < |s.txQueue[q]| && IsMarkerFor(s.txQueue[q][j], w);
      if q == p {
        assert IsMarkerFor(tx[p][j - 1], w);
      } else {
        assert IsMarkerFor(tx[q][j], w);
      }
      assert MarkerFrom(tx[q], w, 0);
    }
  }

  lemma PopKeepsHoldPlaced(s: World, p: nat)
    requires Core(s) && Enabled(s, TakeTransaction(p))
    requires TxTyped(s.rows, PopTransaction(s, p).txQueue)
    ensures HoldPlaced(s.rows, PopTransaction(s, p).txQueue)
  {
    var tx: seq<seq<Message>> := PopTransaction(s, p).txQueue;
    forall q, i | 0 <= q < |tx| && 0 <= i < |tx[q]| && tx[q][i].GoOnHold?
      ensures var w := tx[q][i].target;
              if s.rows[w].status == Blocking then MarkerFrom(tx[q], w, i + 1)
              else s.rows[w].process == Some(q) && !AnyMarkerFrom(tx[q], i + 1)
    {
      var w := tx[q][i].target;
      if q == p {
        assert tx[p][i] == s.txQueue[p][i + 1];
        if s.rows[w].status == Blocking {
          var j :| i + 2 <= j < |s.txQueue[p]| && IsMarkerFor(s.txQueue[p][j], w);
          assert IsMarkerFor(tx[p][j - 1], w);
        } else {
          assert !AnyMarkerFrom(s.txQueue[p], i + 2);
          assert forall j :: i + 1 <= j < |tx[p]| ==> tx[p][j] == s.txQueue[p][j + 1];
        }
      }
    }
  }

  // ------------------------------------------------------------------ the handlers

  /** Waking adds, for each held worker from k on, a wake-up on its own process's command queue, and nothing else. */
  lemma {:induction false} WakeHeldAdds(rows: seq<Row>, cmd: seq<seq<Message>>, k: nat)
    requires k <= |rows|
    requires forall w :: 0 <= w < |rows| && rows[w].status == Hold ==>
               rows[w].process.Some? && rows[w].process.value < |cmd|
    ensures forall p :: 0 <= p < |cmd| ==> cmd[p] <= WakeHeld(rows, cmd, k)[p]
    ensures forall p, i :: 0 <= p < |cmd| && |cmd[p]| <= i < |WakeHeld(rows, cmd, k)[p]| ==>
              var m := WakeHeld(rows, cmd, k)[p][i];
              m.GoToOriginal? && m.target < |rows| && m.original == Active
              && rows[m.target].status == Hold && rows[m.target].process == Some(p)
    ensures forall w :: k <= w < |rows| && rows[w].status == Hold ==>
              GoToOriginal(w, Active) in WakeHeld(rows, cmd, k)[rows[w].process.value]
    decreases |rows| - k
  {
    if k < |rows| {
      if rows[k].status != Hold {
        WakeHeldAdds(rows, cmd, k + 1);
      } else {
        var p := rows[k].process.value;
        var sent := Send(cmd, p, GoToOriginal(k, Active));
        WakeHeldAdds(rows, sent, k + 1);
        assert WakeHeld(rows, cmd, k)[p][|cmd[p]|] == sent[p][|cmd[p]|] == GoToOriginal(k, Active);
      }
    }
  }

  function Unblocked(rows: seq<Row>, w: nat, original: Status): (r: seq<Row>)
    requires w < |rows|
  {
    rows[w := rows[w].(status := original)]
  }

  lemma UnblockedQueues(rows: seq<Row>, tx: seq<seq<Message>>, w: nat, original: Status)
    requires w < |rows| && rows[w].status == Blocking && (original == Active || original == Inactive)
    requires TxTyped(rows, tx) && HoldPlaced(rows, tx) && forall q :: 0 <= q < |tx| ==> !MarkerFrom(tx[q], w, 0)
    ensures TxTyped(Unblocked(rows, w, original), tx) && HoldPlaced(Unblocked(rows, w, original), tx)
  {
    forall q, i | 0 <= q < |tx| && 0 <= i < |tx[q]|
      ensures !IsMarkerFor(tx[q][i], w) && !MarkerFrom(tx[q], w, i + 1)
    {
      assert !MarkerFrom(tx[q], w, 0);
    }
  }

  lemma UnblockedConsumption(rows: seq<Row>, consuming: seq<bool>, w: nat, original: Status)
    requires w < |rows| && rows[w].status == Blocking && (original == Active || original == Inactive)
    requires Consumption(rows, consuming)
    ensures Consumption(Unblocked(rows, w, original), consuming)
  {
    forall q | 0 <= q < |consuming| ensures consuming[q] == !AnyHeldOn(Unblocked(rows, w, original), q) {
      HeldElsewhereSame(rows, Unblocked(rows, w, original), q);
    }
  }

  lemma UnblockedCommands(rows: seq<Row>, cmd: seq<seq<Message>>)
    requires CmdTyped(rows, cmd) && Alone(rows)
    requires forall w :: 0 <= w < |rows| && rows[w].status == Hold ==> rows[w].process.Some? && rows[w].process.value < |cmd|
    ensures |WakeHeld(rows, cmd, 0)| == |cmd| && CmdTyped(rows, WakeHeld(rows, cmd, 0)) && Awake(rows, WakeHeld(rows, cmd, 0))
  {
    WakeHeldAdds(rows, cmd, 0);
  }

  lemma MarkerKeepsCore(s: World, p: nat)
    requires Core(s) && Enabled(s, TakeTransaction(p)) && s.txQueue[p][0].MarkBlockingToOriginal?
    ensures Core(Next(s, TakeTransaction(p)))
  {
    var tx := PopTransaction(s, p).txQueue;
    PopKeepsQueueFacts(s, p);
    var m: Message := s.txQueue[p][0];
    var w := m.worker.value;
    var rows := Unblocked(s.rows, w, m.original);
    UnblockedQueues(s.rows, tx, w, m.original);
    UnblockedConsumption(s.rows, s.consuming, w, m.original);
    assert Alone(rows) && CmdTyped(rows, s.cmdQueue);
    UnblockedCommands(rows, s.cmdQueue);
    assert MarkerExists(rows, tx);
  }

  /** Whether a process has a held worker depends only on which rows are on hold and where. */
  lemma HeldElsewhereSame(a: seq<Row>, b: seq<Row>, p: nat)
    requires |a| == |b|
    requires forall w :: 0 <= w < |a| ==> (a[w].status == Hold && a[w].process == Some(p) <==> b[w].status == Hold && b[w].process == Some(p))
    ensures AnyHeldOn(a, p) == AnyHeldOn(b, p)
  {
  }

  /** Two tables with the same attachments and the same blocking workers satisfy the same queue facts. */
  predicate SamePlaces(a: seq<Row>, b: seq<Row>) {
    && |a| == |b|
    && (forall w :: 0 <= w < |a| ==> a[w].process == b[w].process && (a[w].status == Blocking <==> b[w].status == Blocking))
  }

  lemma SamePlacesKeep(a: seq<Row>, b: seq<Row>, tx: seq<seq<Message>>, cmd: seq<seq<Message>>)
    requires SamePlaces(a, b) && Alone(a) && TxTyped(a, tx) && HoldPlaced(a, tx) && CmdTyped(a, cmd)
    ensures Alone(b) && TxTyped(b, tx) && HoldPlaced(b, tx) && CmdTyped(b, cmd)
    ensures MarkerExists(a, tx) ==> MarkerExists(b, tx)
    ensures AnyBlocking(a) == AnyBlocking(b)
  {
    if AnyBlocking(a) {
      var w :| 0 <= w < |a| && a[w].status == Blocking;
      assert b[w].status == Blocking;
    }
    assert TxTyped(b, tx);
  }

  /** A process that stops at a hold message leaves no marker behind it in its queue. */
  lemma StoppedQueueHasNoMarker(s: World, p: nat)
    requires Core(s) && Enabled(s, TakeTransaction(p)) && s.txQueue[p][0].GoOnHold?
    requires !IsTemporary(s.rows[s.txQueue[p][0].target])
    ensures s.rows[s.txQueue[p][0].target].process == Some(p)
    ensures MarkersRun(PopTransaction(s, p).txQueue, s.consuming[p := false])
  {
    PopKeepsQueueFacts(s, p);
    var tx: seq<seq<Message>> := PopTransaction(s, p).txQueue;
    assert !AnyMarkerFrom(s.txQueue[p], 1);
    assert forall j :: 0 <= j < |tx[p]| ==> tx[p][j] == s.txQueue[p][j + 1];
    assert !AnyMarkerFrom(tx[p], 0);
  }

  lemma GoOnHoldKeepsCore(s: World, p: nat)
    requires Core(s) && Enabled(s, TakeTransaction(p)) && s.txQueue[p][0].GoOnHold?
    ensures Core(Next(s, TakeTransaction(p)))
  {
    PopKeepsQueueFacts(s, p);
    var w := s.txQueue[p][0].target;
    var u := PopTransaction(s, p);
    assert Core(u);
    if !IsTemporary(s.rows[w]) && AnyBlocking(s.rows) {
      StoppedQueueHasNoMarker(s, p);
      HoldKeepsCore(u, w, p);
    }
  }

  lemma HoldKeepsCore(u: World, w: nat, p: nat)
    requires Core(u) && w < |u.rows| && p < |u.consuming| && u.rows[w].process == Some(p)
    requires !IsTemporary(u.rows[w]) && AnyBlocking(u.rows)
    requires MarkersRun(u.txQueue, u.consuming[p := false])
    ensures Core(u.(rows := u.rows[w := u.rows[w].(status := Hold)], consuming := u.consuming[p := false]))
  {
    var rows := u.rows[w := u.rows[w].(status := Hold)];
    SamePlacesKeep(u.rows, rows, u.txQueue, u.cmdQueue);
    NewlyHeldStopsItsProcess(u.rows, rows, u.consuming, w, p);
  }

  lemma NewlyHeldStopsItsProcess(a: seq<Row>, b: seq<Row>, consuming: seq<bool>, w: nat, p: nat)
    requires w < |a| && p < |consuming|
    requires Consumption(a, consuming) && a[w].process == Some(p) && b == a[w := a[w].(status := Hold)]
    ensures Consumption(b, consuming[p := false])
  {
    assert b[w].status == Hold && b[w].process == Some(p);
    forall q | 0 <= q < |consuming| && q != p ensures consuming[q] == !AnyHeldOn(b, q) {
      HeldElsewhereSame(a, b, q);
    }
  }

  /** Once no worker on p is on hold, p may consume. */
  lemma ReleasedStartsItsProcess(a: seq<Row>, b: seq<Row>, consuming: seq<bool>, p: nat)
    requires |a| == |b| && p < |consuming| && Consumption(a, consuming) && !AnyHeldOn(b, p)
    requires forall w :: 0 <= w < |a| ==>
               a[w].process == b[w].process && (b[w].status == Hold <==> a[w].status == Hold && a[w].process != Some(p))
    ensures Consumption(b, consuming[p := true])
  {
    forall q | 0 <= q < |consuming| && q != p ensures consuming[q] == !AnyHeldOn(b, q) {
      HeldElsewhereSame(a, b, q);
    }
  }

  lemma GoToOriginalKeepsCore(s: World, p: nat)
    requires Core(s) && Enabled(s, TakeCommand(p))
    ensures Core(Next(s, TakeCommand(p)))
  {
    var t := Next(s, TakeCommand(p));
    var w := s.cmdQueue[p][0].target;
    assert CmdTyped(s.rows, t.cmdQueue);
    SamePlacesKeep(s.rows, t.rows, t.txQueue, t.cmdQueue);
    PoppedWakeUp(s, p);
    if s.rows[w].status == Hold && !AnyBlocking(s.rows) {
      forall v | 0 <= v < |s.rows| && v != w && s.rows[v].status == Hold ensures s.rows[v].process != Some(p) {
        assert s.rows[w].process == Some(p);
      }
      ReleasedStartsItsProcess(s.rows, t.rows, s.consuming, p);
    }
  }

  lemma PoppedWakeUp(s: World, p: nat)
    requires Core(s) && Enabled(s, TakeCommand(p))
    ensures forall v :: 0 <= v < |s.rows| && s.rows[v].status == Hold && !AnyBlocking(s.rows) && v != s.cmdQueue[p][0].target ==>
              GoToOriginal(v, Active) in PopCommand(s, p).cmdQueue[s.rows[v].process.value]
  {
    var cmd := PopCommand(s, p).cmdQueue;
    forall v | 0 <= v < |s.rows| && s.rows[v].status == Hold && !AnyBlocking(s.rows) && v != s.cmdQueue[p][0].target
      ensures GoToOriginal(v, Active) in cmd[s.rows[v].process.value]
    {
      var q := s.rows[v].process.value;
      var i :| 0 <= i < |s.cmdQueue[q]| && s.cmdQueue[q][i] == GoToOriginal(v, Active);
      if q == p {
        assert cmd[p][i - 1] == s.cmdQueue[p][i];
      }
    }
  }

  lemma TransactionKeepsCore(s: World, p: nat)
    requires Core(s) && Enabled(s, TakeTransaction(p)) && s.txQueue[p][0].Transaction?
    ensures Core(Next(s, TakeTransaction(p)))
  {
    PopKeepsQueueFacts(s, p);
  }

  lemma RestartKeepsCore(s: World, p: nat)
    requires Core(s) && p < |s.consuming|
    ensures Core(Restart(s, p))
  {
    var t := Restart(s, p);
    SamePlacesKeep(s.rows, t.rows, t.txQueue, t.cmdQueue);
    if !(AnyHeldOn(s.rows, p) && AnyBlocking(s.rows)) {
      ReleasedStartsItsProcess(s.rows, t.rows, s.consuming, p);
    } else {
      assert t.consuming == s.consuming;
    }
  }

  lemma TakeTransactionKeepsCore(s: World, p: nat)
    requires Core(s) && Enabled(s, TakeTransaction(p))
    ensures Core(Next(s, TakeTransaction(p)))
  {
    match s.txQueue[p][0] {
      case Transaction(_) => TransactionKeepsCore(s, p);
      case MarkBlockingToOriginal(_, _, _) => MarkerKeepsCore(s, p);
      case GoOnHold(_, _) => GoOnHoldKeepsCore(s, p);
      case GoToOriginal(_, _) =>
    }
  }
}
