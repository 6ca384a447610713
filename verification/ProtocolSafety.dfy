/** The weakest state of affairs from which the protocol cannot stop.  It allows what an unlucky operation can leave behind as
    long as it does no harm: hold messages that will find no worker blocking, wake-ups for a worker that cannot be held, and
    markers that name nobody. */
module ProtocolSafety {
  import opened Wrappers
  import opened WorkerProtocol
  import opened ProtocolInvariants
  import opened ProtocolOperations

  ghost predicate RealMarker(m: Message) {
    m.MarkBlockingToOriginal? && m.worker.Some?
  }

  /** Every marker stands on queue q before position j: a message at j runs only when no worker is blocking any more. */
  ghost predicate Mute(tx: seq<seq<Message>>, q: nat, j: nat) {
    forall p, i :: 0 <= p < |tx| && 0 <= i < |tx[p]| && RealMarker(tx[p][i]) ==> p == q && i < j
  }

  ghost predicate MarkerStands(tx: seq<seq<Message>>, w: nat, q: nat, k: nat) {
    q < |tx| && k < |tx[q]| && IsMarkerFor(tx[q][k], w)
  }

  /** The marker of w runs after all others. */
  ghost predicate LastMarker(tx: seq<seq<Message>>, w: nat) {
    exists q, k :: 0 <= q < |tx| && 0 <= k < |tx[q]| && MarkerStands(tx, w, q, k) && Mute(tx, q, k + 1)
  }

  ghost predicate SafeTyped(rows: seq<Row>, tx: seq<seq<Message>>) {
    forall p, i :: 0 <= p < |tx| && 0 <= i < |tx[p]| ==> MessageTyped(rows, tx[p][i])
  }

  ghost predicate MessageTyped(rows: seq<Row>, m: Message) {
    match m
    case Transaction(_) => true
    case GoToOriginal(_, _) => false
    case GoOnHold(w, _) => w < |rows|
    case MarkBlockingToOriginal(w, original, _) =>
      w.Some? ==> w.value < |rows| && rows[w.value].status == Blocking && (original == Active || original == Inactive)
  }

  ghost predicate MarkersUnique(tx: seq<seq<Message>>) {
    forall w: nat, p: nat, i: nat, q: nat, j: nat :: MarkerStands(tx, w, p, i) && MarkerStands(tx, w, q, j) ==> p == q && i == j
  }

  /** The worker's process is q, and no marker stands behind position i of that queue. */
  ghost predicate WellPlaced(rows: seq<Row>, tx: seq<seq<Message>>, w: nat, q: nat, i: nat)
    requires w < |rows| && q < |tx|
  {
    rows[w].process == Some(q) && forall j :: i < j < |tx[q]| ==> !RealMarker(tx[q][j])
  }

  /** The hold message for w at position i of queue q does no harm. */
  ghost predicate HoldOk(rows: seq<Row>, tx: seq<seq<Message>>, w: nat, q: nat, i: nat)
    requires w < |rows| && q < |tx|
  {
    if rows[w].status == Blocking then MarkerFrom(tx[q], w, i + 1) || LastMarker(tx, w)
    else WellPlaced(rows, tx, w, q, i) || Mute(tx, q, i)
  }

  ghost predicate HoldAt(tx: seq<seq<Message>>, w: nat, q: nat, i: nat) {
    q < |tx| && i < |tx[q]| && tx[q][i].GoOnHold? && tx[q][i].target == w
  }

  ghost predicate HoldsOk(rows: seq<Row>, tx: seq<seq<Message>>) {
    forall w: nat, q: nat, i: nat :: HoldAt(tx, w, q, i) ==> w < |rows| && HoldOk(rows, tx, w, q, i)
  }

  /** No hold message can put w on hold. */
  ghost predicate Unholdable(rows: seq<Row>, tx: seq<seq<Message>>, w: nat)
    requires w < |rows|
  {
    rows[w].status != Hold && rows[w].status != Blocking && forall q: nat, i: nat :: HoldAt(tx, w, q, i) ==> Mute(tx, q, i)
  }

  ghost predicate CommandOk(rows: seq<Row>, tx: seq<seq<Message>>, p: nat, m: Message) {
    && m.GoToOriginal? && m.target < |rows| && m.original == Active
    && (rows[m.target].process.Some? && rows[m.target].process.value != p ==> Unholdable(rows, tx, m.target))
  }

  ghost predicate CommandsOk(rows: seq<Row>, tx: seq<seq<Message>>, cmd: seq<seq<Message>>) {
    forall p, i :: 0 <= p < |cmd| && 0 <= i < |cmd[p]| ==> CommandOk(rows, tx, p, cmd[p][i])
  }

  ghost predicate MarkersConsumed(tx: seq<seq<Message>>, consuming: seq<bool>)
    requires |tx| == |consuming|
  {
    forall p, i :: 0 <= p < |tx| && 0 <= i < |tx[p]| && RealMarker(tx[p][i]) ==> consuming[p]
  }

  ghost predicate Safe(s: World) {
    && Shape(s)
    && Alone(s.rows)
    && SafeTyped(s.rows, s.txQueue)
    && MarkersUnique(s.txQueue)
    && MarkerExists(s.rows, s.txQueue)
    && HoldsOk(s.rows, s.txQueue)
    && CommandsOk(s.rows, s.txQueue, s.cmdQueue)
    && Consumption(s.rows, s.consuming)
    && MarkersConsumed(s.txQueue, s.consuming)
    && Awake(s.rows, s.cmdQueue)
  }

  // ------------------------------------------------------------------ running the head of a queue

  function Popped(tx: seq<seq<Message>>, p: nat): (ty: seq<seq<Message>>)
    requires p < |tx| && tx[p] != []
  {
    tx[p := tx[p][1..]]
  }

  /** Where a message of the popped queues stood before. */
  function Back(p: nat, q: nat, i: nat): (j: nat)
  {
    if q == p then i + 1 else i
  }

  lemma PoppedAt(tx: seq<seq<Message>>, p: nat, q: nat, i: nat)
    requires p < |tx| && tx[p] != [] && q < |tx|
    ensures i < |Popped(tx, p)[q]| <==> Back(p, q, i) < |tx[q]|
    ensures i < |Popped(tx, p)[q]| ==> Popped(tx, p)[q][i] == tx[q][Back(p, q, i)]
  {
  }

  lemma PopKeepsMute(tx: seq<seq<Message>>, p: nat, q: nat, i: nat)
    requires p < |tx| && tx[p] != [] && Mute(tx, q, Back(p, q, i))
    ensures Mute(Popped(tx, p), q, i)
  {
    var ty: seq<seq<Message>> := Popped(tx, p);
    forall r, j | 0 <= r < |ty| && 0 <= j < |ty[r]| && RealMarker(ty[r][j])
      ensures r == q && j < i
    {
      PoppedAt(tx, p, r, j);
    }
  }

  lemma PopKeepsMarker(tx: seq<seq<Message>>, p: nat, w: nat, q: nat, i: nat)
    requires p < |tx| && tx[p] != [] && q < |tx| && MarkerFrom(tx[q], w, Back(p, q, i) + 1)
    ensures MarkerFrom(Popped(tx, p)[q], w, i + 1)
  {
    var j :| Back(p, q, i) + 1 <= j < |tx[q]| && IsMarkerFor(tx[q][j], w);
    var k := if q == p then j - 1 else j;
    PoppedAt(tx, p, q, k);
    assert IsMarkerFor(Popped(tx, p)[q][k], w);
  }

  lemma PopKeepsLastMarker(tx: seq<seq<Message>>, p: nat, w: nat)
    requires p < |tx| && tx[p] != [] && LastMarker(tx, w) && !IsMarkerFor(tx[p][0], w)
    ensures LastMarker(Popped(tx, p), w)
  {
    var q, k :| 0 <= q < |tx| && 0 <= k < |tx[q]| && MarkerStands(tx, w, q, k) && Mute(tx, q, k + 1);
    var i := if q == p then k - 1 else k;
    PoppedAt(tx, p, q, i);
    PopKeepsMute(tx, p, q, i + 1);
    assert MarkerStands(Popped(tx, p), w, q, i);
  }

  lemma PopKeepsUnique(tx: seq<seq<Message>>, p: nat)
    requires p < |tx| && tx[p] != [] && MarkersUnique(tx)
    ensures MarkersUnique(Popped(tx, p))
  {
    var ty := Popped(tx, p);
    forall w: nat, q: nat, i: nat, r: nat, j: nat | MarkerStands(ty, w, q, i) && MarkerStands(ty, w, r, j)
      ensures q == r && i == j
    {
      PoppedAt(tx, p, q, i);
      PoppedAt(tx, p, r, j);
      assert MarkerStands(tx, w, q, Back(p, q, i)) && MarkerStands(tx, w, r, Back(p, r, j));
    }
  }

  lemma PopKeepsConsumed(tx: seq<seq<Message>>, consuming: seq<bool>, p: nat)
    requires |tx| == |consuming| && p < |tx| && tx[p] != [] && MarkersConsumed(tx, consuming)
    ensures MarkersConsumed(Popped(tx, p), consuming)
  {
    var ty: seq<seq<Message>> := Popped(tx, p);
    forall q, i | 0 <= q < |ty| && 0 <= i < |ty[q]| && RealMarker(ty[q][i])
      ensures consuming[q]
    {
      PoppedAt(tx, p, q, i);
    }
  }

  /** The rows b are the rows a, except that the worker of a marker at the head of queue p is not blocking any more. */
  ghost predicate HeadDone(a: seq<Row>, b: seq<Row>, head: Message) {
    && |a| == |b|
    && (forall w :: 0 <= w < |a| ==> b[w].process == a[w].process)
    && (forall w :: 0 <= w < |a| && !IsMarkerFor(head, w) ==> b[w].status == a[w].status)
    && (forall w :: 0 <= w < |a| && IsMarkerFor(head, w) ==> b[w].status == Active || b[w].status == Inactive)
  }

  lemma NotElsewhere(tx: seq<seq<Message>>, w: nat, p: nat, i: nat, q: nat, j: nat)
    requires MarkersUnique(tx) && MarkerStands(tx, w, p, i) && (p != q || i != j)
    ensures !MarkerStands(tx, w, q, j)
  {
  }

  lemma PopKeepsTyped(a: seq<Row>, b: seq<Row>, tx: seq<seq<Message>>, p: nat)
    requires p < |tx| && tx[p] != [] && SafeTyped(a, tx) && MarkersUnique(tx) && HeadDone(a, b, tx[p][0])
    ensures SafeTyped(b, Popped(tx, p))
  {
    var ty: seq<seq<Message>> := Popped(tx, p);
    forall q, i | 0 <= q < |ty| && 0 <= i < |ty[q]|
      ensures MessageTyped(b, ty[q][i])
    {
      PoppedAt(tx, p, q, i);
      assert MessageTyped(a, tx[q][Back(p, q, i)]);
      var m := ty[q][i];
      if RealMarker(m) {
        NotElsewhere(tx, m.worker.value, q, Back(p, q, i), p, 0);
      }
    }
  }

  lemma PopKeepsMarkerExists(a: seq<Row>, b: seq<Row>, tx: seq<seq<Message>>, p: nat)
    requires p < |tx| && tx[p] != [] && MarkerExists(a, tx) && HeadDone(a, b, tx[p][0])
    ensures MarkerExists(b, Popped(tx, p))
  {
    var ty: seq<seq<Message>> := Popped(tx, p);
    forall w | 0 <= w < |b| && b[w].status == Blocking
      ensures exists q :: 0 <= q < |ty| && MarkerFrom(ty[q], w, 0)
    {
      var q :| 0 <= q < |tx| && MarkerFrom(tx[q], w, 0);
      var j :| 0 <= j < |tx[q]| && IsMarkerFor(tx[q][j], w);
      var i := if q == p then j - 1 else j;
      PoppedAt(tx, p, q, i);
      assert MarkerFrom(ty[q], w, 0);
    }
  }

  lemma PopKeepsHold(a: seq<Row>, b: seq<Row>, tx: seq<seq<Message>>, p: nat, w: nat, q: nat, i: nat)
    requires p < |tx| && tx[p] != [] && MarkersUnique(tx) && HeadDone(a, b, tx[p][0]) && w < |a| && q < |tx|
    requires IsMarkerFor(tx[p][0], w) ==> a[w].status == Blocking
    requires HoldOk(a, tx, w, q, Back(p, q, i))
    ensures HoldOk(b, Popped(tx, p), w, q, i)
  {
    if IsMarkerFor(tx[p][0], w) {
      LastOneDone(tx, p, w, q, i);
    } else if a[w].status == Blocking {
      if MarkerFrom(tx[q], w, Back(p, q, i) + 1) {
        PopKeepsMarker(tx, p, w, q, i);
      } else {
        PopKeepsLastMarker(tx, p, w);
      }
    } else if WellPlaced(a, tx, w, q, Back(p, q, i)) {
      forall j | i < j < |Popped(tx, p)[q]|
        ensures !RealMarker(Popped(tx, p)[q][j])
      {
        PoppedAt(tx, p, q, j);
      }
    } else {
      PopKeepsMute(tx, p, q, i);
    }
  }

  /** A hold message for a worker whose marker runs elsewhere is mute once that marker, the last one, has run. */
  lemma LastOneDone(tx: seq<seq<Message>>, p: nat, w: nat, q: nat, i: nat)
    requires p < |tx| && tx[p] != [] && MarkersUnique(tx) && IsMarkerFor(tx[p][0], w) && q < |tx|
    requires MarkerFrom(tx[q], w, Back(p, q, i) + 1) || LastMarker(tx, w)
    ensures Mute(Popped(tx, p), q, i)
  {
    forall j | Back(p, q, i) + 1 <= j < |tx[q]| ensures !IsMarkerFor(tx[q][j], w) {
      NotElsewhere(tx, w, p, 0, q, j);
    }
    var r, k :| 0 <= r < |tx| && 0 <= k < |tx[r]| && MarkerStands(tx, w, r, k) && Mute(tx, r, k + 1);
    assert MarkerStands(tx, w, p, 0);
    var ty: seq<seq<Message>> := Popped(tx, p);
    forall r', j | 0 <= r' < |ty| && 0 <= j < |ty[r']|
      ensures !RealMarker(ty[r'][j])
    {
      PoppedAt(tx, p, r', j);
    }
  }

  lemma PopKeepsHolds(a: seq<Row>, b: seq<Row>, tx: seq<seq<Message>>, p: nat)
    requires p < |tx| && tx[p] != [] && SafeTyped(a, tx) && MarkersUnique(tx) && HeadDone(a, b, tx[p][0])
    requires HoldsOk(a, tx)
    ensures HoldsOk(b, Popped(tx, p))
  {
    var ty := Popped(tx, p);
    assert MessageTyped(a, tx[p][0]);
    forall w: nat, q: nat, i: nat | HoldAt(ty, w, q, i)
      ensures w < |b| && HoldOk(b, ty, w, q, i)
    {
      PoppedAt(tx, p, q, i);
      assert HoldAt(tx, w, q, Back(p, q, i));
      PopKeepsHold(a, b, tx, p, w, q, i);
    }
  }

  lemma PopKeepsUnholdable(a: seq<Row>, b: seq<Row>, tx: seq<seq<Message>>, p: nat, w: nat)
    requires p < |tx| && tx[p] != [] && SafeTyped(a, tx) && HeadDone(a, b, tx[p][0]) && w < |a|
    requires Unholdable(a, tx, w)
    ensures Unholdable(b, Popped(tx, p), w)
  {
    var ty := Popped(tx, p);
    assert MessageTyped(a, tx[p][0]);
    forall q: nat, i: nat | HoldAt(ty, w, q, i)
      ensures Mute(ty, q, i)
    {
      PoppedAt(tx, p, q, i);
      assert HoldAt(tx, w, q, Back(p, q, i));
      PopKeepsMute(tx, p, q, i);
    }
  }

  lemma PopKeepsCommands(a: seq<Row>, b: seq<Row>, tx: seq<seq<Message>>, cmd: seq<seq<Message>>, p: nat)
    requires p < |tx| && tx[p] != [] && SafeTyped(a, tx) && HeadDone(a, b, tx[p][0])
    requires CommandsOk(a, tx, cmd)
    ensures CommandsOk(b, Popped(tx, p), cmd)
  {
    forall q, i | 0 <= q < |cmd| && 0 <= i < |cmd[q]|
      ensures CommandOk(b, Popped(tx, p), q, cmd[q][i])
    {
      var m := cmd[q][i];
      assert CommandOk(a, tx, q, m);
      if Unholdable(a, tx, m.target) {
        PopKeepsUnholdable(a, b, tx, p, m.target);
      }
    }
  }

  /** All that concerns tables and queues is kept when the head of queue p is taken and done. */
  lemma PopKeepsQueues(s: World, b: seq<Row>, p: nat)
    requires Safe(s) && p < |s.txQueue| && s.txQueue[p] != [] && HeadDone(s.rows, b, s.txQueue[p][0])
    ensures var ty := Popped(s.txQueue, p);
      && SafeTyped(b, ty) && MarkersUnique(ty) && MarkerExists(b, ty) && HoldsOk(b, ty)
      && CommandsOk(b, ty, s.cmdQueue) && MarkersConsumed(ty, s.consuming)
  {
    PopKeepsTyped(s.rows, b, s.txQueue, p);
    PopKeepsUnique(s.txQueue, p);
    PopKeepsMarkerExists(s.rows, b, s.txQueue, p);
    PopKeepsHolds(s.rows, b, s.txQueue, p);
    PopKeepsCommands(s.rows, b, s.txQueue, s.cmdQueue, p);
    PopKeepsConsumed(s.txQueue, s.consuming, p);
  }

  // ------------------------------------------------------------------ the handlers

  /** A message that changes nothing but its queue. */
  lemma IdleHeadKeepsSafe(s: World, p: nat)
    requires Safe(s) && Enabled(s, TakeTransaction(p))
    requires Execute(PopTransaction(s, p), p, s.txQueue[p][0]) == PopTransaction(s, p) && !RealMarker(s.txQueue[p][0])
    ensures Safe(Next(s, TakeTransaction(p)))
  {
    PopKeepsQueues(s, s.rows, p);
  }

  lemma WakingKeepsCommands(rows: seq<Row>, tx: seq<seq<Message>>, cmd: seq<seq<Message>>)
    requires CommandsOk(rows, tx, cmd)
    requires forall w :: 0 <= w < |rows| && rows[w].status == Hold ==> rows[w].process.Some? && rows[w].process.value < |cmd|
    ensures |WakeHeld(rows, cmd, 0)| == |cmd| && CommandsOk(rows, tx, WakeHeld(rows, cmd, 0)) && Awake(rows, WakeHeld(rows, cmd, 0))
  {
    WakeHeldAdds(rows, cmd, 0);
    var woken: seq<seq<Message>> := WakeHeld(rows, cmd, 0);
    forall p, i | 0 <= p < |woken| && 0 <= i < |woken[p]|
      ensures CommandOk(rows, tx, p, woken[p][i])
    {
      if i < |cmd[p]| {
        assert woken[p][i] == cmd[p][i];
      }
    }
  }

  lemma MarkerKeepsSafe(s: World, p: nat)
    requires Safe(s) && Enabled(s, TakeTransaction(p)) && RealMarker(s.txQueue[p][0])
    ensures Safe(Next(s, TakeTransaction(p)))
  {
    var m: Message := s.txQueue[p][0];
    assert MessageTyped(s.rows, m);
    var rows := Unblocked(s.rows, m.worker.value, m.original);
    PopKeepsQueues(s, rows, p);
    UnblockedConsumption(s.rows, s.consuming, m.worker.value, m.original);
    WakingKeepsCommands(rows, Popped(s.txQueue, p), s.cmdQueue);
  }

  /** Tables with the same attachments, where the same workers are blocking and b holds nobody who cannot be held in a. */
  ghost predicate SameBut(a: seq<Row>, b: seq<Row>, tx: seq<seq<Message>>) {
    SamePlaces(a, b) && forall w :: 0 <= w < |a| && Unholdable(a, tx, w) ==> b[w].status != Hold
  }

  lemma SameButKeeps(a: seq<Row>, b: seq<Row>, tx: seq<seq<Message>>, cmd: seq<seq<Message>>)
    requires SameBut(a, b, tx) && Alone(a) && SafeTyped(a, tx) && MarkerExists(a, tx) && HoldsOk(a, tx) && CommandsOk(a, tx, cmd)
    ensures Alone(b) && SafeTyped(b, tx) && MarkerExists(b, tx) && HoldsOk(b, tx) && CommandsOk(b, tx, cmd)
    ensures AnyBlocking(a) == AnyBlocking(b)
  {
    SameButKeepsTyped(a, b, tx);
    SameButKeepsHolds(a, b, tx);
    SameButKeepsCommands(a, b, tx, cmd);
    if AnyBlocking(a) {
      var w :| 0 <= w < |a| && a[w].status == Blocking;
      assert b[w].status == Blocking;
    }
  }

  lemma SameButKeepsTyped(a: seq<Row>, b: seq<Row>, tx: seq<seq<Message>>)
    requires SamePlaces(a, b) && SafeTyped(a, tx)
    ensures SafeTyped(b, tx)
  {
    forall q, i | 0 <= q < |tx| && 0 <= i < |tx[q]|
      ensures MessageTyped(b, tx[q][i])
    {
      assert MessageTyped(a, tx[q][i]);
    }
  }

  lemma SameButKeepsHolds(a: seq<Row>, b: seq<Row>, tx: seq<seq<Message>>)
    requires SamePlaces(a, b) && HoldsOk(a, tx)
    ensures HoldsOk(b, tx)
  {
    forall w: nat, q: nat, i: nat | HoldAt(tx, w, q, i)
      ensures w < |b| && HoldOk(b, tx, w, q, i)
    {
      assert HoldOk(a, tx, w, q, i);
    }
  }

  lemma SameButKeepsCommands(a: seq<Row>, b: seq<Row>, tx: seq<seq<Message>>, cmd: seq<seq<Message>>)
    requires SameBut(a, b, tx) && CommandsOk(a, tx, cmd)
    ensures CommandsOk(b, tx, cmd)
  {
    forall q, i | 0 <= q < |cmd| && 0 <= i < |cmd[q]|
      ensures CommandOk(b, tx, q, cmd[q][i])
    {
      assert CommandOk(a, tx, q, cmd[q][i]);
    }
  }

  /** A hold message at the head that finds a worker blocking stands on its worker's own process, with no marker behind it,
      and no wake-up for that worker waits elsewhere. */
  lemma HoldingHead(s: World, p: nat)
    requires Safe(s) && p < |s.txQueue| && s.txQueue[p] != [] && s.txQueue[p][0].GoOnHold? && AnyBlocking(s.rows)
    requires !IsTemporary(s.rows[s.txQueue[p][0].target])
    ensures var w := s.txQueue[p][0].target; WellPlaced(s.rows, s.txQueue, w, p, 0) && !Unholdable(s.rows, s.txQueue, w)
  {
    var w := s.txQueue[p][0].target;
    assert HoldAt(s.txQueue, w, p, 0);
    var b :| 0 <= b < |s.rows| && s.rows[b].status == Blocking;
    var q :| 0 <= q < |s.txQueue| && MarkerFrom(s.txQueue[q], b, 0);
    var j :| 0 <= j < |s.txQueue[q]| && IsMarkerFor(s.txQueue[q][j], b);
    assert RealMarker(s.txQueue[q][j]);
    assert !Mute(s.txQueue, p, 0);
  }

  /** What a hold message that holds does. */
  lemma HoldEffect(s: World, p: nat, w: nat)
    requires Enabled(s, TakeTransaction(p)) && s.txQueue[p][0].GoOnHold? && s.txQueue[p][0].target == w
    requires w < |s.rows| && !IsTemporary(s.rows[w]) && AnyBlocking(s.rows)
    ensures var t := Next(s, TakeTransaction(p));
      && t == s.(rows := s.rows[w := s.rows[w].(status := Hold)], consuming := s.consuming[p := false],
                 txQueue := Popped(s.txQueue, p), executed := t.executed)
      && |t.executed| == |s.executed|
  {
  }

  lemma HoldingKeepsSafe(s: World, p: nat, w: nat)
    requires Safe(s) && Enabled(s, TakeTransaction(p)) && s.txQueue[p][0].GoOnHold? && s.txQueue[p][0].target == w
    requires w < |s.rows| && !IsTemporary(s.rows[w]) && AnyBlocking(s.rows)
    ensures Safe(Next(s, TakeTransaction(p)))
  {
    var rows := s.rows[w := s.rows[w].(status := Hold)];
    HoldingHead(s, p);
    SameButKeeps(s.rows, rows, s.txQueue, s.cmdQueue);
    NewlyHeldStopsItsProcess(s.rows, rows, s.consuming, w, p);
    HeldThenPopped(s, rows, p);
    HoldEffect(s, p, w);
  }

  lemma GoOnHoldKeepsSafe(s: World, p: nat)
    requires Safe(s) && Enabled(s, TakeTransaction(p)) && s.txQueue[p][0].GoOnHold?
    ensures Safe(Next(s, TakeTransaction(p)))
  {
    var w := s.txQueue[p][0].target;
    assert MessageTyped(s.rows, s.txQueue[p][0]);
    if IsTemporary(s.rows[w]) || !AnyBlocking(s.rows) {
      IdleHeadKeepsSafe(s, p);
    } else {
      HoldingKeepsSafe(s, p, w);
    }
  }

  lemma HeldThenPopped(s: World, rows: seq<Row>, p: nat)
    requires Safe(s) && Enabled(s, TakeTransaction(p)) && s.txQueue[p][0].GoOnHold?
    requires |rows| == |s.rows| && Alone(rows) && SafeTyped(rows, s.txQueue) && MarkerExists(rows, s.txQueue)
    requires HoldsOk(rows, s.txQueue) && CommandsOk(rows, s.txQueue, s.cmdQueue)
    requires forall j :: 0 < j < |s.txQueue[p]| ==> !RealMarker(s.txQueue[p][j])
    ensures var ty := Popped(s.txQueue, p);
      && SafeTyped(rows, ty) && MarkersUnique(ty) && MarkerExists(rows, ty) && HoldsOk(rows, ty)
      && CommandsOk(rows, ty, s.cmdQueue) && MarkersConsumed(ty, s.consuming[p := false])
  {
    PopKeepsTyped(rows, rows, s.txQueue, p);
    PopKeepsUnique(s.txQueue, p);
    PopKeepsMarkerExists(rows, rows, s.txQueue, p);
    PopKeepsHolds(rows, rows, s.txQueue, p);
    PopKeepsCommands(rows, rows, s.txQueue, s.cmdQueue, p);
    PopKeepsConsumed(s.txQueue, s.consuming, p);
    forall i | 0 <= i < |Popped(s.txQueue, p)[p]|
      ensures !RealMarker(Popped(s.txQueue, p)[p][i])
    {
      PoppedAt(s.txQueue, p, p, i);
    }
  }

  lemma TakeTransactionKeepsSafe(s: World, p: nat)
    requires Safe(s) && Enabled(s, TakeTransaction(p))
    ensures Safe(Next(s, TakeTransaction(p)))
  {
    var m: Message := s.txQueue[p][0];
    assert MessageTyped(s.rows, m);
    match m {
      case Transaction(_) => IdleHeadKeepsSafe(s, p);
      case GoOnHold(_, _) => GoOnHoldKeepsSafe(s, p);
      case MarkBlockingToOriginal(w, _, _) =>
        if w.Some? {
          MarkerKeepsSafe(s, p);
        } else {
          IdleHeadKeepsSafe(s, p);
        }
    }
  }

  lemma TakeCommandKeepsSafe(s: World, p: nat)
    requires Safe(s) && Enabled(s, TakeCommand(p))
    ensures Safe(Next(s, TakeCommand(p)))
  {
    var t := Next(s, TakeCommand(p));
    var m: Message := s.cmdQueue[p][0];
    assert CommandOk(s.rows, s.txQueue, p, m);
    PopKeepsCommandsOk(s, p);
    SafePoppedWakeUp(s, p);
    SameButKeeps(s.rows, t.rows, s.txQueue, t.cmdQueue);
    if s.rows[m.target].status == Hold && !AnyBlocking(s.rows) {
      forall v | 0 <= v < |s.rows| && v != m.target && s.rows[v].status == Hold
        ensures s.rows[v].process != Some(p)
      {
        assert s.rows[m.target].process == Some(p);
      }
      ReleasedStartsItsProcess(s.rows, t.rows, s.consuming, p);
    }
  }

  lemma PopKeepsCommandsOk(s: World, p: nat)
    requires CommandsOk(s.rows, s.txQueue, s.cmdQueue) && Enabled(s, TakeCommand(p))
    ensures CommandsOk(s.rows, s.txQueue, PopCommand(s, p).cmdQueue)
  {
    var cmd: seq<seq<Message>> := PopCommand(s, p).cmdQueue;
    forall q, i | 0 <= q < |cmd| && 0 <= i < |cmd[q]|
      ensures CommandOk(s.rows, s.txQueue, q, cmd[q][i])
    {
      assert cmd[q][i] == s.cmdQueue[q][if q == p then i + 1 else i];
    }
  }

  lemma SafePoppedWakeUp(s: World, p: nat)
    requires Awake(s.rows, s.cmdQueue) && Enabled(s, TakeCommand(p)) && s.cmdQueue[p][0].GoToOriginal?
    ensures forall v :: 0 <= v < |s.rows| && s.rows[v].status == Hold && v != s.cmdQueue[p][0].target ==>
      AnyBlocking(s.rows) || (s.rows[v].process.Some? && s.rows[v].process.value < |s.cmdQueue|
        && GoToOriginal(v, Active) in PopCommand(s, p).cmdQueue[s.rows[v].process.value])
  {
    var cmd := PopCommand(s, p).cmdQueue;
    forall v | 0 <= v < |s.rows| && s.rows[v].status == Hold && !AnyBlocking(s.rows) && v != s.cmdQueue[p][0].target
      ensures s.rows[v].process.Some? && s.rows[v].process.value < |s.cmdQueue| && GoToOriginal(v, Active) in cmd[s.rows[v].process.value]
    {
      var q := s.rows[v].process.value;
      var i :| 0 <= i < |s.cmdQueue[q]| && s.cmdQueue[q][i] == GoToOriginal(v, Active);
      if q == p {
        assert cmd[p][i - 1] == s.cmdQueue[p][i];
      }
    }
  }

  lemma RestartKeepsSafe(s: World, p: nat)
    requires Safe(s) && p < |s.consuming|
    ensures Safe(Restart(s, p))
  {
    var t := Restart(s, p);
    SameButKeeps(s.rows, t.rows, t.txQueue, t.cmdQueue);
    if !(AnyHeldOn(s.rows, p) && AnyBlocking(s.rows)) {
      ReleasedStartsItsProcess(s.rows, t.rows, s.consuming, p);
    } else {
      assert t.consuming == s.consuming;
    }
  }

  // ------------------------------------------------------------------ a transaction arrives

  function Inserted(tx: seq<seq<Message>>, p: nat, k: nat, id: nat): (ty: seq<seq<Message>>)
    requires p < |tx| && k <= |tx[p]|
  {
    tx[p := InsertAt(tx[p], k, Transaction(id))]
  }

  /** Where a message of the queues stands after the arrival. */
  function Shifted(p: nat, k: nat, q: nat, i: nat): (j: nat)
  {
    if q == p && i >= k then i + 1 else i
  }

  lemma InsertedFrom(tx: seq<seq<Message>>, p: nat, k: nat, id: nat, q: nat, j: nat) returns (i: nat)
    requires p < |tx| && k <= |tx[p]| && q < |tx| && j < |Inserted(tx, p, k, id)[q]|
    requires !Inserted(tx, p, k, id)[q][j].Transaction?
    ensures i < |tx[q]| && j == Shifted(p, k, q, i) && tx[q][i] == Inserted(tx, p, k, id)[q][j]
  {
    i := if q == p && j > k then j - 1 else j;
  }

  lemma InsertedAt(tx: seq<seq<Message>>, p: nat, k: nat, id: nat, q: nat, i: nat)
    requires p < |tx| && k <= |tx[p]| && q < |tx| && i < |tx[q]|
    ensures var ty := Inserted(tx, p, k, id); Shifted(p, k, q, i) < |ty[q]| && ty[q][Shifted(p, k, q, i)] == tx[q][i]
  {
  }

  lemma InsertKeepsMute(tx: seq<seq<Message>>, p: nat, k: nat, id: nat, q: nat, i: nat)
    requires p < |tx| && k <= |tx[p]| && Mute(tx, q, i)
    ensures Mute(Inserted(tx, p, k, id), q, Shifted(p, k, q, i))
  {
    var ty: seq<seq<Message>> := Inserted(tx, p, k, id);
    forall r, j | 0 <= r < |ty| && 0 <= j < |ty[r]| && RealMarker(ty[r][j])
      ensures r == q && j < Shifted(p, k, q, i)
    {
      var j' := InsertedFrom(tx, p, k, id, r, j);
      assert RealMarker(tx[r][j']);
    }
  }

  lemma InsertKeepsLastMarker(tx: seq<seq<Message>>, p: nat, k: nat, id: nat, w: nat)
    requires p < |tx| && k <= |tx[p]| && LastMarker(tx, w)
    ensures LastMarker(Inserted(tx, p, k, id), w)
  {
    var q, j :| 0 <= q < |tx| && 0 <= j < |tx[q]| && MarkerStands(tx, w, q, j) && Mute(tx, q, j + 1);
    var ty: seq<seq<Message>> := Inserted(tx, p, k, id);
    InsertedAt(tx, p, k, id, q, j);
    forall r, i | 0 <= r < |ty| && 0 <= i < |ty[r]| && RealMarker(ty[r][i])
      ensures r == q && i < Shifted(p, k, q, j) + 1
    {
      var i' := InsertedFrom(tx, p, k, id, r, i);
      assert RealMarker(tx[r][i']);
    }
    assert MarkerStands(ty, w, q, Shifted(p, k, q, j)) && Mute(ty, q, Shifted(p, k, q, j) + 1);
  }

  lemma InsertKeepsHold(rows: seq<Row>, tx: seq<seq<Message>>, p: nat, k: nat, id: nat, w: nat, q: nat, i: nat)
    requires p < |tx| && k <= |tx[p]| && w < |rows| && q < |tx| && i < |tx[q]| && HoldOk(rows, tx, w, q, i)
    ensures HoldOk(rows, Inserted(tx, p, k, id), w, q, Shifted(p, k, q, i))
  {
    var ty: seq<seq<Message>> := Inserted(tx, p, k, id);
    if rows[w].status == Blocking {
      if MarkerFrom(tx[q], w, i + 1) {
        var j :| i + 1 <= j < |tx[q]| && IsMarkerFor(tx[q][j], w);
        InsertedAt(tx, p, k, id, q, j);
        assert IsMarkerFor(ty[q][Shifted(p, k, q, j)], w);
      } else {
        InsertKeepsLastMarker(tx, p, k, id, w);
      }
    } else if WellPlaced(rows, tx, w, q, i) {
      forall j | Shifted(p, k, q, i) < j < |ty[q]|
        ensures !RealMarker(ty[q][j])
      {
        if RealMarker(ty[q][j]) {
          var j' := InsertedFrom(tx, p, k, id, q, j);
        }
      }
    } else {
      InsertKeepsMute(tx, p, k, id, q, i);
    }
  }

  lemma InsertKeepsUnholdable(rows: seq<Row>, tx: seq<seq<Message>>, p: nat, k: nat, id: nat, w: nat)
    requires p < |tx| && k <= |tx[p]| && w < |rows| && Unholdable(rows, tx, w)
    ensures Unholdable(rows, Inserted(tx, p, k, id), w)
  {
    var ty := Inserted(tx, p, k, id);
    forall q: nat, j: nat | HoldAt(ty, w, q, j)
      ensures Mute(ty, q, j)
    {
      var i := InsertedFrom(tx, p, k, id, q, j);
      assert HoldAt(tx, w, q, i);
      InsertKeepsMute(tx, p, k, id, q, i);
    }
  }

  lemma ArrivalKeepsSafe(s: World, p: nat, k: nat, id: nat)
    requires Safe(s) && p < |s.txQueue| && k <= |s.txQueue[p]|
    ensures Safe(s.(txQueue := Inserted(s.txQueue, p, k, id)))
  {
    var tx: seq<seq<Message>>, ty: seq<seq<Message>> := s.txQueue, Inserted(s.txQueue, p, k, id);
    ArrivalKeepsMarkers(s.rows, s.consuming, tx, p, k, id);
    forall q, j | 0 <= q < |ty| && 0 <= j < |ty[q]|
      ensures MessageTyped(s.rows, ty[q][j])
    {
      if !ty[q][j].Transaction? {
        var i := InsertedFrom(tx, p, k, id, q, j);
      }
    }
    forall w: nat, q: nat, j: nat | HoldAt(ty, w, q, j)
      ensures w < |s.rows| && HoldOk(s.rows, ty, w, q, j)
    {
      var i := InsertedFrom(tx, p, k, id, q, j);
      assert HoldAt(tx, w, q, i);
      InsertKeepsHold(s.rows, tx, p, k, id, w, q, i);
    }
    forall q, i | 0 <= q < |s.cmdQueue| && 0 <= i < |s.cmdQueue[q]|
      ensures CommandOk(s.rows, ty, q, s.cmdQueue[q][i])
    {
      var m: Message := s.cmdQueue[q][i];
      assert CommandOk(s.rows, tx, q, m);
      if Unholdable(s.rows, tx, m.target) {
        InsertKeepsUnholdable(s.rows, tx, p, k, id, m.target);
      }
    }
  }

  lemma ArrivalKeepsMarkers(rows: seq<Row>, consuming: seq<bool>, tx: seq<seq<Message>>, p: nat, k: nat, id: nat)
    requires p < |tx| == |consuming| && k <= |tx[p]| && MarkersUnique(tx) && MarkerExists(rows, tx) && MarkersConsumed(tx, consuming)
    ensures var ty := Inserted(tx, p, k, id); MarkersUnique(ty) && MarkerExists(rows, ty) && MarkersConsumed(ty, consuming)
  {
    var ty: seq<seq<Message>> := Inserted(tx, p, k, id);
    forall w: nat, q: nat, i: nat, r: nat, j: nat | MarkerStands(ty, w, q, i) && MarkerStands(ty, w, r, j)
      ensures q == r && i == j
    {
      var i' := InsertedFrom(tx, p, k, id, q, i);
      var j' := InsertedFrom(tx, p, k, id, r, j);
      assert MarkerStands(tx, w, q, i') && MarkerStands(tx, w, r, j');
    }
    forall w | 0 <= w < |rows| && rows[w].status == Blocking
      ensures exists q :: 0 <= q < |ty| && MarkerFrom(ty[q], w, 0)
    {
      var q :| 0 <= q < |tx| && MarkerFrom(tx[q], w, 0);
      var j :| 0 <= j < |tx[q]| && IsMarkerFor(tx[q][j], w);
      InsertedAt(tx, p, k, id, q, j);
      assert IsMarkerFor(ty[q][Shifted(p, k, q, j)], w);
      assert MarkerFrom(ty[q], w, 0);
    }
    forall q, j | 0 <= q < |ty| && 0 <= j < |ty[q]| && RealMarker(ty[q][j])
      ensures consuming[q]
    {
      var i := InsertedFrom(tx, p, k, id, q, j);
    }
  }
}
