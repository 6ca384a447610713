/** Which status a worker comes back to.  A marker gives the status back that its worker had; a wake-up or a restart makes its
    worker active, whatever it was before it was put on hold.  So nobody is ever switched off, and an inactive worker is switched
    on by the protocol when it has been on hold. */
module ProtocolStatuses {
  import opened Wrappers
  import opened WorkerProtocol
  import opened ProtocolInvariants
  import opened ProtocolSafety

  // ------------------------------------------------------------------ homes

  /** The row may come to have the status home, once it is neither on hold nor blocking. */
  predicate AtHome(home: Status, row: Row) {
    && (home == Active || home == Inactive)
    && (!IsTemporary(row) ==> row.status == home)
    && (row.status == Hold ==> home == Active || row.process.None?)
  }

  ghost predicate RowsHome(home: seq<Status>, rows: seq<Row>) {
    |home| == |rows| && forall w :: 0 <= w < |rows| ==> AtHome(home[w], rows[w])
  }

  /** A marker carries its worker's home, and a hold message for an inactive worker on a process stands on that process. */
  ghost predicate MessageHome(home: seq<Status>, rows: seq<Row>, p: nat, m: Message)
    requires |home| == |rows|
  {
    && (RealMarker(m) && m.worker.value < |home| ==> m.original == home[m.worker.value])
    && (m.GoOnHold? && m.target < |home| && home[m.target] == Inactive && rows[m.target].process.Some? ==>
          rows[m.target].process == Some(p))
  }

  ghost predicate MessagesHome(home: seq<Status>, rows: seq<Row>, tx: seq<seq<Message>>)
    requires |home| == |rows|
  {
    forall p, i :: 0 <= p < |tx| && 0 <= i < |tx[p]| ==> MessageHome(home, rows, p, tx[p][i])
  }

  predicate WakesActive(home: seq<Status>, m: Message) {
    m.GoToOriginal? && m.original == Active && (m.target < |home| ==> home[m.target] == Active)
  }

  ghost predicate WakeUpsHome(home: seq<Status>, cmd: seq<seq<Message>>) {
    forall p, i :: 0 <= p < |cmd| && 0 <= i < |cmd[p]| ==> WakesActive(home, cmd[p][i])
  }

  ghost predicate Homes(home: seq<Status>, f: World) {
    && RowsHome(home, f.rows)
    && SafeTyped(f.rows, f.txQueue) && MarkersUnique(f.txQueue)
    && MessagesHome(home, f.rows, f.txQueue) && WakeUpsHome(home, f.cmdQueue)
  }

  /** No hold message can hold an inactive worker on a process: it is blocking until its marker, behind the hold message. */
  ghost predicate Spared(home: seq<Status>, rows: seq<Row>, tx: seq<seq<Message>>)
    requires |home| == |rows|
  {
    forall w: nat, q: nat, i: nat :: HoldAt(tx, w, q, i) && w < |rows| && home[w] == Inactive && rows[w].process.Some? ==>
      rows[w].status == Blocking && MarkerFrom(tx[q], w, i + 1)
  }

  /** Some homes have become active. */
  ghost predicate Brighter(a: seq<Status>, b: seq<Status>) {
    |a| == |b| && forall w :: 0 <= w < |a| ==> b[w] == a[w] || b[w] == Active
  }

  // ------------------------------------------------------------------ taking a message

  ghost predicate SameProcesses(a: seq<Row>, b: seq<Row>) {
    |a| == |b| && forall w :: 0 <= w < |a| ==> b[w].process == a[w].process
  }

  lemma PopKeepsMessagesHome(home: seq<Status>, a: seq<Row>, b: seq<Row>, tx: seq<seq<Message>>, p: nat)
    requires |home| == |a| && SameProcesses(a, b) && p < |tx| && tx[p] != [] && MessagesHome(home, a, tx)
    ensures MessagesHome(home, b, Popped(tx, p))
  {
    var ty: seq<seq<Message>> := Popped(tx, p);
    forall q, i | 0 <= q < |ty| && 0 <= i < |ty[q]| ensures MessageHome(home, b, q, ty[q][i]) {
      PoppedAt(tx, p, q, i);
      assert MessageHome(home, a, q, tx[q][Back(p, q, i)]);
    }
  }

  lemma PopKeepsSpared(home: seq<Status>, a: seq<Row>, b: seq<Row>, tx: seq<seq<Message>>, p: nat)
    requires |home| == |a| && SameProcesses(a, b) && p < |tx| && tx[p] != [] && MarkersUnique(tx) && Spared(home, a, tx)
    requires forall w :: 0 <= w < |a| && a[w].status == Blocking && !IsMarkerFor(tx[p][0], w) ==> b[w].status == Blocking
    ensures Spared(home, b, Popped(tx, p))
  {
    var ty := Popped(tx, p);
    forall w: nat, q: nat, i: nat | HoldAt(ty, w, q, i) && w < |b| && home[w] == Inactive && b[w].process.Some?
      ensures b[w].status == Blocking && MarkerFrom(ty[q], w, i + 1)
    {
      PoppedAt(tx, p, q, i);
      assert HoldAt(tx, w, q, Back(p, q, i));
      var j :| Back(p, q, i) + 1 <= j < |tx[q]| && IsMarkerFor(tx[q][j], w);
      if IsMarkerFor(tx[p][0], w) {
        assert MarkerStands(tx, w, p, 0) && MarkerStands(tx, w, q, j);
        assert false;
      }
      PopKeepsMarker(tx, p, w, q, i);
    }
  }

  lemma {:induction false} WakingHome(home: seq<Status>, rows: seq<Row>, cmd: seq<seq<Message>>, k: nat)
    requires k <= |rows| && RowsHome(home, rows) && WakeUpsHome(home, cmd)
    ensures WakeUpsHome(home, WakeHeld(rows, cmd, k))
    decreases |rows| - k
  {
    if k < |rows| {
      if rows[k].status != Hold {
        WakingHome(home, rows, cmd, k + 1);
      } else if rows[k].process.Some? && rows[k].process.value < |cmd| {
        assert AtHome(home[k], rows[k]);
        WakingHome(home, rows, Send(cmd, rows[k].process.value, GoToOriginal(k, Active)), k + 1);
      }
    }
  }

  lemma IdleHeadHomes(home: seq<Status>, f: World, p: nat)
    requires Homes(home, f) && Enabled(f, TakeTransaction(p)) && !RealMarker(f.txQueue[p][0])
    requires Execute(PopTransaction(f, p), p, f.txQueue[p][0]) == PopTransaction(f, p)
    ensures Homes(home, Next(f, TakeTransaction(p)))
    ensures Spared(home, f.rows, f.txQueue) ==> Spared(home, Next(f, TakeTransaction(p)).rows, Next(f, TakeTransaction(p)).txQueue)
  {
    PopKeepsTyped(f.rows, f.rows, f.txQueue, p);
    PopKeepsUnique(f.txQueue, p);
    PopKeepsMessagesHome(home, f.rows, f.rows, f.txQueue, p);
    if Spared(home, f.rows, f.txQueue) {
      PopKeepsSpared(home, f.rows, f.rows, f.txQueue, p);
    }
  }

  lemma MarkerHomes(home: seq<Status>, f: World, p: nat)
    requires Homes(home, f) && Enabled(f, TakeTransaction(p)) && RealMarker(f.txQueue[p][0])
    ensures Homes(home, Next(f, TakeTransaction(p)))
    ensures Spared(home, f.rows, f.txQueue) ==> Spared(home, Next(f, TakeTransaction(p)).rows, Next(f, TakeTransaction(p)).txQueue)
  {
    var m: Message := f.txQueue[p][0];
    assert MessageTyped(f.rows, m) && MessageHome(home, f.rows, p, m);
    var rows := Unblocked(f.rows, m.worker.value, m.original);
    PopKeepsTyped(f.rows, rows, f.txQueue, p);
    PopKeepsUnique(f.txQueue, p);
    PopKeepsMessagesHome(home, f.rows, rows, f.txQueue, p);
    UnblockedHome(home, f.rows, m.worker.value);
    WakingHome(home, rows, f.cmdQueue, 0);
    if Spared(home, f.rows, f.txQueue) {
      PopKeepsSpared(home, f.rows, rows, f.txQueue, p);
    }
  }

  lemma UnblockedHome(home: seq<Status>, rows: seq<Row>, w: nat)
    requires RowsHome(home, rows) && w < |rows|
    ensures RowsHome(home, Unblocked(rows, w, home[w]))
  {
    assert AtHome(home[w], rows[w]);
  }

  /** A worker on a process that is put on hold will be active. */
  function HeldHome(home: seq<Status>, rows: seq<Row>, w: nat): (r: seq<Status>)
    requires w < |home| == |rows|
  {
    if rows[w].process.Some? then home[w := Active] else home
  }

  lemma HoldingHomes(home: seq<Status>, f: World, p: nat, w: nat)
    requires Homes(home, f) && Enabled(f, TakeTransaction(p)) && f.txQueue[p][0].GoOnHold? && f.txQueue[p][0].target == w
    requires w < |f.rows| && !IsTemporary(f.rows[w]) && AnyBlocking(f.rows)
    ensures Homes(HeldHome(home, f.rows, w), Next(f, TakeTransaction(p)))
    ensures Spared(home, f.rows, f.txQueue) ==> HeldHome(home, f.rows, w) == home
    ensures Spared(home, f.rows, f.txQueue) ==> Spared(home, Next(f, TakeTransaction(p)).rows, Next(f, TakeTransaction(p)).txQueue)
  {
    var rows, lit := f.rows[w := f.rows[w].(status := Hold)], HeldHome(home, f.rows, w);
    HoldEffect(f, p, w);
    PopKeepsTyped(f.rows, f.rows, f.txQueue, p);
    SameButKeepsTyped(f.rows, rows, Popped(f.txQueue, p));
    PopKeepsUnique(f.txQueue, p);
    PopKeepsMessagesHome(home, f.rows, rows, f.txQueue, p);
    HeldMessagesHome(home, rows, Popped(f.txQueue, p), w);
    HeldRowsHome(home, f.rows, w);
    assert HoldAt(f.txQueue, w, p, 0);
    if Spared(home, f.rows, f.txQueue) {
      assert AtHome(home[w], f.rows[w]);
      PopKeepsSpared(home, f.rows, rows, f.txQueue, p);
    }
  }

  lemma HeldRowsHome(home: seq<Status>, rows: seq<Row>, w: nat)
    requires RowsHome(home, rows) && w < |rows|
    ensures RowsHome(HeldHome(home, rows, w), rows[w := rows[w].(status := Hold)])
  {
    assert AtHome(home[w], rows[w]);
  }

  lemma HeldMessagesHome(home: seq<Status>, rows: seq<Row>, tx: seq<seq<Message>>, w: nat)
    requires w < |home| == |rows| && MessagesHome(home, rows, tx) && SafeTyped(rows, tx) && rows[w].status == Hold
    ensures MessagesHome(HeldHome(home, rows, w), rows, tx)
  {
    forall p, i | 0 <= p < |tx| && 0 <= i < |tx[p]| ensures MessageHome(HeldHome(home, rows, w), rows, p, tx[p][i]) {
      assert MessageHome(home, rows, p, tx[p][i]) && MessageTyped(rows, tx[p][i]);
    }
  }

  lemma TakeTransactionHomes(home: seq<Status>, f: World, p: nat) returns (lit: seq<Status>)
    requires Homes(home, f) && Enabled(f, TakeTransaction(p))
    ensures Homes(lit, Next(f, TakeTransaction(p))) && Brighter(home, lit)
    ensures Spared(home, f.rows, f.txQueue) ==>
      lit == home && Spared(home, Next(f, TakeTransaction(p)).rows, Next(f, TakeTransaction(p)).txQueue)
  {
    var m: Message := f.txQueue[p][0];
    assert MessageTyped(f.rows, m);
    lit := home;
    match m {
      case Transaction(_) => IdleHeadHomes(home, f, p);
      case MarkBlockingToOriginal(w, _, _) =>
        if w.Some? {
          MarkerHomes(home, f, p);
        } else {
          IdleHeadHomes(home, f, p);
        }
      case GoOnHold(w, _) =>
        if IsTemporary(f.rows[w]) || !AnyBlocking(f.rows) {
          IdleHeadHomes(home, f, p);
        } else {
          HoldingHomes(home, f, p, w);
          lit := HeldHome(home, f.rows, w);
        }
    }
  }

  // ------------------------------------------------------------------ wake-ups, restarts and arrivals

  /** Some held workers with active homes have been released. */
  ghost predicate Woken(home: seq<Status>, a: seq<Row>, b: seq<Row>) {
    && |home| == |a| && SameProcesses(a, b)
    && forall w :: 0 <= w < |a| ==> b[w].status == a[w].status || (a[w].status == Hold && home[w] == Active && b[w].status == Active)
  }

  lemma WokenHomes(home: seq<Status>, a: seq<Row>, b: seq<Row>, tx: seq<seq<Message>>)
    requires RowsHome(home, a) && Woken(home, a, b) && SafeTyped(a, tx) && MessagesHome(home, a, tx)
    ensures RowsHome(home, b) && SafeTyped(b, tx) && MessagesHome(home, b, tx)
    ensures Spared(home, a, tx) ==> Spared(home, b, tx)
  {
    forall w | 0 <= w < |b| ensures AtHome(home[w], b[w]) {
      assert AtHome(home[w], a[w]);
    }
    forall p, i | 0 <= p < |tx| && 0 <= i < |tx[p]| ensures MessageTyped(b, tx[p][i]) && MessageHome(home, b, p, tx[p][i]) {
      assert MessageTyped(a, tx[p][i]) && MessageHome(home, a, p, tx[p][i]);
    }
  }

  lemma TakeCommandHomes(home: seq<Status>, f: World, p: nat)
    requires Homes(home, f) && Enabled(f, TakeCommand(p))
    ensures Homes(home, Next(f, TakeCommand(p)))
    ensures Spared(home, f.rows, f.txQueue) ==> Spared(home, Next(f, TakeCommand(p)).rows, Next(f, TakeCommand(p)).txQueue)
  {
    var t := Next(f, TakeCommand(p));
    assert WakesActive(home, f.cmdQueue[p][0]);
    WokenHomes(home, f.rows, t.rows, f.txQueue);
    forall q, i | 0 <= q < |t.cmdQueue| && 0 <= i < |t.cmdQueue[q]| ensures WakesActive(home, t.cmdQueue[q][i]) {
      assert t.cmdQueue[q][i] == f.cmdQueue[q][if q == p then i + 1 else i];
    }
  }

  lemma RestartHomes(home: seq<Status>, f: World, p: nat)
    requires Homes(home, f) && p < |f.consuming|
    ensures Homes(home, Restart(f, p))
    ensures Spared(home, f.rows, f.txQueue) ==> Spared(home, Restart(f, p).rows, Restart(f, p).txQueue)
  {
    var t := Restart(f, p);
    forall w | 0 <= w < |f.rows|
      ensures t.rows[w].status == f.rows[w].status || (f.rows[w].status == Hold && home[w] == Active && t.rows[w].status == Active)
    {
      assert AtHome(home[w], f.rows[w]);
    }
    WokenHomes(home, f.rows, t.rows, f.txQueue);
  }

  lemma InsertionHomes(home: seq<Status>, rows: seq<Row>, tx: seq<seq<Message>>, p: nat, k: nat, id: nat)
    requires |home| == |rows| && SafeTyped(rows, tx) && MessagesHome(home, rows, tx) && p < |tx| && k <= |tx[p]|
    ensures SafeTyped(rows, Inserted(tx, p, k, id)) && MessagesHome(home, rows, Inserted(tx, p, k, id))
  {
    var ty: seq<seq<Message>> := Inserted(tx, p, k, id);
    forall q, j | 0 <= q < |ty| && 0 <= j < |ty[q]| ensures MessageTyped(rows, ty[q][j]) && MessageHome(home, rows, q, ty[q][j]) {
      if !ty[q][j].Transaction? {
        var i := InsertedFrom(tx, p, k, id, q, j);
        assert MessageTyped(rows, tx[q][i]) && MessageHome(home, rows, q, tx[q][i]);
      }
    }
  }

  lemma InsertionKeepsUnique(tx: seq<seq<Message>>, p: nat, k: nat, id: nat)
    requires p < |tx| && k <= |tx[p]| && MarkersUnique(tx)
    ensures MarkersUnique(Inserted(tx, p, k, id))
  {
    var ty := Inserted(tx, p, k, id);
    forall w: nat, q: nat, i: nat, r: nat, j: nat | MarkerStands(ty, w, q, i) && MarkerStands(ty, w, r, j)
      ensures q == r && i == j
    {
      var i' := InsertedFrom(tx, p, k, id, q, i);
      var j' := InsertedFrom(tx, p, k, id, r, j);
      assert MarkerStands(tx, w, q, i') && MarkerStands(tx, w, r, j');
    }
  }

  lemma InsertionSpares(home: seq<Status>, rows: seq<Row>, tx: seq<seq<Message>>, p: nat, k: nat, id: nat)
    requires |home| == |rows| && Spared(home, rows, tx) && p < |tx| && k <= |tx[p]|
    ensures Spared(home, rows, Inserted(tx, p, k, id))
  {
    var ty := Inserted(tx, p, k, id);
    forall w: nat, q: nat, j: nat | HoldAt(ty, w, q, j) && w < |rows| && home[w] == Inactive && rows[w].process.Some?
      ensures rows[w].status == Blocking && MarkerFrom(ty[q], w, j + 1)
    {
      var i := InsertedFrom(tx, p, k, id, q, j);
      assert HoldAt(tx, w, q, i);
      var l :| i + 1 <= l < |tx[q]| && IsMarkerFor(tx[q][l], w);
      InsertedAt(tx, p, k, id, q, l);
      assert IsMarkerFor(ty[q][Shifted(p, k, q, l)], w);
    }
  }

  lemma ArrivalHomes(home: seq<Status>, f: World, p: nat, k: nat, id: nat)
    requires Homes(home, f) && p < |f.txQueue| && k <= |f.txQueue[p]|
    ensures Homes(home, f.(txQueue := Inserted(f.txQueue, p, k, id)))
    ensures Spared(home, f.rows, f.txQueue) ==> Spared(home, f.rows, Inserted(f.txQueue, p, k, id))
  {
    InsertionHomes(home, f.rows, f.txQueue, p, k, id);
    InsertionKeepsUnique(f.txQueue, p, k, id);
    if Spared(home, f.rows, f.txQueue) {
      InsertionSpares(home, f.rows, f.txQueue, p, k, id);
    }
  }
}
