/** Who is on which process after an association, told by the table and the given processes alone. */
module ProtocolAttachment {
  import opened Wrappers
  import opened Sequences
  import opened WorkerProtocol
  import opened ProtocolFlush
  import opened ProtocolInvariants
  import opened ProtocolOperations
  import opened ProtocolDisassociation
  import opened ProtocolRuns

  /** The workers that an association can attach. */
  ghost function AvailableBelow(rows: seq<Row>, n: nat): (ws: set<nat>)
    requires n <= |rows|
  {
    set w: nat | w < n && rows[w].status == Active && rows[w].funded && rows[w].process == None
  }

  lemma {:induction false} AvailableCount(rows: seq<Row>, n: nat)
    requires n <= |rows|
    ensures |Available(rows, n)| == |AvailableBelow(rows, n)|
  {
    if n > 0 {
      AvailableCount(rows, n - 1);
      assert AvailableBelow(rows, n) == AvailableBelow(rows, n - 1) + if IsAvailable(rows[n - 1]) then {n - 1} else {};
    }
  }

  /** Exactly one worker is on p in b, an available one of a, which has only its process changed. */
  ghost predicate JustAttached(a: seq<Row>, b: seq<Row>, p: nat) {
    exists w: nat ::
      && w < |a| == |b| && w in AvailableBelow(a, |a|) && b[w] == a[w].(process := Some(p))
      && forall v :: 0 <= v < |b| && b[v].process == Some(p) ==> v == w
  }

  /** Once an accepted association has published everything, exactly one worker, available before, is on each of the first n given
      processes, as many as there are both processes and available workers; nobody is on any other of the given ones, and nobody
      else has moved. */
  lemma AssociationAttaches(s: World, ps: seq<nat>, allocatable: set<nat>)
    requires s.outbox == [] && CanAssociate(s, ps, allocatable)
    ensures var b, n := Flush(Associate(s, ps, allocatable)).rows, Min(|ps|, |AvailableBelow(s.rows, |s.rows|)|);
      && n > 0 && |b| == |s.rows|
      && (forall i :: 0 <= i < n ==> JustAttached(s.rows, b, ps[i]) && ps[i] in allocatable && ps[i] < |s.txQueue|)
      && (forall p :: p in ps && p !in ps[..n] ==> NobodyOn(b, p))
      && (forall w :: 0 <= w < |b| ==> b[w].process == s.rows[w].process || (b[w].process.Some? && b[w].process.value in ps[..n]))
  {
    var b, n := Flush(Associate(s, ps, allocatable)).rows, Min(|ps|, |AvailableBelow(s.rows, |s.rows|)|);
    var used := UsedProcesses(s.rows, ps);
    AvailableCount(s.rows, |s.rows|);
    assert used == ps[..n];
    AssociateRowsEffect(s, ps, allocatable);
    OnlyTheseAttached(s.rows, b, UsedWorkers(s.rows, ps), used);
    forall i | 0 <= i < n ensures JustAttached(s.rows, b, ps[i]) && ps[i] in allocatable && ps[i] < |s.txQueue| {
      assert used[i] == ps[i] && used[i] in used;
    }
    forall p | p in ps && p !in ps[..n] ensures NobodyOn(b, p) {
      assert NobodyOn(s.rows, p);
    }
  }

  lemma OnlyTheseAttached(a: seq<Row>, b: seq<Row>, ws: seq<nat>, used: seq<nat>)
    requires AssociatedRows(a, b, ws, used)
    ensures |b| == |a| && forall i :: 0 <= i < |used| ==> JustAttached(a, b, used[i])
    ensures forall w :: 0 <= w < |b| ==> b[w].process == a[w].process || (b[w].process.Some? && b[w].process.value in used)
  {
    forall w | 0 <= w < |b| ensures b[w].process == a[w].process || (b[w].process.Some? && b[w].process.value in used) {
      if w in ws {
        var i :| 0 <= i < |ws| && ws[i] == w;
      }
    }
    forall i | 0 <= i < |used| ensures JustAttached(a, b, used[i]) {
      OneAttached(a, b, ws, used, i);
    }
  }

  lemma OneAttached(a: seq<Row>, b: seq<Row>, ws: seq<nat>, used: seq<nat>, i: nat)
    requires AssociatedRows(a, b, ws, used) && i < |used|
    ensures JustAttached(a, b, used[i])
  {
    var w := ws[i];
    forall v | 0 <= v < |b| && b[v].process == Some(used[i]) ensures v == w {
      if v in ws {
        var j :| 0 <= j < |ws| && ws[j] == v;
      }
      assert used[i] in used;
    }
  }

  predicate SomebodyOn(rows: seq<Row>, p: nat) {
    exists w :: 0 <= w < |rows| && rows[w].process == Some(p)
  }

  /** An association is accepted exactly when some worker is available, nobody is on any given process, the processes that get a
      worker are different, existing and allocatable, and whoever is on a process is neither on hold nor blocking. */
  lemma AssociationAcceptedIff(s: World, ps: seq<nat>, allocatable: set<nat>)
    ensures var n := Min(|ps|, |AvailableBelow(s.rows, |s.rows|)|);
      CanAssociate(s, ps, allocatable) <==>
        && n > 0 && (forall p :: p in ps ==> !SomebodyOn(s.rows, p))
        && (forall i, j :: 0 <= i < j < n ==> ps[i] != ps[j])
        && (forall i :: 0 <= i < n ==> ps[i] < |s.txQueue| && ps[i] in allocatable)
        && forall w :: 0 <= w < |s.rows| && s.rows[w].process.Some? ==> s.rows[w].status == Active || s.rows[w].status == Inactive
    ensures !CanAssociate(s, ps, allocatable) ==> Associate(s, ps, allocatable) == s
  {
    var n, used := Min(|ps|, |AvailableBelow(s.rows, |s.rows|)|), UsedProcesses(s.rows, ps);
    AvailableCount(s.rows, |s.rows|);
    assert used == ps[..n];
    assert forall i :: 0 <= i < n ==> used[i] == ps[i] && ps[i] in used;
    assert Distinct(used) <==> forall i, j :: 0 <= i < j < n ==> ps[i] != ps[j];
    assert (forall p :: p in ps ==> !SomebodyOn(s.rows, p)) <==>
      forall w :: 0 <= w < |s.rows| && IsWorking(s.rows[w]) ==> s.rows[w].process.value !in ps;
  }

  /** A disassociation is accepted exactly when somebody is on every given process and nobody at all is on hold or blocking. */
  lemma DisassociationAcceptedIff(s: World, ps: seq<nat>)
    ensures CanDisassociate(s, ps) <==>
      && |ps| > 0 && (forall p :: p in ps ==> SomebodyOn(s.rows, p))
      && forall w :: 0 <= w < |s.rows| ==> s.rows[w].status == Active || s.rows[w].status == Inactive
    ensures !CanDisassociate(s, ps) ==> Disassociate(s, ps) == s
  {
    forall i | 0 <= i < |ps| ensures FirstOn(s.rows, ps[i], 0).Some? <==> SomebodyOn(s.rows, ps[i]) {
    }
    assert forall i :: 0 <= i < |ps| ==> ps[i] in ps;
  }

  // ------------------------------------------------------------------ in which order a script publishes

  predicate IsHold(a: Action) {
    a.Publish? && a.message.GoOnHold?
  }

  predicate IsMarker(a: Action) {
    a.Publish? && a.message.MarkBlockingToOriginal?
  }

  lemma {:induction false} MarkerActionsMark(rows: seq<Row>, op: nat, n: nat)
    requires n <= |rows|
    ensures forall i :: 0 <= i < |MarkerActions(rows, op, n)| ==> IsMarker(MarkerActions(rows, op, n)[i])
  {
    if n > 0 {
      MarkerActionsMark(rows, op, n - 1);
    }
  }

  /** An association attaches its workers and warns their processes before it publishes the first marker; a disassociation publishes
      its markers before the first hold message. */
  lemma PublicationOrder(s: World, ps: seq<nat>, allocatable: set<nat>)
    requires s.outbox == []
    ensures var todo := Associate(s, ps, allocatable).outbox;
      forall i, j :: 0 <= i < j < |todo| && IsMarker(todo[i]) ==> IsMarker(todo[j])
    ensures var todo := Disassociate(s, ps).outbox;
      forall i, j :: 0 <= i < j < |todo| && IsHold(todo[i]) ==> IsHold(todo[j])
  {
    if CanAssociate(s, ps, allocatable) {
      var avail, used := Available(s.rows, |s.rows|), UsedProcesses(s.rows, ps);
      AvailableMeaning(s.rows, |s.rows|);
      AttachActionsOrdered(avail, used, s.ops, |used|);
      MarkerActionsMark(s.rows, s.ops, |s.rows|);
      assert Associate(s, ps, allocatable).outbox == AttachActions(avail, used, s.ops, |used|) + MarkerActions(s.rows, s.ops, |s.rows|);
    }
    if CanDisassociate(s, ps) {
      ReleasesBeforeHolds(s, ps);
    }
  }

  lemma ReleasesBeforeHolds(s: World, ps: seq<nat>)
    requires s.outbox == [] && CanDisassociate(s, ps)
    ensures var todo := Disassociate(s, ps).outbox;
      forall i, j :: 0 <= i < j < |todo| && IsHold(todo[i]) ==> IsHold(todo[j])
  {
    var keys, t := SortedKeys(WorkersOn(s.rows, ps), |s.rows|), Disassociate(s, ps);
    DisassociateForm(s, ps);
    ReleaseActionsAt(s.rows, ps, keys, s.ops, |ps|);
    SiblingActionsHold(t.rows, s.ops, |t.rows|);
    assert t.outbox == ReleaseActions(s.rows, ps, keys, s.ops, |ps|) + SiblingActions(t.rows, s.ops, |t.rows|);
  }
}
