/** Folding the Transfer events of unknown transactions into balance adjustments, and settling them. */
module BalanceSync {
  import opened Wrappers
  import opened Sequences

  // ------------------------------------------------------------------ decoded events

  datatype Param = From(address: string) | To(address: string) | Value(amount: int) | Other

  datatype DecodedEvent = DecodedEvent(address: string, events: seq<Param>)

  /** One entry of `transferEvents`, with the contract that emitted it. */
  datatype Transfer = Transfer(contract: string, sender: Option<string>, receiver: Option<string>, value: int)

  datatype Balance = Balance(settled: int, unSettledDebit: int)

  const ZERO: Balance := Balance(0, 0)

  function Add(a: Balance, b: Balance): (r: Balance)
  {
    Balance(a.settled + b.settled, a.unSettledDebit + b.unSettledDebit)
  }

  /** The last sender, receiver and amount that an event names. */
  ghost function Parsed(e: DecodedEvent, n: nat): (t: Transfer)
    requires n <= |e.events|
  {
    if n == 0 then Transfer(Lower(e.address), None, None, 0)
    else
      var t := Parsed(e, n - 1);
      match e.events[n - 1]
      case From(a) => t.(sender := Some(Lower(a)))
      case To(a) => t.(receiver := Some(Lower(a)))
      case Value(v) => t.(value := v)
      case Other => t
  }

  predicate NoFrom(ps: seq<Param>, k: nat) {
    forall j :: k <= j < |ps| ==> !ps[j].From?
  }

  predicate NoTo(ps: seq<Param>, k: nat) {
    forall j :: k <= j < |ps| ==> !ps[j].To?
  }

  predicate NoValue(ps: seq<Param>, k: nat) {
    forall j :: k <= j < |ps| ==> !ps[j].Value?
  }

  lemma {:induction false} ParsedBefore(e: DecodedEvent, k: nat, n: nat)
    requires k <= n <= |e.events|
    ensures Parsed(e, n).contract == Parsed(e, k).contract == Lower(e.address)
    ensures NoFrom(e.events[..n], k) ==> Parsed(e, n).sender == Parsed(e, k).sender
    ensures NoTo(e.events[..n], k) ==> Parsed(e, n).receiver == Parsed(e, k).receiver
    ensures NoValue(e.events[..n], k) ==> Parsed(e, n).value == Parsed(e, k).value
  {
    if k < n {
      ParsedBefore(e, k, n - 1);
      var ps, init := e.events[..n], e.events[..n - 1];
      assert forall j :: 0 <= j < n - 1 ==> init[j] == ps[j];
      assert ps[n - 1] == e.events[n - 1];
    } else if k > 0 {
      ParsedBefore(e, k - 1, k - 1);
    }
  }

  /** A parameter of its kind that none of that kind follows decides; without any, an end is missing and the amount is zero. */
  lemma LastParamDecides(e: DecodedEvent, i: nat)
    requires i <= |e.events|
    ensures var t, ps := Parsed(e, |e.events|), e.events;
      && t.contract == Lower(e.address)
      && (i < |ps| && ps[i].From? && NoFrom(ps, i + 1) ==> t.sender == Some(Lower(ps[i].address)))
      && (i < |ps| && ps[i].To? && NoTo(ps, i + 1) ==> t.receiver == Some(Lower(ps[i].address)))
      && (i < |ps| && ps[i].Value? && NoValue(ps, i + 1) ==> t.value == ps[i].amount)
      && (NoFrom(ps, 0) ==> t.sender == None) && (NoTo(ps, 0) ==> t.receiver == None) && (NoValue(ps, 0) ==> t.value == 0)
  {
    var n := |e.events|;
    assert e.events[..n] == e.events;
    ParsedBefore(e, 0, n);
    if i < n {
      ParsedBefore(e, i + 1, n);
    }
  }

  /** The last sender, receiver and amount among the event's parameters are a, b and v. */
  ghost predicate Names(e: DecodedEvent, a: string, b: string, v: int) {
    var ps := e.events;
    && (exists i :: 0 <= i < |ps| && ps[i].From? && Lower(ps[i].address) == a && NoFrom(ps, i + 1))
    && (exists i :: 0 <= i < |ps| && ps[i].To? && Lower(ps[i].address) == b && NoTo(ps, i + 1))
    && (exists i :: 0 <= i < |ps| && ps[i].Value? && ps[i].amount == v && NoValue(ps, i + 1))
  }

  lemma NamesParsed(e: DecodedEvent, a: string, b: string, v: int)
    requires Names(e, a, b, v)
    ensures Parsed(e, |e.events|) == Transfer(Lower(e.address), Some(a), Some(b), v)
  {
    var ps := e.events;
    var i :| 0 <= i < |ps| && ps[i].From? && Lower(ps[i].address) == a && NoFrom(ps, i + 1);
    var j :| 0 <= j < |ps| && ps[j].To? && Lower(ps[j].address) == b && NoTo(ps, j + 1);
    var k :| 0 <= k < |ps| && ps[k].Value? && ps[k].amount == v && NoValue(ps, k + 1);
    LastParamDecides(e, i);
    LastParamDecides(e, j);
    LastParamDecides(e, k);
  }

  ghost function Transfers(es: seq<DecodedEvent>): (ts: seq<Transfer>)
    ensures |ts| == |es|
  {
    seq(|es|, i requires 0 <= i < |es| => Parsed(es[i], |es[i].events|))
  }

  // ------------------------------------------------------------------ what the adjustments mean

  /** A transfer out of the contract itself is a claim the platform has credited already. */
  predicate Counts(t: Transfer) {
    t.sender != Some(t.contract)
  }

  /** JavaScript truth of an address that may be null. */
  predicate Present(a: Option<string>) {
    a.Some? && a.value != ""
  }

  predicate Pays(t: Transfer, c: string, a: string) {
    Counts(t) && t.contract == c && a != "" && t.sender == Some(a)
  }

  predicate Receives(t: Transfer, c: string, a: string) {
    Counts(t) && t.contract == c && a != "" && t.receiver == Some(a)
  }

  function Inflow(ts: seq<Transfer>, c: string, a: string): (sum: int)
  {
    if ts == [] then 0
    else
      var last := ts[|ts| - 1];
      Inflow(ts[..|ts| - 1], c, a) + if Receives(last, c, a) then last.value else 0
  }

  function Outflow(ts: seq<Transfer>, c: string, a: string): (sum: int)
  {
    if ts == [] then 0
    else
      var last := ts[|ts| - 1];
      Outflow(ts[..|ts| - 1], c, a) + if Pays(last, c, a) then last.value else 0
  }

  /** Settled: what came in minus what went out.  Unsettled debit: minus what went out. */
  function Delta(ts: seq<Transfer>, c: string, a: string): (b: Balance)
  {
    Balance(Inflow(ts, c, a) - Outflow(ts, c, a), -Outflow(ts, c, a))
  }

  ghost predicate HasContract(ts: seq<Transfer>, c: string) {
    exists i :: 0 <= i < |ts| && Counts(ts[i]) && ts[i].contract == c
  }

  ghost predicate Touched(ts: seq<Transfer>, c: string, a: string) {
    exists i :: 0 <= i < |ts| && (Pays(ts[i], c, a) || Receives(ts[i], c, a))
  }

  type Adjustments = map<string, map<string, Balance>>

  /** The map has exactly the contracts and addresses touched, each with its delta. */
  ghost predicate Represents(m: Adjustments, ts: seq<Transfer>) {
    && (forall c :: c in m <==> HasContract(ts, c))
    && (forall c, a :: c in m && a in m[c] ==> Touched(ts, c, a) && m[c][a] == Delta(ts, c, a))
    && (forall c, a :: c in m && Touched(ts, c, a) ==> a in m[c])
  }

  ghost predicate Affects(ts: seq<Transfer>, a: string) {
    exists c :: Touched(ts, c, a)
  }

  // ------------------------------------------------------------------ one transfer more

  function Users(m: Adjustments, c: string): (users: map<string, Balance>)
  {
    if c in m then m[c] else map[]
  }

  function Entry(m: Adjustments, c: string, a: string): (b: Balance)
  {
    var users := Users(m, c);
    if a in users then users[a] else ZERO
  }

  lemma TouchedStep(ts: seq<Transfer>, t: Transfer, c: string, a: string)
    ensures Touched(ts + [t], c, a) <==> Touched(ts, c, a) || Pays(t, c, a) || Receives(t, c, a)
    ensures HasContract(ts + [t], c) <==> HasContract(ts, c) || (Counts(t) && t.contract == c)
    ensures Delta(ts + [t], c, a) == Balance(
      Delta(ts, c, a).settled + (if Receives(t, c, a) then t.value else 0) - (if Pays(t, c, a) then t.value else 0),
      Delta(ts, c, a).unSettledDebit - (if Pays(t, c, a) then t.value else 0))
  {
    var us := ts + [t];
    assert us[..|us| - 1] == ts;
    assert us[|ts|] == t;
    assert forall i :: 0 <= i < |ts| ==> us[i] == ts[i];
    if Touched(ts, c, a) {
      var i :| 0 <= i < |ts| && (Pays(ts[i], c, a) || Receives(ts[i], c, a));
      assert Pays(us[i], c, a) || Receives(us[i], c, a);
    }
    if HasContract(ts, c) {
      var i :| 0 <= i < |ts| && Counts(ts[i]) && ts[i].contract == c;
      assert Counts(us[i]) && us[i].contract == c;
    }
  }

  lemma {:induction false} UntouchedIsZero(ts: seq<Transfer>, c: string, a: string)
    requires !Touched(ts, c, a)
    ensures Delta(ts, c, a) == ZERO
  {
    if ts != [] {
      var init := ts[..|ts| - 1];
      assert ts == init + [ts[|ts| - 1]];
      TouchedStep(init, ts[|ts| - 1], c, a);
      UntouchedIsZero(init, c, a);
    }
  }

  lemma EntryIsDelta(m: Adjustments, ts: seq<Transfer>, c: string, a: string)
    requires Represents(m, ts)
    ensures Entry(m, c, a) == Delta(ts, c, a)
    ensures a in Users(m, c) <==> Touched(ts, c, a)
  {
    if Touched(ts, c, a) {
      var i :| 0 <= i < |ts| && (Pays(ts[i], c, a) || Receives(ts[i], c, a));
      assert HasContract(ts, c);
    } else {
      UntouchedIsZero(ts, c, a);
    }
  }

  /** The map n differs from m as the transfer t demands. */
  ghost predicate Adjusted(m: Adjustments, n: Adjustments, t: Transfer) {
    && (forall c :: c in n <==> c in m || (Counts(t) && t.contract == c))
    && (forall c, a :: a in Users(n, c) <==> a in Users(m, c) || Pays(t, c, a) || Receives(t, c, a))
    && (forall c, a :: Entry(n, c, a) == EntryAfter(m, t, c, a))
  }

  /** What the transfer makes of one entry. */
  ghost function EntryAfter(m: Adjustments, t: Transfer, c: string, a: string): (b: Balance)
  {
    var paid, received := if Pays(t, c, a) then t.value else 0, if Receives(t, c, a) then t.value else 0;
    Balance(Entry(m, c, a).settled + received - paid, Entry(m, c, a).unSettledDebit - paid)
  }

  lemma AdjustedRepresents(m: Adjustments, n: Adjustments, ts: seq<Transfer>, t: Transfer)
    requires Represents(m, ts) && Adjusted(m, n, t)
    ensures Represents(n, ts + [t])
  {
    forall c, a
      ensures Entry(n, c, a) == Delta(ts + [t], c, a)
      ensures a in Users(n, c) <==> Touched(ts + [t], c, a)
    {
      EntryIsDelta(m, ts, c, a);
      TouchedStep(ts, t, c, a);
    }
    forall c
      ensures c in n <==> HasContract(ts + [t], c)
    {
      TouchedStep(ts, t, c, "");
    }
    forall c, a | c in n && a in n[c]
      ensures Touched(ts + [t], c, a) && n[c][a] == Delta(ts + [t], c, a)
    {
      assert a in Users(n, c) && n[c][a] == Entry(n, c, a);
    }
    forall c, a | c in n && Touched(ts + [t], c, a)
      ensures a in n[c]
    {
      assert a in Users(n, c);
    }
  }

  // ------------------------------------------------------------------ the nested loops

  datatype Tx = Tx(hash: string, events: seq<DecodedEvent>)

  ghost function AllEvents(txs: seq<Tx>): (es: seq<DecodedEvent>)
  {
    if txs == [] then [] else AllEvents(txs[..|txs| - 1]) + txs[|txs| - 1].events
  }

  method ParseEvent(e: DecodedEvent) returns (t: Transfer)
    ensures t == Parsed(e, |e.events|)
  {
    var fromAddr, toAddr: Option<string>, value := None, None, 0;
    var contractAddress := Lower(e.address);
    for j := 0 to |e.events|
      invariant Parsed(e, j) == Transfer(contractAddress, fromAddr, toAddr, value)
    {
      match e.events[j] {
        case From(a) => fromAddr := Some(Lower(a));
        case To(a) => toAddr := Some(Lower(a));
        case Value(v) => value := v;
        case Other =>
      }
    }
    t := Transfer(contractAddress, fromAddr, toAddr, value);
  }

  /** Add to the entry of one user of a contract that is in the map. */
  function Credit(m: Adjustments, c: string, u: string, settled: int, unSettledDebit: int): (n: Adjustments)
    requires c in m
    ensures n.Keys == m.Keys
  {
    var b := Entry(m, c, u);
    m[c := m[c][u := Balance(b.settled + settled, b.unSettledDebit + unSettledDebit)]]
  }

  lemma CreditMoves(m: Adjustments, c: string, u: string, settled: int, unSettledDebit: int, d: string, v: string)
    requires c in m
    ensures var n := Credit(m, c, u, settled, unSettledDebit);
      && (v in Users(n, d) <==> v in Users(m, d) || (d == c && v == u))
      && Entry(n, d, v) == (if d == c && v == u then Add(Entry(m, d, v), Balance(settled, unSettledDebit)) else Entry(m, d, v))
  {
  }

  /** The two ends of a transfer of a contract that is in the map. */
  ghost function Debited(m: Adjustments, t: Transfer): (n: Adjustments)
    requires t.contract in m
  {
    if Present(t.sender) then Credit(m, t.contract, t.sender.value, -t.value, -t.value) else m
  }

  ghost function Credited(m: Adjustments, t: Transfer): (n: Adjustments)
    requires t.contract in m
  {
    if Present(t.receiver) then Credit(m, t.contract, t.receiver.value, t.value, 0) else m
  }

  lemma DebitMoves(m: Adjustments, t: Transfer, d: string, u: string)
    requires Counts(t) && t.contract in m
    ensures u in Users(Debited(m, t), d) <==> u in Users(m, d) || Pays(t, d, u)
    ensures Entry(Debited(m, t), d, u)
         == if Pays(t, d, u) then Add(Entry(m, d, u), Balance(-t.value, -t.value)) else Entry(m, d, u)
  {
    if Present(t.sender) {
      CreditMoves(m, t.contract, t.sender.value, -t.value, -t.value, d, u);
    }
  }

  lemma CreditingMoves(m: Adjustments, t: Transfer, d: string, u: string)
    requires Counts(t) && t.contract in m
    ensures u in Users(Credited(m, t), d) <==> u in Users(m, d) || Receives(t, d, u)
    ensures Entry(Credited(m, t), d, u)
         == if Receives(t, d, u) then Add(Entry(m, d, u), Balance(t.value, 0)) else Entry(m, d, u)
  {
    if Present(t.receiver) {
      CreditMoves(m, t.contract, t.receiver.value, t.value, 0, d, u);
    }
  }

  lemma BothEndsAdjust(m: Adjustments, t: Transfer)
    requires Counts(t)
    ensures var begun := if t.contract in m then m else m[t.contract := map[]]; Adjusted(m, Credited(Debited(begun, t), t), t)
  {
    var begun := if t.contract in m then m else m[t.contract := map[]];
    var n := Credited(Debited(begun, t), t);
    forall d, u
      ensures u in Users(n, d) <==> u in Users(m, d) || Pays(t, d, u) || Receives(t, d, u)
      ensures Entry(n, d, u) == EntryAfter(m, t, d, u)
    {
      DebitMoves(begun, t, d, u);
      CreditingMoves(Debited(begun, t), t, d, u);
    }
  }

  /** The users at the two ends, the sender first. */
  function Ends(t: Transfer): (us: seq<string>)
  {
    (if Present(t.sender) then [t.sender.value] else []) + if Present(t.receiver) then [t.receiver.value] else []
  }

  lemma EndsPayOrReceive(t: Transfer)
    requires Counts(t)
    ensures forall a :: a in Ends(t) <==> exists c :: Pays(t, c, a) || Receives(t, c, a)
  {
    forall a ensures a in Ends(t) <==> exists c :: Pays(t, c, a) || Receives(t, c, a) {
      if a in Ends(t) {
        assert Pays(t, t.contract, a) || Receives(t, t.contract, a);
      }
    }
  }

  method Adjust(m: Adjustments, t: Transfer) returns (n: Adjustments, touched: seq<string>)
    requires Counts(t)
    ensures Adjusted(m, n, t)
    ensures forall a :: a in touched <==> exists c :: Pays(t, c, a) || Receives(t, c, a)
  {
    var c, v := t.contract, t.value;
    n := if c in m then m else m[c := map[]];
    touched := [];
    ghost var begun := n;
    if Present(t.sender) {
      n := Credit(n, c, t.sender.value, -v, -v);
      touched := touched + [t.sender.value];
    }
    if Present(t.receiver) {
      n := Credit(n, c, t.receiver.value, v, 0);
      touched := touched + [t.receiver.value];
    }
    assert n == Credited(Debited(begun, t), t) && touched == Ends(t);
    BothEndsAdjust(m, t);
    EndsPayOrReceive(t);
  }

  /** `filter` with `indexOf(item) === pos`. */
  method Uniq(s: seq<string>) returns (r: seq<string>)
    ensures Distinct(r)
    ensures forall a :: a in r <==> a in s
  {
    r := [];
    for i := 0 to |s|
      invariant Distinct(r)
      invariant forall a :: a in r <==> a in s[..i]
    {
      assert s[..i + 1] == s[..i] + [s[i]];
      if s[i] !in s[..i] {
        r := r + [s[i]];
      }
    }
    assert s[..|s|] == s;
  }

  lemma SkippedRepresents(m: Adjustments, ts: seq<Transfer>, t: Transfer)
    requires Represents(m, ts) && !Counts(t)
    ensures Represents(m, ts + [t])
  {
    assert Adjusted(m, m, t);
    AdjustedRepresents(m, m, ts, t);
  }

  lemma AffectsStep(ts: seq<Transfer>, t: Transfer, a: string)
    ensures Affects(ts + [t], a) <==> Affects(ts, a) || exists c :: Pays(t, c, a) || Receives(t, c, a)
  {
    if Affects(ts + [t], a) {
      var c :| Touched(ts + [t], c, a);
      TouchedStep(ts, t, c, a);
    }
    if Affects(ts, a) {
      var c :| Touched(ts, c, a);
      TouchedStep(ts, t, c, a);
    }
    if c :| Pays(t, c, a) || Receives(t, c, a) {
      TouchedStep(ts, t, c, a);
    }
  }

  method AdjustForTx(es: seq<DecodedEvent>, m0: Adjustments, affected0: seq<string>, ghost done: seq<Transfer>)
    returns (m: Adjustments, affected: seq<string>, transferEvents: seq<Transfer>)
    requires Represents(m0, done) && forall a :: a in affected0 <==> Affects(done, a)
    ensures transferEvents == Transfers(es)
    ensures Represents(m, done + Transfers(es))
    ensures forall a :: a in affected <==> Affects(done + Transfers(es), a)
  {
    m, affected, transferEvents := m0, affected0, [];
    assert done + Transfers(es)[..0] == done;
    for i := 0 to |es|
      invariant transferEvents == Transfers(es)[..i]
      invariant Represents(m, done + transferEvents)
      invariant forall a :: a in affected <==> Affects(done + transferEvents, a)
    {
      var t := ParseEvent(es[i]);
      ghost var before := done + transferEvents;
      transferEvents := transferEvents + [t];
      assert done + transferEvents == before + [t];
      forall a
        ensures Affects(before + [t], a) <==> Affects(before, a) || exists c :: Pays(t, c, a) || Receives(t, c, a)
      {
        AffectsStep(before, t, a);
      }
      if t.sender == Some(t.contract) {
        SkippedRepresents(m, before, t);
        continue;
      }
      var n, touched := Adjust(m, t);
      AdjustedRepresents(m, n, before, t);
      m := n;
      affected := affected + touched;
    }
    assert Transfers(es)[..|es|] == Transfers(es);
  }

  lemma TransfersAppend(a: seq<DecodedEvent>, b: seq<DecodedEvent>)
    ensures Transfers(a + b) == Transfers(a) + Transfers(b)
  {
  }

  /** The transactions have a single event, a transfer of v from a to b outside its contract c. */
  ghost predicate Lone(txs: seq<Tx>, c: string, a: string, b: string, v: int) {
    && |txs| == 1 && |txs[0].events| == 1 && Lower(txs[0].events[0].address) == c && Names(txs[0].events[0], a, b, v)
    && a != b && a != "" && b != "" && a != c
  }

  lemma LoneTransfer(m: Adjustments, txs: seq<Tx>, c: string, a: string, b: string, v: int)
    requires Lone(txs, c, a, b, v) && Represents(m, Transfers(AllEvents(txs)))
    ensures m == map[c := map[a := Balance(-v, -v), b := Balance(v, 0)]]
  {
    NamesParsed(txs[0].events[0], a, b, v);
    OneTxEvents(txs);
    assert Transfers(AllEvents(txs)) == [] + [Transfer(c, Some(a), Some(b), v)];
    LoneContract(m, c, a, b, v);
    forall u
      ensures u in m[c] <==> u in {a, b}
      ensures u in m[c] ==> m[c][u] == if u == a then Balance(-v, -v) else Balance(v, 0)
    {
      LoneEntry(m, c, a, b, v, u);
    }
    SameBalances(m[c], map[a := Balance(-v, -v), b := Balance(v, 0)]);
  }

  /** A claim, a transfer out of the contract itself, adjusts nothing. */
  lemma LoneClaim(m: Adjustments, txs: seq<Tx>, b: string, v: int)
    requires |txs| == 1 && |txs[0].events| == 1 && Names(txs[0].events[0], Lower(txs[0].events[0].address), b, v)
    requires Represents(m, Transfers(AllEvents(txs)))
    ensures m == map[]
  {
    var c := Lower(txs[0].events[0].address);
    NamesParsed(txs[0].events[0], c, b, v);
    OneTxEvents(txs);
    assert Transfers(AllEvents(txs)) == [] + [Transfer(c, Some(c), Some(b), v)];
    forall d ensures d !in m {
      TouchedStep([], Transfer(c, Some(c), Some(b), v), d, b);
      assert d in m <==> HasContract([] + [Transfer(c, Some(c), Some(b), v)], d);
    }
  }

  lemma LoneContract(m: Adjustments, c: string, a: string, b: string, v: int)
    requires a != c && Represents(m, [] + [Transfer(c, Some(a), Some(b), v)])
    ensures m.Keys == {c}
  {
    var t := Transfer(c, Some(a), Some(b), v);
    forall d ensures d in m <==> d == c {
      TouchedStep([], t, d, a);
      assert d in m <==> HasContract([] + [t], d);
    }
  }

  lemma LoneEntry(m: Adjustments, c: string, a: string, b: string, v: int, u: string)
    requires a != c && a != b && a != "" && b != "" && c in m && Represents(m, [] + [Transfer(c, Some(a), Some(b), v)])
    ensures u in m[c] <==> u in {a, b}
    ensures u in m[c] ==> m[c][u] == if u == a then Balance(-v, -v) else Balance(v, 0)
  {
    var t := Transfer(c, Some(a), Some(b), v);
    OneTransfer(t, c, u);
    assert Pays(t, c, u) <==> u == a;
    assert Receives(t, c, u) <==> u == b;
    EntryIsDelta(m, [] + [t], c, u);
  }

  lemma OneEventMoves(e: DecodedEvent, a: string, b: string, v: int, c: string, u: string)
    requires Names(e, a, b, v) && a != "" && b != "" && a != b && a != Lower(e.address)
    ensures Delta(Transfers([e]), c, u)
         == if c != Lower(e.address) then ZERO else if u == a then Balance(-v, -v) else if u == b then Balance(v, 0) else ZERO
  {
    var t := Transfer(Lower(e.address), Some(a), Some(b), v);
    NamesParsed(e, a, b, v);
    assert Transfers([e]) == [] + [t];
    OneTransfer(t, c, u);
    assert Pays(t, c, u) <==> c == Lower(e.address) && u == a;
    assert Receives(t, c, u) <==> c == Lower(e.address) && u == b;
  }

  lemma OneTransfer(t: Transfer, c: string, u: string)
    ensures Touched([] + [t], c, u) <==> Pays(t, c, u) || Receives(t, c, u)
    ensures var paid, received := if Pays(t, c, u) then t.value else 0, if Receives(t, c, u) then t.value else 0;
      Delta([] + [t], c, u) == Balance(received - paid, -paid)
  {
    TouchedStep([], t, c, u);
    UntouchedIsZero([], c, u);
  }

  lemma SameBalances(a: map<string, Balance>, b: map<string, Balance>)
    requires forall u :: u in a <==> u in b
    requires forall u :: u in a ==> a[u] == b[u]
    ensures a == b
  {
  }

  /** The adjustments of more transactions, or of more events of one transaction, are added. */
  lemma AdjustmentsAdd(first: seq<Tx>, second: seq<Tx>, whole: seq<Tx>, m1: Adjustments, m2: Adjustments, m: Adjustments)
    requires Represents(m1, Transfers(AllEvents(first))) && Represents(m2, Transfers(AllEvents(second)))
    requires Represents(m, Transfers(AllEvents(whole)))
    requires whole == first + second || TxSplit(whole, first, second)
    ensures forall c, u :: Entry(m, c, u) == Add(Entry(m1, c, u), Entry(m2, c, u))
  {
    if whole == first + second {
      AllEventsAppend(first, second);
    } else {
      OneTxEvents(whole);
      OneTxEvents(first);
      OneTxEvents(second);
    }
    TransfersAppend(AllEvents(first), AllEvents(second));
    forall c, u ensures Entry(m, c, u) == Add(Entry(m1, c, u), Entry(m2, c, u)) {
      EntryIsDelta(m, Transfers(AllEvents(whole)), c, u);
      EntryIsDelta(m1, Transfers(AllEvents(first)), c, u);
      EntryIsDelta(m2, Transfers(AllEvents(second)), c, u);
      DeltaAppend(Transfers(AllEvents(first)), Transfers(AllEvents(second)), c, u);
    }
  }

  /** One transaction whose events are those of two others. */
  predicate TxSplit(whole: seq<Tx>, first: seq<Tx>, second: seq<Tx>) {
    |whole| == |first| == |second| == 1 && whole[0].events == first[0].events + second[0].events
  }

  lemma OneTxEvents(txs: seq<Tx>)
    requires |txs| == 1
    ensures AllEvents(txs) == txs[0].events
  {
    assert AllEvents(txs[..0]) == [];
  }

  lemma {:induction false} AllEventsAppend(a: seq<Tx>, b: seq<Tx>)
    ensures AllEvents(a + b) == AllEvents(a) + AllEvents(b)
    decreases |b|
  {
    if b == [] {
      assert a + b == a;
    } else {
      var n := |b| - 1;
      assert (a + b)[..|a| + n] == a + b[..n];
      AllEventsAppend(a, b[..n]);
    }
  }

  /** The three results of the adjustment pass: the map, the transfers of every transaction, the affected addresses. */
  method ComputeBalanceAdjustments(txs: seq<Tx>)
    returns (m: Adjustments, txHashTransferEvents: seq<(string, seq<Transfer>)>, affectedAddresses: seq<string>)
    ensures Represents(m, Transfers(AllEvents(txs)))
    ensures forall c, a, b, v :: Lone(txs, c, a, b, v) ==> m == map[c := map[a := Balance(-v, -v), b := Balance(v, 0)]]
    ensures |txHashTransferEvents| == |txs|
    ensures forall k :: 0 <= k < |txs| ==> txHashTransferEvents[k] == (txs[k].hash, Transfers(txs[k].events))
    ensures Distinct(affectedAddresses)
    ensures forall a :: a in affectedAddresses <==> Affects(Transfers(AllEvents(txs)), a)
  {
    m, txHashTransferEvents, affectedAddresses := map[], [], [];
    for k := 0 to |txs|
      invariant Represents(m, Transfers(AllEvents(txs[..k])))
      invariant |txHashTransferEvents| == k
      invariant forall j :: 0 <= j < k ==> txHashTransferEvents[j] == (txs[j].hash, Transfers(txs[j].events))
      invariant Distinct(affectedAddresses)
      invariant forall a :: a in affectedAddresses <==> Affects(Transfers(AllEvents(txs[..k])), a)
    {
      ghost var done := AllEvents(txs[..k]);
      var n, affected, transferEvents := AdjustForTx(txs[k].events, m, affectedAddresses, Transfers(done));
      m := n;
      txHashTransferEvents := txHashTransferEvents + [(txs[k].hash, transferEvents)];
      affectedAddresses := Uniq(affected);
      assert txs[..k + 1][..k] == txs[..k];
      TransfersAppend(done, txs[k].events);
    }
    assert txs[..|txs|] == txs;
    forall c, a, b, v | Lone(txs, c, a, b, v) ensures m == map[c := map[a := Balance(-v, -v), b := Balance(v, 0)]] {
      LoneTransfer(m, txs, c, a, b, v);
    }
  }

  // ------------------------------------------------------------------ conservation

  function Sum(ts: seq<Transfer>, c: string, users: seq<string>): (n: int)
  {
    if users == [] then 0 else Delta(ts, c, users[0]).settled + Sum(ts, c, users[1..])
  }

  /** What a transfer brings into its contract from nowhere: it names a receiver but no sender, or the reverse. */
  function FromNowhere(t: Transfer, c: string): (n: int)
  {
    if !Counts(t) || t.contract != c then 0
    else (if Present(t.receiver) then t.value else 0) - (if Present(t.sender) then t.value else 0)
  }

  function Imbalance(ts: seq<Transfer>, c: string): (n: int)
  {
    if ts == [] then 0 else Imbalance(ts[..|ts| - 1], c) + FromNowhere(ts[|ts| - 1], c)
  }

  lemma {:induction false} NothingToSum(c: string, users: seq<string>)
    ensures Sum([], c, users) == 0
  {
    if users != [] {
      NothingToSum(c, users[1..]);
    }
  }

  /** How the sum over a list of users changes with one transfer more: each of its two ends counts if it is listed. */
  lemma {:induction false} SumStep(ts: seq<Transfer>, t: Transfer, c: string, users: seq<string>)
    requires Distinct(users)
    ensures Sum(ts + [t], c, users) == Sum(ts, c, users)
      + (if exists a :: a in users && Receives(t, c, a) then t.value else 0)
      - (if exists a :: a in users && Pays(t, c, a) then t.value else 0)
  {
    if users != [] {
      var a, rest := users[0], users[1..];
      assert Distinct(rest) && a !in rest;
      SumStep(ts, t, c, rest);
      TouchedStep(ts, t, c, a);
      assert forall b :: b in users <==> b == a || b in rest;
      if Receives(t, c, a) {
        assert forall b :: Receives(t, c, b) ==> b == a;
      }
      if Pays(t, c, a) {
        assert forall b :: Pays(t, c, b) ==> b == a;
      }
    }
  }

  /** Over any duplicate-free list of users that leaves nobody out, the settled deltas of a contract add up to what its
      transfers bring from nowhere, nothing else. */
  lemma {:induction false} SettledSumIsImbalance(ts: seq<Transfer>, c: string, users: seq<string>)
    requires Distinct(users) && forall a :: Touched(ts, c, a) ==> a in users
    ensures Sum(ts, c, users) == Imbalance(ts, c)
  {
    if ts == [] {
      NothingToSum(c, users);
    } else {
      var init, t := ts[..|ts| - 1], ts[|ts| - 1];
      assert ts == init + [t];
      forall a
        ensures Touched(init, c, a) || Pays(t, c, a) || Receives(t, c, a) ==> a in users
      {
        TouchedStep(init, t, c, a);
      }
      SettledSumIsImbalance(init, c, users);
      SumStep(init, t, c, users);
      if Counts(t) && t.contract == c {
        assert Present(t.receiver) ==> Receives(t, c, t.receiver.value);
        assert Present(t.sender) ==> Pays(t, c, t.sender.value);
      }
    }
  }

  /** A Transfer event in the sense of EIP-20 names both ends. */
  predicate Complete(t: Transfer) {
    Present(t.sender) && Present(t.receiver)
  }

  lemma {:induction false} CompleteIsBalanced(ts: seq<Transfer>, c: string)
    requires forall i :: 0 <= i < |ts| ==> Complete(ts[i])
    ensures Imbalance(ts, c) == 0
  {
    if ts != [] {
      CompleteIsBalanced(ts[..|ts| - 1], c);
    }
  }

  /** Tokens are conserved: the settled deltas that the computed map holds for a contract sum to zero. */
  lemma Conservation(m: Adjustments, ts: seq<Transfer>, c: string, users: seq<string>)
    requires Represents(m, ts) && c in m
    requires Distinct(users) && forall a :: a in users <==> a in m[c]
    ensures Sum(ts, c, users) == Imbalance(ts, c)
    ensures (forall i :: 0 <= i < |ts| ==> Complete(ts[i])) ==> Sum(ts, c, users) == 0
  {
    SettledSumIsImbalance(ts, c, users);
    if forall i :: 0 <= i < |ts| ==> Complete(ts[i]) {
      CompleteIsBalanced(ts, c);
    }
  }

  // ------------------------------------------------------------------ cutting a block changes nothing

  lemma {:induction false} DeltaAppend(a: seq<Transfer>, b: seq<Transfer>, c: string, u: string)
    ensures Delta(a + b, c, u) == Add(Delta(a, c, u), Delta(b, c, u))
    decreases |b|
  {
    if b == [] {
      assert a + b == a;
    } else {
      var init, t := b[..|b| - 1], b[|b| - 1];
      assert b == init + [t] && a + b == (a + init) + [t];
      DeltaAppend(a, init, c, u);
      TouchedStep(init, t, c, u);
      TouchedStep(a + init, t, c, u);
    }
  }

  /** The sum of the deltas of separate groups of transfers. */
  function TotalDelta(groups: seq<seq<Transfer>>, c: string, u: string): (b: Balance)
  {
    if groups == [] then ZERO else Add(Delta(groups[0], c, u), TotalDelta(groups[1..], c, u))
  }

  lemma {:induction false} TotalDeltaSplit(a: seq<seq<Transfer>>, b: seq<seq<Transfer>>, c: string, u: string)
    ensures TotalDelta(a + b, c, u) == Add(TotalDelta(a, c, u), TotalDelta(b, c, u))
  {
    if a == [] {
      assert a + b == b;
    } else {
      assert (a + b)[1..] == a[1..] + b;
      TotalDeltaSplit(a[1..], b, c, u);
    }
  }

  lemma TotalDeltaSnoc(a: seq<seq<Transfer>>, b: seq<Transfer>, c: string, u: string)
    ensures TotalDelta(a + [b], c, u) == Add(TotalDelta(a, c, u), Delta(b, c, u))
  {
    TotalDeltaSplit(a, [b], c, u);
    assert [b][1..] == [];
  }

  lemma TotalDeltaWithout(a: seq<seq<Transfer>>, i: nat, c: string, u: string)
    requires i < |a|
    ensures TotalDelta(a, c, u) == Add(Delta(a[i], c, u), TotalDelta(Without(a, i), c, u))
  {
    var tail := [a[i]] + a[i + 1..];
    assert a == a[..i] + tail;
    assert tail[1..] == a[i + 1..];
    TotalDeltaSplit(a[..i], tail, c, u);
    TotalDeltaSplit(a[..i], a[i + 1..], c, u);
  }

  /** In whatever order the groups come, their deltas add up to the same. */
  lemma {:induction false} TotalDeltaAnyOrder(a: seq<seq<Transfer>>, b: seq<seq<Transfer>>, c: string, u: string)
    requires multiset(a) == multiset(b)
    ensures TotalDelta(a, c, u) == TotalDelta(b, c, u)
  {
    assert |multiset(a)| == |a| && |multiset(b)| == |b|;
    if a != [] {
      assert a[0] in multiset(a);
      var i := PlaceOf(a[0], b);
      MultisetWithout(b, i);
      MultisetWithout(a, 0);
      assert Without(a, 0) == a[1..];
      TotalDeltaAnyOrder(a[1..], Without(b, i), c, u);
      TotalDeltaWithout(b, i, c, u);
    }
  }

  // ------------------------------------------------------------------ settling

  type Table = map<(string, string), Balance>

  function BalanceIn(table: Table, c: string, u: string): (b: Balance)
  {
    if (c, u) in table then table[(c, u)] else ZERO
  }

  /** The table after the transfers ts were settled: every balance moved by its delta, a row for every touched address. */
  ghost predicate Applied(was: Table, now: Table, ts: seq<Transfer>) {
    AmountsApplied(was, now, ts) && forall c, u :: (c, u) in now <==> (c, u) in was || Touched(ts, c, u)
  }

  ghost predicate AmountsApplied(was: Table, now: Table, ts: seq<Transfer>) {
    forall c, u :: BalanceIn(now, c, u) == Add(BalanceIn(was, c, u), Delta(ts, c, u))
  }

  class TokenBalances {
    var balances: Table

    function Of(c: string, u: string): (b: Balance)
      reads this
    {
      BalanceIn(balances, c, u)
    }

    constructor ()
      ensures balances == map[]
    {
      balances := map[];
    }

    /** One update expression: both amounts are added to what is stored, a missing row counting as zero. */
    method Update(c: string, u: string, delta: Balance)
      modifies this
      ensures balances == old(balances)[(c, u) := Add(old(Of(c, u)), delta)]
    {
      balances := balances[(c, u) := Add(Of(c, u), delta)];
    }

    /** Add every adjustment of the map to its row.  Contracts and users come in any order. */
    method SettleBalancesInDb(m: Adjustments)
      modifies this
      ensures forall c, u :: Of(c, u) == Add(old(Of(c, u)), Entry(m, c, u))
      ensures forall c, u :: (c, u) in balances <==> (c, u) in old(balances) || u in Users(m, c)
    {
      var contracts := m.Keys;
      while contracts != {}
        invariant contracts <= m.Keys
        invariant Settled(old(balances), balances, m, contracts)
        decreases |contracts|
      {
        var contract :| contract in contracts;
        ghost var now := balances;
        SettleContract(contract, m[contract]);
        SettledStep(old(balances), now, balances, m, contracts, contract);
        contracts := contracts - {contract};
      }
    }

    method SettleContract(contract: string, users: map<string, Balance>)
      modifies this
      ensures ContractSettled(old(balances), balances, contract, users, {})
    {
      var rest := users.Keys;
      while rest != {}
        invariant rest <= users.Keys
        invariant ContractSettled(old(balances), balances, contract, users, rest)
        decreases |rest|
      {
        var user :| user in rest;
        ContractSettledStep(old(balances), balances, contract, users, rest, user);
        Update(contract, user, users[user]);
        rest := rest - {user};
      }
    }
  }

  /** The users of the contract outside rest have got their adjustment, and nobody else has. */
  ghost predicate ContractSettled(was: Table, now: Table, contract: string, users: map<string, Balance>, rest: set<string>) {
    && (forall c, u :: c != contract || u !in users || u in rest ==> BalanceIn(now, c, u) == BalanceIn(was, c, u))
    && (forall u :: u in users && u !in rest ==> BalanceIn(now, contract, u) == Add(BalanceIn(was, contract, u), users[u]))
    && (forall c, u :: (c, u) in now <==> (c, u) in was || (c == contract && u in users && u !in rest))
  }

  lemma {:induction false} ContractSettledStep(was: Table, now: Table, contract: string, users: map<string, Balance>, rest: set<string>,
                                               user: string)
    requires ContractSettled(was, now, contract, users, rest) && user in rest && rest <= users.Keys
    ensures ContractSettled(was, now[(contract, user) := Add(BalanceIn(now, contract, user), users[user])], contract, users,
                            rest - {user})
  {
    forall c, u
      ensures BalanceIn(now[(contract, user) := Add(BalanceIn(now, contract, user), users[user])], c, u)
        == if c == contract && u == user then Add(BalanceIn(now, c, u), users[user]) else BalanceIn(now, c, u)
    {
      UpdatedBalance(now, contract, user, users[user], c, u);
    }
  }

  lemma {:induction false} UpdatedBalance(now: Table, contract: string, user: string, delta: Balance, c: string, u: string)
    ensures BalanceIn(now[(contract, user) := Add(BalanceIn(now, contract, user), delta)], c, u)
      == if c == contract && u == user then Add(BalanceIn(now, c, u), delta) else BalanceIn(now, c, u)
  {
  }

  /** Every adjustment of a contract outside rest is in the table, and nothing else. */
  ghost predicate Settled(was: Table, now: Table, m: Adjustments, rest: set<string>) {
    && (forall c, u :: c in rest ==> BalanceIn(now, c, u) == BalanceIn(was, c, u))
    && (forall c, u :: c !in rest ==> BalanceIn(now, c, u) == Add(BalanceIn(was, c, u), Entry(m, c, u)))
    && (forall c, u :: (c, u) in now <==> (c, u) in was || (c !in rest && u in Users(m, c)))
  }

  lemma SettledStep(was: Table, now: Table, next: Table, m: Adjustments, rest: set<string>, contract: string)
    requires Settled(was, now, m, rest) && contract in rest && rest <= m.Keys
    requires ContractSettled(now, next, contract, m[contract], {})
    ensures Settled(was, next, m, rest - {contract})
  {
    forall u
      ensures BalanceIn(next, contract, u) == Add(BalanceIn(was, contract, u), Entry(m, contract, u))
    {
      assert BalanceIn(now, contract, u) == BalanceIn(was, contract, u);
      if u !in m[contract] {
        assert BalanceIn(next, contract, u) == BalanceIn(now, contract, u);
      }
    }
  }
}
