/** The store of configuration strategies: rows of parameters by kind and group, partly encrypted, found by the digest of
    their identifying keys. */
module ConfigStore {
  import opened Wrappers

  /** A parameter is compared with `!==`: a composite value read back from the store is never the caller's. */
  datatype Value = Primitive(text: string) | Composite(text: string)

  type Params = map<string, Value>

  datatype Status = Active | Inactive

  /** The group a helper was built with. */
  datatype GroupArg = Undefined | Null | Group(id: nat)

  /** The key lists of every kind. */
  datatype Catalogue = Catalogue(
    kinds: set<string>,
    withoutGroup: set<string>,
    encrypted: map<string, seq<string>>,
    plain: map<string, seq<string>>,
    identifiers: map<string, seq<string>>,
    whitelist: map<string, seq<string>>,
    initial: Status)

  datatype Crypto = Crypto(encrypt: (nat, Params) -> string, decrypt: (nat, string) -> Params, digest: Params -> string)

  /** A strategy's id is its rank: rows are never deleted. */
  datatype Row = Row(kind: string, group: Option<nat>, salt: nat, encrypted: string, plain: Params, digest: string, status: Status)

  datatype Outcome = Stored(id: nat) | Done | Rejected

  ghost predicate Inverts(crypto: Crypto) {
    forall salt: nat, p: Params :: crypto.decrypt(salt, crypto.encrypt(salt, p)) == p
  }

  function Keys(lists: map<string, seq<string>>, kind: string): (ks: seq<string>)
  {
    if kind in lists then lists[kind] else []
  }

  function Restrict(p: Params, keys: seq<string>): (r: Params)
  {
    map k | k in keys && k in p :: p[k]
  }

  predicate HasAll(p: Params, keys: seq<string>) {
    forall i :: 0 <= i < |keys| ==> keys[i] in p
  }

  predicate Truthy(g: GroupArg) {
    g.Group? && g.id != 0
  }

  /** SQL's `group_id = ?`, which no row satisfies for NULL. */
  predicate InGroup(row: Row, g: GroupArg) {
    g.Group? && row.group == Some(g.id)
  }

  // ------------------------------------------------------------------ lookups

  function FirstDigest(rows: seq<Row>, d: string, k: nat): (i: Option<nat>)
    requires k <= |rows|
    ensures i.Some? ==> k <= i.value < |rows| && rows[i.value].digest == d
    ensures i.None? ==> forall j :: k <= j < |rows| ==> rows[j].digest != d
    decreases |rows| - k
  {
    if k == |rows| then None else if rows[k].digest == d then Some(k) else FirstDigest(rows, d, k + 1)
  }

  predicate HasKind(rows: seq<Row>, kind: string) {
    exists i :: 0 <= i < |rows| && rows[i].kind == kind
  }

  /** The clause by which an update looks for its row. */
  predicate Selected(cat: Catalogue, row: Row, g: GroupArg, kind: string) {
    row.kind == kind && if kind in cat.withoutGroup then row.group.None? else InGroup(row, g)
  }

  predicate Taken(rows: seq<Row>, g: GroupArg, kind: string) {
    exists i :: 0 <= i < |rows| && rows[i].kind == kind && InGroup(rows[i], g)
  }

  predicate OnlySelected(cat: Catalogue, rows: seq<Row>, g: GroupArg, kind: string, i: nat) {
    i < |rows| && Selected(cat, rows[i], g, kind) && forall j :: 0 <= j < |rows| && Selected(cat, rows[j], g, kind) ==> j == i
  }

  // ------------------------------------------------------------------ reading and writing a row

  function ReadBack(crypto: Crypto, row: Row): (p: Params)
  {
    crypto.decrypt(row.salt, row.encrypted) + row.plain
  }

  function Listed(cat: Catalogue, kind: string): (ks: seq<string>)
  {
    Keys(cat.plain, kind) + Keys(cat.encrypted, kind)
  }

  function Digest(cat: Catalogue, crypto: Crypto, kind: string, p: Params): (d: string)
  {
    crypto.digest(Restrict(p, Keys(cat.identifiers, kind)))
  }

  function Write(cat: Catalogue, crypto: Crypto, row: Row, p: Params): (r: Row)
  {
    row.(encrypted := crypto.encrypt(row.salt, Restrict(p, Keys(cat.encrypted, row.kind))),
         plain := Restrict(p, Keys(cat.plain, row.kind)),
         digest := Digest(cat, crypto, row.kind, p))
  }

  function Blank(cat: Catalogue, kind: string, group: Option<nat>, salt: nat): (r: Row)
  {
    Row(kind, group, salt, "", map[], "", cat.initial)
  }

  /** No key outside the whitelist differs, as `!==` sees it. */
  predicate Whitelisted(existing: Params, p: Params, allowed: seq<string>) {
    forall k :: k in existing && k !in allowed ==> k in p && existing[k].Primitive? && existing[k] == p[k]
  }

  // ------------------------------------------------------------------ the operations

  function Creation(cat: Catalogue, crypto: Crypto, rows: seq<Row>, kind: string, salt: nat, p: Params, group: Option<nat>, shapeOk: bool):
    (r: (seq<Row>, Outcome))
  {
    var found := FirstDigest(rows, Digest(cat, crypto, kind, p), 0);
    if kind !in cat.kinds || !shapeOk then (rows, Rejected)
    else if found.Some? then (rows, Stored(found.value))
    else if !HasAll(p, Listed(cat, kind)) then (rows, Rejected)
    else (rows + [Write(cat, crypto, Blank(cat, kind, group, salt), p)], Stored(|rows|))
  }

  function Add(cat: Catalogue, crypto: Crypto, rows: seq<Row>, g: GroupArg, kind: string, p: Params, salt: nat, shapeOk: bool):
    (r: (seq<Row>, Outcome))
  {
    if kind !in cat.kinds then (rows, Rejected)
    else if kind in cat.withoutGroup then
      if Truthy(g) || HasKind(rows, kind) then (rows, Rejected) else Creation(cat, crypto, rows, kind, salt, p, None, shapeOk)
    else if g.Undefined? || Taken(rows, g, kind) || !shapeOk then (rows, Rejected)
    else Creation(cat, crypto, rows, kind, salt, p, if g.Group? then Some(g.id) else None, shapeOk)
  }

  /** An update that found its one row i. */
  function UpdateRow(cat: Catalogue, crypto: Crypto, rows: seq<Row>, i: nat, p: Params, shapeOk: bool): (r: (seq<Row>, Outcome))
    requires i < |rows|
  {
    var kind := rows[i].kind;
    var found := FirstDigest(rows, Digest(cat, crypto, kind, p), 0);
    if rows[i].status == Active && (kind !in cat.whitelist || !Whitelisted(ReadBack(crypto, rows[i]), p, cat.whitelist[kind])) then
      (rows, Rejected)
    else if !shapeOk || (found.Some? && found.value != i) || !HasAll(p, Listed(cat, kind)) then (rows, Rejected)
    else (rows[i := Write(cat, crypto, rows[i], p)], Done)
  }

  function FirstSelected(cat: Catalogue, rows: seq<Row>, g: GroupArg, kind: string, k: nat): (i: Option<nat>)
    requires k <= |rows|
    ensures i.Some? ==> k <= i.value < |rows| && Selected(cat, rows[i.value], g, kind)
    ensures i.None? ==> forall j :: k <= j < |rows| ==> !Selected(cat, rows[j], g, kind)
    decreases |rows| - k
  {
    if k == |rows| then None else if Selected(cat, rows[k], g, kind) then Some(k) else FirstSelected(cat, rows, g, kind, k + 1)
  }

  function Update(cat: Catalogue, crypto: Crypto, rows: seq<Row>, g: GroupArg, kind: string, p: Params, shapeOk: bool):
    (r: (seq<Row>, Outcome))
  {
    var i := FirstSelected(cat, rows, g, kind, 0);
    if kind !in cat.kinds || (if kind in cat.withoutGroup then Truthy(g) else g.Undefined?) then (rows, Rejected)
    else if i.None? || !OnlySelected(cat, rows, g, kind, i.value) then (rows, Rejected)
    else UpdateRow(cat, crypto, rows, i.value, p, shapeOk)
  }

  function SetStatus(rows: seq<Row>, hit: Row -> bool, status: Status): (r: seq<Row>)
    ensures |r| == |rows|
  {
    seq(|rows|, i requires 0 <= i < |rows| => if hit(rows[i]) then rows[i].(status := status) else rows[i])
  }

  function Activation(rows: seq<Row>, g: GroupArg): (r: (seq<Row>, Outcome))
  {
    if g.Undefined? then (rows, Rejected)
    else (SetStatus(rows, row => InGroup(row, g) || row.group.None?, Active), Done)
  }

  /** Some client uses a strategy of the group. */
  predicate Referenced(rows: seq<Row>, refs: set<nat>, g: GroupArg) {
    exists i :: 0 <= i < |rows| && i in refs && InGroup(rows[i], g)
  }

  function Deactivation(rows: seq<Row>, refs: set<nat>, g: GroupArg): (r: (seq<Row>, Outcome))
  {
    if g.Undefined? || Referenced(rows, refs, g) || !(exists i :: 0 <= i < |rows| && InGroup(rows[i], g)) then (rows, Rejected)
    else (SetStatus(rows, row => InGroup(row, g), Inactive), Done)
  }

  // ------------------------------------------------------------------ whole runs

  datatype Event =
    | AddForKind(g: GroupArg, kind: string, params: Params, salt: nat, shapeOk: bool)
    | UpdateForKind(g: GroupArg, kind: string, params: Params, shapeOk: bool)
    | ActivateById(id: nat)
    | ActivateGroup(g: GroupArg)
    | DeactivateGroup(g: GroupArg, refs: set<nat>)

  function After(cat: Catalogue, crypto: Crypto, rows: seq<Row>, e: Event): (r: (seq<Row>, Outcome))
  {
    match e
    case AddForKind(g, kind, p, salt, shapeOk) => Add(cat, crypto, rows, g, kind, p, salt, shapeOk)
    case UpdateForKind(g, kind, p, shapeOk) => Update(cat, crypto, rows, g, kind, p, shapeOk)
    case ActivateById(id) => if id < |rows| then (rows[id := rows[id].(status := Active)], Done) else (rows, Rejected)
    case ActivateGroup(g) => Activation(rows, g)
    case DeactivateGroup(g, refs) => Deactivation(rows, refs, g)
  }

  ghost function AfterAll(cat: Catalogue, crypto: Crypto, rows: seq<Row>, es: seq<Event>): (r: seq<Row>)
    decreases |es|
  {
    if es == [] then rows else AfterAll(cat, crypto, After(cat, crypto, rows, es[0]).0, es[1..])
  }

  // ------------------------------------------------------------------ what every run keeps

  ghost predicate UniqueDigests(rows: seq<Row>) {
    forall i, j :: 0 <= i < j < |rows| ==> rows[i].digest != rows[j].digest
  }

  /** The row holds exactly the listed keys of its kind, which is one of the catalogue. */
  ghost predicate Whole(cat: Catalogue, crypto: Crypto, row: Row) {
    && row.kind in cat.kinds && (row.kind in cat.withoutGroup ==> row.group.None?)
    && (forall k :: k in row.plain <==> k in Keys(cat.plain, row.kind))
    && (forall k :: k in crypto.decrypt(row.salt, row.encrypted) <==> k in Keys(cat.encrypted, row.kind))
  }

  ghost predicate AllWhole(cat: Catalogue, crypto: Crypto, rows: seq<Row>) {
    forall i :: 0 <= i < |rows| ==> Whole(cat, crypto, rows[i])
  }

  ghost predicate UniqueKinds(rows: seq<Row>) {
    forall i, j :: 0 <= i < j < |rows| ==> rows[i].kind != rows[j].kind || rows[i].group != rows[j].group
  }

  lemma WrittenReadsBack(cat: Catalogue, crypto: Crypto, row: Row, p: Params)
    requires Inverts(crypto) && HasAll(p, Listed(cat, row.kind))
    ensures ReadBack(crypto, Write(cat, crypto, row, p)) == Restrict(p, Listed(cat, row.kind))
    ensures forall k :: k in Write(cat, crypto, row, p).plain <==> k in Keys(cat.plain, row.kind)
    ensures forall k :: k in crypto.decrypt(row.salt, Write(cat, crypto, row, p).encrypted) <==> k in Keys(cat.encrypted, row.kind)
  {
    var (plain, secret) := (Keys(cat.plain, row.kind), Keys(cat.encrypted, row.kind));
    assert forall i :: 0 <= i < |plain| ==> Listed(cat, row.kind)[i] == plain[i];
    assert forall i :: 0 <= i < |secret| ==> Listed(cat, row.kind)[|plain| + i] == secret[i];
  }

  lemma WriteKeepsUniqueDigests(cat: Catalogue, crypto: Crypto, rows: seq<Row>, next: seq<Row>, i: nat)
    requires UniqueDigests(rows) && i < |next| && |rows| <= |next| <= |rows| + 1 && (|next| == |rows| + 1 ==> i == |rows|)
    requires forall j :: 0 <= j < |rows| && j != i ==> next[j].digest == rows[j].digest
    requires forall j :: 0 <= j < |rows| && rows[j].digest == next[i].digest ==> j == i
    ensures UniqueDigests(next)
  {
  }

  lemma StepKeepsUniqueDigests(cat: Catalogue, crypto: Crypto, rows: seq<Row>, e: Event)
    requires UniqueDigests(rows)
    ensures UniqueDigests(After(cat, crypto, rows, e).0)
  {
    var next := After(cat, crypto, rows, e).0;
    if e.UpdateForKind? && next != rows {
      var i := FirstSelected(cat, rows, e.g, e.kind, 0).value;
      WriteKeepsUniqueDigests(cat, crypto, rows, next, i);
    } else if e.AddForKind? && next != rows {
      WriteKeepsUniqueDigests(cat, crypto, rows, next, |rows|);
    }
  }

  lemma UpdateKeepsWhole(cat: Catalogue, crypto: Crypto, rows: seq<Row>, i: nat, p: Params, shapeOk: bool)
    requires Inverts(crypto) && AllWhole(cat, crypto, rows) && i < |rows|
    ensures AllWhole(cat, crypto, UpdateRow(cat, crypto, rows, i, p, shapeOk).0)
  {
    if HasAll(p, Listed(cat, rows[i].kind)) {
      WrittenReadsBack(cat, crypto, rows[i], p);
    }
  }

  lemma CreationKeepsWhole(cat: Catalogue, crypto: Crypto, rows: seq<Row>, kind: string, salt: nat, p: Params, group: Option<nat>, shapeOk: bool)
    requires Inverts(crypto) && AllWhole(cat, crypto, rows) && (kind in cat.withoutGroup ==> group.None?)
    ensures AllWhole(cat, crypto, Creation(cat, crypto, rows, kind, salt, p, group, shapeOk).0)
  {
    if HasAll(p, Listed(cat, kind)) {
      WrittenReadsBack(cat, crypto, Blank(cat, kind, group, salt), p);
    }
  }

  lemma StepKeepsWhole(cat: Catalogue, crypto: Crypto, rows: seq<Row>, e: Event)
    requires Inverts(crypto) && AllWhole(cat, crypto, rows)
    ensures AllWhole(cat, crypto, After(cat, crypto, rows, e).0)
  {
    match e
    case UpdateForKind(g, kind, p, shapeOk) =>
      var i := FirstSelected(cat, rows, g, kind, 0);
      if i.Some? {
        UpdateKeepsWhole(cat, crypto, rows, i.value, p, shapeOk);
      }
    case AddForKind(g, kind, p, salt, shapeOk) =>
      CreationKeepsWhole(cat, crypto, rows, kind, salt, p, if kind !in cat.withoutGroup && g.Group? then Some(g.id) else None, shapeOk);
    case _ =>
  }

  /** Adding a kind that needs a group under the group NULL looks for a row that no row can match. */
  predicate SlipsPastCheck(cat: Catalogue, e: Event) {
    e.AddForKind? && e.kind !in cat.withoutGroup && e.g.Null?
  }

  lemma StepKeepsUniqueKinds(cat: Catalogue, crypto: Crypto, rows: seq<Row>, e: Event)
    requires UniqueKinds(rows) && AllWhole(cat, crypto, rows) && !SlipsPastCheck(cat, e)
    ensures UniqueKinds(After(cat, crypto, rows, e).0)
  {
  }

  /** An accepted addition keeps the rule of one row per kind and group, unless it is one of NULL for a kind that has such a
      row already: that one breaks it. */
  lemma AddKeepsUniqueKindsIff(cat: Catalogue, crypto: Crypto, rows: seq<Row>, e: Event)
    requires UniqueKinds(rows) && AllWhole(cat, crypto, rows) && e.AddForKind? && |After(cat, crypto, rows, e).0| > |rows|
    ensures UniqueKinds(After(cat, crypto, rows, e).0)
      <==> !(SlipsPastCheck(cat, e) && exists i :: 0 <= i < |rows| && rows[i].kind == e.kind && rows[i].group.None?)
  {
    var next := After(cat, crypto, rows, e).0;
    if SlipsPastCheck(cat, e) {
      var last := next[|rows|];
      assert last.kind == e.kind && last.group.None?;
      assert forall i :: 0 <= i < |rows| ==> next[i] == rows[i];
      if i :| 0 <= i < |rows| && rows[i].kind == e.kind && rows[i].group.None? {
        assert next[i].kind == last.kind && next[i].group == last.group;
      } else {
        assert forall i :: 0 <= i < |rows| ==> next[i].kind != last.kind || next[i].group != last.group;
      }
    } else {
      StepKeepsUniqueKinds(cat, crypto, rows, e);
    }
  }

  ghost predicate NoneSlips(cat: Catalogue, es: seq<Event>) {
    forall i :: 0 <= i < |es| ==> !SlipsPastCheck(cat, es[i])
  }

  /** Over every run from the empty table: one row per digest, every row with exactly its kind's keys, and, unless an addition
      slips past its check, one row per kind and group. */
  lemma {:induction false} RunKeepsStore(cat: Catalogue, crypto: Crypto, rows: seq<Row>, es: seq<Event>)
    requires Inverts(crypto) && UniqueDigests(rows) && AllWhole(cat, crypto, rows)
    ensures UniqueDigests(AfterAll(cat, crypto, rows, es)) && AllWhole(cat, crypto, AfterAll(cat, crypto, rows, es))
    ensures UniqueKinds(rows) && NoneSlips(cat, es) ==> UniqueKinds(AfterAll(cat, crypto, rows, es))
    decreases |es|
  {
    if es != [] {
      StepKeepsUniqueDigests(cat, crypto, rows, es[0]);
      StepKeepsWhole(cat, crypto, rows, es[0]);
      if UniqueKinds(rows) && NoneSlips(cat, es) {
        StepKeepsUniqueKinds(cat, crypto, rows, es[0]);
      }
      RunKeepsStore(cat, crypto, After(cat, crypto, rows, es[0]).0, es[1..]);
    }
  }

  /** What the caller stored under an id is what a read of that id gives, for exactly the kind's keys. */
  lemma StoredIsReadBack(cat: Catalogue, crypto: Crypto, rows: seq<Row>, e: Event)
    requires Inverts(crypto)
    ensures var (next, outcome) := After(cat, crypto, rows, e);
      && (e.AddForKind? && outcome.Stored? && |next| > |rows| ==>
            outcome.id == |rows| && ReadBack(crypto, next[|rows|]) == Restrict(e.params, Listed(cat, e.kind)))
      && (e.UpdateForKind? && outcome.Done? ==>
            exists i: nat :: OnlySelected(cat, rows, e.g, e.kind, i) && |next| == |rows| && next == rows[i := next[i]]
                             && ReadBack(crypto, next[i]) == Restrict(e.params, Listed(cat, e.kind)))
  {
    var (next, outcome) := After(cat, crypto, rows, e);
    if e.AddForKind? && |next| > |rows| {
      WrittenReadsBack(cat, crypto, Blank(cat, e.kind, next[|rows|].group, e.salt), e.params);
    } else if e.UpdateForKind? && outcome.Done? {
      var i := FirstSelected(cat, rows, e.g, e.kind, 0).value;
      WrittenReadsBack(cat, crypto, rows[i], e.params);
    }
  }

  // ------------------------------------------------------------------ active rows and referenced rows

  /** A key of an active row outside the whitelist keeps its value. */
  ghost predicate Guarded(cat: Catalogue, crypto: Crypto, was: Row, now: Row) {
    now.kind == was.kind
    && forall k :: k in ReadBack(crypto, was) && k !in Keys(cat.whitelist, was.kind) ==>
         k in ReadBack(crypto, now) && ReadBack(crypto, now)[k] == ReadBack(crypto, was)[k]
  }

  lemma StepGuardsActive(cat: Catalogue, crypto: Crypto, rows: seq<Row>, e: Event, i: nat)
    requires Inverts(crypto) && AllWhole(cat, crypto, rows) && i < |rows| && rows[i].status == Active
    ensures i < |After(cat, crypto, rows, e).0| && Guarded(cat, crypto, rows[i], After(cat, crypto, rows, e).0[i])
  {
    var (next, outcome) := After(cat, crypto, rows, e);
    if e.UpdateForKind? && outcome.Done? && FirstSelected(cat, rows, e.g, e.kind, 0).value == i {
      WrittenReadsBack(cat, crypto, rows[i], e.params);
    }
  }

  ghost predicate StaysActive(cat: Catalogue, crypto: Crypto, rows: seq<Row>, es: seq<Event>, i: nat)
    decreases |es|
  {
    i < |rows| && rows[i].status == Active && (es == [] || StaysActive(cat, crypto, After(cat, crypto, rows, es[0]).0, es[1..], i))
  }

  /** As long as a row stays active, no run of operations changes a key outside its whitelist. */
  lemma {:induction false} RunGuardsActive(cat: Catalogue, crypto: Crypto, rows: seq<Row>, es: seq<Event>, i: nat)
    requires Inverts(crypto) && AllWhole(cat, crypto, rows) && StaysActive(cat, crypto, rows, es, i)
    ensures i < |AfterAll(cat, crypto, rows, es)| && Guarded(cat, crypto, rows[i], AfterAll(cat, crypto, rows, es)[i])
    decreases |es|
  {
    if es != [] {
      var next := After(cat, crypto, rows, es[0]).0;
      StepGuardsActive(cat, crypto, rows, es[0], i);
      StepKeepsWhole(cat, crypto, rows, es[0]);
      RunGuardsActive(cat, crypto, next, es[1..], i);
    }
  }

  /** An active row with a composite value outside the whitelist, or of a kind without one, refuses every update. */
  lemma CompositeFreezes(cat: Catalogue, crypto: Crypto, rows: seq<Row>, i: nat, k: string, p: Params, shapeOk: bool)
    requires i < |rows| && rows[i].status == Active
    requires k in ReadBack(crypto, rows[i]) && k !in Keys(cat.whitelist, rows[i].kind)
    requires rows[i].kind !in cat.whitelist || ReadBack(crypto, rows[i])[k].Composite?
    ensures UpdateRow(cat, crypto, rows, i, p, shapeOk) == (rows, Rejected)
  {
  }

  /** A strategy that a client uses is never touched by a deactivation, and a deactivation changes nothing but the status of
      its group. */
  lemma DeactivationSparesReferenced(rows: seq<Row>, refs: set<nat>, g: GroupArg, i: nat)
    requires i < |rows|
    ensures var (next, outcome) := Deactivation(rows, refs, g);
      && |next| == |rows| && next[i] == rows[i].(status := next[i].status)
      && (i in refs ==> next[i] == rows[i]) && (outcome.Rejected? ==> next == rows)
      && (outcome.Done? <==> g.Group? && (exists j :: 0 <= j < |rows| && rows[j].group == Some(g.id))
                             && forall j :: 0 <= j < |rows| && rows[j].group == Some(g.id) ==> j !in refs)
      && (outcome.Done? ==> next[i].status == if rows[i].group == Some(g.id) then Inactive else rows[i].status)
  {
  }

  /** An activation of a group makes its rows and those without a group active, and changes nothing else. */
  lemma ActivationSwitchesOn(rows: seq<Row>, g: GroupArg, i: nat)
    requires i < |rows|
    ensures var (next, outcome) := Activation(rows, g);
      && |next| == |rows| && next[i] == rows[i].(status := next[i].status)
      && (outcome.Done? <==> !g.Undefined?) && (outcome.Rejected? ==> next == rows)
      && (outcome.Done? && (rows[i].group.None? || g == Group(rows[i].group.value)) ==> next[i].status == Active)
      && (rows[i].group.Some? && g != Group(rows[i].group.value) ==> next[i].status == rows[i].status)
  {
  }

  /** Where the rows of the group and those without one were active, an activation undoes an accepted deactivation. */
  lemma ActivationUndoesDeactivation(rows: seq<Row>, refs: set<nat>, g: GroupArg)
    requires Deactivation(rows, refs, g).1.Done?
    requires forall i :: 0 <= i < |rows| && (rows[i].group.None? || g == Group(rows[i].group.value)) ==> rows[i].status == Active
    ensures Activation(Deactivation(rows, refs, g).0, g) == (rows, Done)
  {
    var off := Deactivation(rows, refs, g).0;
    var on := Activation(off, g).0;
    forall i | 0 <= i < |rows| ensures |off| == |on| == |rows| && on[i] == rows[i] {
      DeactivationSwitchesOff(rows, refs, g, i);
      ActivationSwitchesOn(off, g, i);
    }
    assert on == rows;
  }

  /** The event can set the status of row i, which has this group. */
  predicate Concerns(e: Event, i: nat, group: Option<nat>) {
    match e
    case ActivateById(id) => id == i
    case ActivateGroup(g) => !g.Undefined? && (group.None? || g == Group(group.value))
    case DeactivateGroup(g, _) => group.Some? && g == Group(group.value)
    case _ => false
  }

  lemma DeactivationSwitchesOff(rows: seq<Row>, refs: set<nat>, g: GroupArg, i: nat)
    requires i < |rows|
    ensures var (next, outcome) := Deactivation(rows, refs, g);
      && |next| == |rows| && (outcome.Rejected? ==> next == rows) && (outcome.Done? || outcome.Rejected?)
      && (outcome.Done? ==>
            next[i] == if rows[i].group.Some? && g == Group(rows[i].group.value) then rows[i].(status := Inactive) else rows[i])
  {
  }

  lemma WritesKeepStatus(cat: Catalogue, crypto: Crypto, rows: seq<Row>, e: Event, i: nat)
    requires i < |rows| && (e.AddForKind? || e.UpdateForKind?)
    ensures var next := After(cat, crypto, rows, e).0;
      i < |next| && next[i].group == rows[i].group && next[i].kind == rows[i].kind && next[i].status == rows[i].status
  {
  }

  /** Row i exists, is not changed but for its parameters, and has its status set only by an event that concerns it. */
  lemma {:induction false} StepSwitches(cat: Catalogue, crypto: Crypto, rows: seq<Row>, e: Event, i: nat)
    requires i < |rows|
    ensures var (next, outcome) := After(cat, crypto, rows, e);
      && i < |next| && next[i].group == rows[i].group && next[i].kind == rows[i].kind
      && (if Concerns(e, i, rows[i].group) && outcome.Done?
          then next[i] == rows[i].(status := if e.DeactivateGroup? then Inactive else Active)
          else next[i].status == rows[i].status)
      && (Concerns(e, i, rows[i].group) && !e.DeactivateGroup? ==> outcome.Done?)
  {
    match e {
      case ActivateGroup(g) => ActivationSwitchesOn(rows, g, i);
      case DeactivateGroup(g, refs) => DeactivationSwitchesOff(rows, refs, g, i);
      case ActivateById(id) => ActivatesOne(cat, crypto, rows, id);
      case AddForKind(_, _, _, _, _) => WritesKeepStatus(cat, crypto, rows, e, i);
      case UpdateForKind(_, _, _, _) => WritesKeepStatus(cat, crypto, rows, e, i);
    }
  }

  ghost predicate NoneConcerns(es: seq<Event>, i: nat, group: Option<nat>) {
    forall k :: 0 <= k < |es| ==> !Concerns(es[k], i, group)
  }

  lemma {:induction false} UnconcernedKeepsStatus(cat: Catalogue, crypto: Crypto, rows: seq<Row>, es: seq<Event>, i: nat)
    requires i < |rows| && NoneConcerns(es, i, rows[i].group)
    ensures var after := AfterAll(cat, crypto, rows, es); i < |after| && after[i].status == rows[i].status
    decreases |es|
  {
    if es != [] {
      StepSwitches(cat, crypto, rows, es[0], i);
      assert forall k :: 0 <= k < |es| - 1 ==> es[1..][k] == es[k + 1];
      UnconcernedKeepsStatus(cat, crypto, After(cat, crypto, rows, es[0]).0, es[1..], i);
    }
  }

  /** The last accepted switch of a row decides: after any further events that do not concern it, the row is inactive if that was a
      deactivation of its group, and active if it was an activation of the row, of its group, or, without a group, of any. */
  lemma {:induction false} LastSwitchDecides(cat: Catalogue, crypto: Crypto, rows: seq<Row>, e: Event, es: seq<Event>, i: nat)
    requires i < |rows| && Concerns(e, i, rows[i].group) && After(cat, crypto, rows, e).1.Done?
    requires NoneConcerns(es, i, rows[i].group)
    ensures var after := AfterAll(cat, crypto, After(cat, crypto, rows, e).0, es);
      i < |after| && after[i].status == if e.DeactivateGroup? then Inactive else Active
  {
    StepSwitches(cat, crypto, rows, e, i);
    UnconcernedKeepsStatus(cat, crypto, After(cat, crypto, rows, e).0, es, i);
  }

  /** Activating one strategy touches no other. */
  lemma ActivatesOne(cat: Catalogue, crypto: Crypto, rows: seq<Row>, id: nat)
    ensures var (next, outcome) := After(cat, crypto, rows, ActivateById(id));
      && |next| == |rows| && (outcome.Done? <==> id < |rows|) && (outcome.Rejected? <==> id >= |rows|)
      && (forall i :: 0 <= i < |rows| ==> next[i] == rows[i].(status := if i == id then Active else rows[i].status))
  {
  }

  // ------------------------------------------------------------------ what is accepted

  /** A helper for a kind without a group was built without one, or with group 0. */
  predicate GroupOmitted(g: GroupArg) {
    g == Undefined || g == Null || g == Group(0)
  }

  predicate DigestTaken(cat: Catalogue, crypto: Crypto, rows: seq<Row>, kind: string, p: Params) {
    exists i :: 0 <= i < |rows| && rows[i].digest == Digest(cat, crypto, kind, p)
  }

  /** No row has the digest, or row i is the first that has it: with unique digests, no other row has it. */
  predicate DigestFree(cat: Catalogue, crypto: Crypto, rows: seq<Row>, kind: string, p: Params, i: nat)
    requires i < |rows|
  {
    DigestTaken(cat, crypto, rows, kind, p) ==>
      rows[i].digest == Digest(cat, crypto, kind, p) && forall j :: 0 <= j < i ==> rows[j].digest != Digest(cat, crypto, kind, p)
  }

  /** An addition is accepted exactly when the kind is known and the parameters have the right shape, no row is in its way, and the
      parameters have every listed key or some row their digest already; a new row has the kind, the group and the salt given
      and the status of new rows. */
  lemma AdditionAcceptedIff(cat: Catalogue, crypto: Crypto, rows: seq<Row>, g: GroupArg, kind: string, p: Params, salt: nat, shapeOk: bool)
    ensures var (next, outcome) := After(cat, crypto, rows, AddForKind(g, kind, p, salt, shapeOk));
      && (outcome.Stored? <==>
            && kind in cat.kinds && shapeOk
            && (if kind in cat.withoutGroup then GroupOmitted(g) && forall i :: 0 <= i < |rows| ==> rows[i].kind != kind
                else g != Undefined && forall i :: 0 <= i < |rows| && rows[i].kind == kind && rows[i].group.Some? ==>
                       g != Group(rows[i].group.value))
            && (HasAll(p, Listed(cat, kind)) || DigestTaken(cat, crypto, rows, kind, p)))
      && (outcome.Rejected? <==> !outcome.Stored?) && (outcome.Rejected? ==> next == rows)
      && (outcome.Stored? && DigestTaken(cat, crypto, rows, kind, p) ==>
            next == rows && outcome.id < |rows| && rows[outcome.id].digest == Digest(cat, crypto, kind, p))
      && (outcome.Stored? && !DigestTaken(cat, crypto, rows, kind, p) ==>
            && outcome.id == |rows| && |next| == |rows| + 1 && next[..|rows|] == rows
            && next[|rows|].kind == kind && next[|rows|].salt == salt && next[|rows|].status == cat.initial
            && next[|rows|].group == if kind !in cat.withoutGroup && g.Group? then Some(g.id) else None)
  {
    var found := FirstDigest(rows, Digest(cat, crypto, kind, p), 0);
    assert found.Some? <==> DigestTaken(cat, crypto, rows, kind, p);
  }

  /** The update's clause in the table's terms. */
  predicate ForUpdate(cat: Catalogue, row: Row, g: GroupArg, kind: string) {
    row.kind == kind && if kind in cat.withoutGroup then row.group == None else row.group.Some? && g == Group(row.group.value)
  }

  /** Every key that the row now has is whitelisted, or a primitive that stays as it is. */
  ghost predicate MayChange(cat: Catalogue, crypto: Crypto, row: Row, p: Params) {
    row.status == Active ==>
      row.kind in cat.whitelist
      && forall k :: k in ReadBack(crypto, row) && k !in cat.whitelist[row.kind] ==>
           exists text :: ReadBack(crypto, row)[k] == Primitive(text) && k in p && p[k] == Primitive(text)
  }

  lemma WhitelistedMeaning(existing: Params, p: Params, allowed: seq<string>)
    ensures Whitelisted(existing, p, allowed) <==>
      forall k :: k in existing && k !in allowed ==> exists text :: existing[k] == Primitive(text) && k in p && p[k] == Primitive(text)
  {
    if Whitelisted(existing, p, allowed) {
      forall k | k in existing && k !in allowed ensures exists text :: existing[k] == Primitive(text) && k in p && p[k] == Primitive(text) {
        assert existing[k] == Primitive(existing[k].text);
      }
    }
  }

  /** An update is accepted exactly when one row alone is meant, its whitelist allows the change, the parameters have the right shape
      and every listed key, and no other row has their digest. */
  lemma UpdateAcceptedIff(cat: Catalogue, crypto: Crypto, rows: seq<Row>, g: GroupArg, kind: string, p: Params, shapeOk: bool)
    ensures var (next, outcome) := After(cat, crypto, rows, UpdateForKind(g, kind, p, shapeOk));
      && (outcome.Done? <==>
            && kind in cat.kinds && shapeOk && (if kind in cat.withoutGroup then GroupOmitted(g) else g != Undefined)
            && HasAll(p, Listed(cat, kind))
            && exists i :: 0 <= i < |rows| && ForUpdate(cat, rows[i], g, kind) && MayChange(cat, crypto, rows[i], p)
                 && DigestFree(cat, crypto, rows, kind, p, i)
                 && forall j :: 0 <= j < |rows| && ForUpdate(cat, rows[j], g, kind) ==> j == i)
      && (outcome.Rejected? <==> !outcome.Done?) && (outcome.Rejected? ==> next == rows)
  {
    var i := FirstSelected(cat, rows, g, kind, 0);
    assert forall j :: 0 <= j < |rows| ==> (ForUpdate(cat, rows[j], g, kind) <==> Selected(cat, rows[j], g, kind));
    if i.Some? && OnlySelected(cat, rows, g, kind, i.value) {
      UpdateRowAcceptedIff(cat, crypto, rows, i.value, p, shapeOk);
    }
  }

  lemma FirstDigestIsFree(cat: Catalogue, crypto: Crypto, rows: seq<Row>, kind: string, p: Params, i: nat)
    requires i < |rows|
    ensures var found := FirstDigest(rows, Digest(cat, crypto, kind, p), 0);
      DigestFree(cat, crypto, rows, kind, p, i) <==> found.None? || found.value == i
  {
    var d := Digest(cat, crypto, kind, p);
    FirstDigestIsFirst(rows, d, 0);
  }

  lemma {:induction false} FirstDigestIsFirst(rows: seq<Row>, d: string, k: nat)
    requires k <= |rows|
    ensures FirstDigest(rows, d, k).Some? ==> forall j :: k <= j < FirstDigest(rows, d, k).value ==> rows[j].digest != d
    decreases |rows| - k
  {
    if k < |rows| {
      FirstDigestIsFirst(rows, d, k + 1);
    }
  }

  lemma UpdateRowAcceptedIff(cat: Catalogue, crypto: Crypto, rows: seq<Row>, i: nat, p: Params, shapeOk: bool)
    requires i < |rows|
    ensures var (next, outcome) := UpdateRow(cat, crypto, rows, i, p, shapeOk);
      && (outcome.Done? <==> shapeOk && HasAll(p, Listed(cat, rows[i].kind)) && MayChange(cat, crypto, rows[i], p)
                             && DigestFree(cat, crypto, rows, rows[i].kind, p, i))
      && (outcome.Rejected? <==> !outcome.Done?) && (outcome.Rejected? ==> next == rows)
  {
    if rows[i].kind in cat.whitelist {
      WhitelistedMeaning(ReadBack(crypto, rows[i]), p, cat.whitelist[rows[i].kind]);
    }
    FirstDigestIsFree(cat, crypto, rows, rows[i].kind, p, i);
  }

  /** The selected rows among the first n, in order. */
  ghost function SelectedIds(cat: Catalogue, rows: seq<Row>, g: GroupArg, kind: string, n: nat): (ids: seq<nat>)
    requires n <= |rows|
  {
    if n == 0 then []
    else SelectedIds(cat, rows, g, kind, n - 1) + if Selected(cat, rows[n - 1], g, kind) then [n - 1] else []
  }

  lemma {:induction false} SelectedIdsMeaning(cat: Catalogue, rows: seq<Row>, g: GroupArg, kind: string, n: nat)
    requires n <= |rows|
    ensures forall k: nat :: k in SelectedIds(cat, rows, g, kind, n) <==> k < n && Selected(cat, rows[k], g, kind)
  {
    if n > 0 {
      SelectedIdsMeaning(cat, rows, g, kind, n - 1);
    }
  }

  ghost predicate FirstIsLeast(ids: seq<nat>) {
    forall j :: 0 < j < |ids| ==> ids[0] < ids[j]
  }

  lemma {:induction false} SelectedIdsAscend(cat: Catalogue, rows: seq<Row>, g: GroupArg, kind: string, n: nat)
    requires n <= |rows|
    ensures FirstIsLeast(SelectedIds(cat, rows, g, kind, n))
  {
    if n > 0 {
      SelectedIdsAscend(cat, rows, g, kind, n - 1);
      SelectedIdsMeaning(cat, rows, g, kind, n - 1);
      var before, ids := SelectedIds(cat, rows, g, kind, n - 1), SelectedIds(cat, rows, g, kind, n);
      assert before != [] ==> before[0] in before;
      assert ids == before || ids == before + [n - 1];
    }
  }

  lemma SelectedFirst(cat: Catalogue, rows: seq<Row>, g: GroupArg, kind: string)
    ensures var ids := SelectedIds(cat, rows, g, kind, |rows|);
      && FirstSelected(cat, rows, g, kind, 0) == (if ids == [] then None else Some(ids[0]))
      && (|ids| == 1 <==> |ids| > 0 && OnlySelected(cat, rows, g, kind, ids[0]))
  {
    var ids := SelectedIds(cat, rows, g, kind, |rows|);
    SelectedIdsMeaning(cat, rows, g, kind, |rows|);
    SelectedIdsAscend(cat, rows, g, kind, |rows|);
    FirstSelectedIsFirst(cat, rows, g, kind, 0);
    if |ids| > 0 {
      assert ids[0] in ids;
      forall k: nat | k in ids ensures ids[0] <= k {
        var j :| 0 <= j < |ids| && ids[j] == k;
      }
      assert forall k :: 0 <= k < |rows| && Selected(cat, rows[k], g, kind) ==> k in ids;
    }
    if |ids| > 1 {
      assert ids[1] in ids && ids[0] < ids[1];
    }
  }

  lemma {:induction false} FirstSelectedIsFirst(cat: Catalogue, rows: seq<Row>, g: GroupArg, kind: string, k: nat)
    requires k <= |rows|
    ensures var i := FirstSelected(cat, rows, g, kind, k); i.Some? ==> forall j :: k <= j < i.value ==> !Selected(cat, rows[j], g, kind)
    decreases |rows| - k
  {
    if k < |rows| {
      FirstSelectedIsFirst(cat, rows, g, kind, k + 1);
    }
  }

  // ------------------------------------------------------------------ the table and its helpers

  class ConfigStrategies {
    const cat: Catalogue
    const crypto: Crypto
    var rows: seq<Row>

    constructor (cat: Catalogue, crypto: Crypto)
      ensures rows == [] && this.cat == cat && this.crypto == crypto
    {
      this.cat, this.crypto, rows := cat, crypto, [];
    }

    method GetByParams(digest: string) returns (id: Option<nat>)
      ensures id == FirstDigest(rows, digest, 0)
    {
      var i := 0;
      while i < |rows|
        invariant 0 <= i <= |rows| && FirstDigest(rows, digest, 0) == FirstDigest(rows, digest, i)
      {
        if rows[i].digest == digest {
          return Some(i);
        }
        i := i + 1;
      }
      return None;
    }

    /** The first n listed keys picked out of the parameters, or nothing if one is missing. */
    method Pick(keys: seq<string>, p: Params) returns (r: Option<Params>)
      ensures r == if HasAll(p, keys) then Some(Restrict(p, keys)) else None
    {
      var picked: Params := map[];
      for i := 0 to |keys|
        invariant HasAll(p, keys[..i])
        invariant picked == Restrict(p, keys[..i])
      {
        assert keys[..i + 1] == keys[..i] + [keys[i]];
        if keys[i] !in p {
          return None;
        }
        picked := picked[keys[i] := p[keys[i]]];
      }
      assert keys[..|keys|] == keys;
      return Some(picked);
    }

    method GetSeparateHashes(kind: string, p: Params) returns (r: Option<(Params, Params)>)
      ensures r.Some? <==> HasAll(p, Listed(cat, kind))
      ensures r.Some? ==> r.value == (Restrict(p, Keys(cat.encrypted, kind)), Restrict(p, Keys(cat.plain, kind)))
    {
      var (plain, secret) := (Keys(cat.plain, kind), Keys(cat.encrypted, kind));
      assert HasAll(p, Listed(cat, kind)) <==> HasAll(p, plain) && HasAll(p, secret) by {
        assert forall i :: 0 <= i < |plain| ==> Listed(cat, kind)[i] == plain[i];
        assert forall i :: 0 <= i < |secret| ==> Listed(cat, kind)[|plain| + i] == secret[i];
      }
      var hashNotToEncrypt := Pick(plain, p);
      if hashNotToEncrypt.None? {
        return None;
      }
      var hashToEncrypt := Pick(secret, p);
      if hashToEncrypt.None? {
        return None;
      }
      return Some((hashToEncrypt.value, hashNotToEncrypt.value));
    }

    method Create(kind: string, salt: nat, p: Params, group: Option<nat>, shapeOk: bool) returns (outcome: Outcome)
      modifies this
      ensures (rows, outcome) == Creation(cat, crypto, old(rows), kind, salt, p, group, shapeOk)
    {
      if kind !in cat.kinds || !shapeOk {
        return Rejected;
      }
      var digest := Digest(cat, crypto, kind, p);
      var strategyIdPresentInDB := GetByParams(digest);
      if strategyIdPresentInDB.Some? {
        return Stored(strategyIdPresentInDB.value);
      }
      var hashes := GetSeparateHashes(kind, p);
      if hashes.None? {
        return Rejected;
      }
      var (hashToEncrypt, hashNotToEncrypt) := hashes.value;
      outcome := Stored(|rows|);
      rows := rows + [Row(kind, group, salt, crypto.encrypt(salt, hashToEncrypt), hashNotToEncrypt, digest, cat.initial)];
    }

    method AddForKind(g: GroupArg, kind: string, p: Params, salt: nat, shapeOk: bool) returns (outcome: Outcome)
      modifies this
      ensures (rows, outcome) == After(cat, crypto, old(rows), Event.AddForKind(g, kind, p, salt, shapeOk))
    {
      if kind !in cat.kinds {
        return Rejected;
      }
      if kind in cat.withoutGroup {
        if Truthy(g) || exists i :: 0 <= i < |rows| && rows[i].kind == kind {
          return Rejected;
        }
        outcome := Create(kind, salt, p, None, shapeOk);
      } else {
        if g.Undefined? || (exists i :: 0 <= i < |rows| && rows[i].kind == kind && InGroup(rows[i], g)) || !shapeOk {
          return Rejected;
        }
        outcome := Create(kind, salt, p, if g.Group? then Some(g.id) else None, shapeOk);
      }
    }

    method CheckForWhiteListing(existing: Params, p: Params, kind: string) returns (ok: bool)
      ensures ok <==> kind in cat.whitelist && Whitelisted(existing, p, cat.whitelist[kind])
    {
      if kind !in cat.whitelist {
        return false;
      }
      var keys := existing.Keys;
      while keys != {}
        invariant keys <= existing.Keys
        invariant forall k :: k in existing.Keys - keys && k !in cat.whitelist[kind] ==>
          k in p && existing[k].Primitive? && existing[k] == p[k]
        decreases |keys|
      {
        var key :| key in keys;
        if key !in cat.whitelist[kind] && !(key in p && existing[key].Primitive? && existing[key] == p[key]) {
          return false;
        }
        keys := keys - {key};
      }
      return true;
    }

    /** The rows that an update's clause selects. */
    method SelectExisting(g: GroupArg, kind: string) returns (ids: seq<nat>)
      ensures |ids| == 0 <==> FirstSelected(cat, rows, g, kind, 0).None?
      ensures |ids| > 0 ==> FirstSelected(cat, rows, g, kind, 0) == Some(ids[0])
      ensures |ids| == 1 <==> |ids| > 0 && OnlySelected(cat, rows, g, kind, ids[0])
    {
      ids := [];
      for i := 0 to |rows|
        invariant ids == SelectedIds(cat, rows, g, kind, i)
      {
        if Selected(cat, rows[i], g, kind) {
          ids := ids + [i];
        }
      }
      SelectedFirst(cat, rows, g, kind);
    }

    method UpdateForKind(g: GroupArg, kind: string, p: Params, shapeOk: bool) returns (outcome: Outcome)
      modifies this
      ensures (rows, outcome) == After(cat, crypto, old(rows), Event.UpdateForKind(g, kind, p, shapeOk))
    {
      if kind !in cat.kinds || (if kind in cat.withoutGroup then Truthy(g) else g.Undefined?) {
        return Rejected;
      }
      var existing := SelectExisting(g, kind);
      if |existing| != 1 {
        return Rejected;
      }
      outcome := UpdateStrategyId(existing[0], p, shapeOk);
    }

    method UpdateStrategyId(i: nat, p: Params, shapeOk: bool) returns (outcome: Outcome)
      requires i < |rows|
      modifies this
      ensures (rows, outcome) == UpdateRow(cat, crypto, old(rows), i, p, shapeOk)
    {
      var row := rows[i];
      if row.status == Active {
        var ok := CheckForWhiteListing(ReadBack(crypto, row), p, row.kind);
        if !ok {
          return Rejected;
        }
      }
      if !shapeOk {
        return Rejected;
      }
      var digest := Digest(cat, crypto, row.kind, p);
      var present := GetByParams(digest);
      if present.Some? && present.value != i {
        return Rejected;
      }
      var hashes := GetSeparateHashes(row.kind, p);
      if hashes.None? {
        return Rejected;
      }
      var (hashToEncrypt, hashNotToEncrypt) := hashes.value;
      rows := rows[i := row.(encrypted := crypto.encrypt(row.salt, hashToEncrypt), plain := hashNotToEncrypt, digest := digest)];
      return Done;
    }

    method Activate(g: GroupArg) returns (outcome: Outcome)
      modifies this
      ensures (rows, outcome) == After(cat, crypto, old(rows), ActivateGroup(g))
    {
      if g.Undefined? {
        return Rejected;
      }
      var i := 0;
      while i < |rows|
        invariant 0 <= i <= |rows| == |old(rows)|
        invariant forall j :: 0 <= j < i ==> rows[j] == SetStatus(old(rows), row => InGroup(row, g) || row.group.None?, Active)[j]
        invariant forall j :: i <= j < |rows| ==> rows[j] == old(rows)[j]
      {
        if InGroup(rows[i], g) || rows[i].group.None? {
          rows := rows[i := rows[i].(status := Active)];
        }
        i := i + 1;
      }
      assert rows == SetStatus(old(rows), row => InGroup(row, g) || row.group.None?, Active);
      return Done;
    }

    method Deactivate(g: GroupArg, clientStrategyIds: set<nat>) returns (outcome: Outcome)
      modifies this
      ensures (rows, outcome) == After(cat, crypto, old(rows), DeactivateGroup(g, clientStrategyIds))
    {
      if g.Undefined? {
        return Rejected;
      }
      var found, referenced := false, false;
      for i := 0 to |rows|
        invariant found <==> exists j :: 0 <= j < i && InGroup(rows[j], g)
        invariant referenced <==> exists j :: 0 <= j < i && j in clientStrategyIds && InGroup(rows[j], g)
      {
        if InGroup(rows[i], g) {
          found := true;
          referenced := referenced || i in clientStrategyIds;
        }
      }
      if referenced || !found {
        return Rejected;
      }
      var i := 0;
      while i < |rows|
        invariant 0 <= i <= |rows| == |old(rows)|
        invariant forall j :: 0 <= j < i ==> rows[j] == SetStatus(old(rows), row => InGroup(row, g), Inactive)[j]
        invariant forall j :: i <= j < |rows| ==> rows[j] == old(rows)[j]
      {
        if InGroup(rows[i], g) {
          rows := rows[i := rows[i].(status := Inactive)];
        }
        i := i + 1;
      }
      assert rows == SetStatus(old(rows), row => InGroup(row, g), Inactive);
      return Done;
    }
  }
}
