/** The transaction log table: writing rows in batches, updating one item, reading items back. */
module TransactionLogModel {
  import opened Wrappers
  import opened Sequences
  import opened Decimals
  import opened TransactionLogCodec

  const FIELDS: seq<Field> := [
    TransactionHash, BlockNumber, TransactionType, ClientId, ClientTokenId, GasUsed, GasPrice, StatusField, CreatedAt, UpdatedAt,
    FromUuid, ToUuid, ActionId, CommissionAmountInWei, CommissionPercent, AmountInWei, AirdropAmountInWei, Amount, TokenSymbol,
    ToAddress, FromAddress, ErrorCode, PostReceiptProcessParams, TransferEvents, Nonce, TransactionExecutorUuid, RawTransaction]

  lemma EveryField(f: Field)
    ensures f in FIELDS
  {
    var i := match f
      case TransactionHash => 0 case BlockNumber => 1 case TransactionType => 2 case ClientId => 3 case ClientTokenId => 4
      case GasUsed => 5 case GasPrice => 6 case StatusField => 7 case CreatedAt => 8 case UpdatedAt => 9 case FromUuid => 10
      case ToUuid => 11 case ActionId => 12 case CommissionAmountInWei => 13 case CommissionPercent => 14 case AmountInWei => 15
      case AirdropAmountInWei => 16 case Amount => 17 case TokenSymbol => 18 case ToAddress => 19 case FromAddress => 20
      case ErrorCode => 21 case PostReceiptProcessParams => 22 case TransferEvents => 23 case Nonce => 24
      case TransactionExecutorUuid => 25 case RawTransaction => 26;
    assert FIELDS[i] == f;
  }

  // ------------------------------------------------------------------ one row

  function FieldAttr(row: TransactionRow, f: Field): (a: Option<Attr>)
  {
    if f in row.fields then EncodeValue(row.fields[f], KindOf(f)) else None
  }

  /** The item for a row: its key and the first n attributes it has. */
  function EncodeUpTo(row: TransactionRow, n: nat): (item: Item)
    requires n <= |FIELDS|
  {
    if n == 0 then map[KEY := S(Lower(row.uuid))]
    else
      var item, f := EncodeUpTo(row, n - 1), FIELDS[n - 1];
      match FieldAttr(row, f)
      case None => item
      case Some(a) => item[ShortName(f) := a]
  }

  function Encode(row: TransactionRow): (item: Item)
  {
    EncodeUpTo(row, |FIELDS|)
  }

  function ItemValue(item: Item, f: Field): (v: Option<Value>)
  {
    if ShortName(f) in item then DecodeAttr(item[ShortName(f)], KindOf(f)) else None
  }

  function DecodeUpTo(item: Item, n: nat): (fields: map<Field, Value>)
    requires n <= |FIELDS|
  {
    if n == 0 then map[]
    else
      var fields, f := DecodeUpTo(item, n - 1), FIELDS[n - 1];
      match ItemValue(item, f)
      case None => fields
      case Some(v) => fields[f := v]
  }

  function Decode(item: Item): (row: TransactionRow)
  {
    TransactionRow(if KEY in item && item[KEY].S? then item[KEY].text else "", DecodeUpTo(item, |FIELDS|))
  }

  /** What a row reads as once it has been stored. */
  ghost function Normal(row: TransactionRow): (r: TransactionRow)
  {
    TransactionRow(Lower(row.uuid),
      map f: Field | f in row.fields && NormalValue(row.fields[f], KindOf(f)).Some? :: NormalValue(row.fields[f], KindOf(f)).value)
  }

  ghost predicate Holds(item: Item, f: Field, a: Option<Attr>) {
    if a.Some? then ShortName(f) in item && item[ShortName(f)] == a.value else ShortName(f) !in item
  }

  lemma {:induction false} EncodeUpToAt(row: TransactionRow, n: nat, f: Field)
    requires n <= |FIELDS|
    ensures Holds(EncodeUpTo(row, n), f, if f in FIELDS[..n] then FieldAttr(row, f) else None)
  {
    ShortNamesInvert(f);
    if n > 0 {
      EncodeUpToAt(row, n - 1, f);
      ShortNamesDiffer(f, FIELDS[n - 1]);
      InPrefix(f, n);
    }
  }

  lemma {:induction false} EncodeUpToKey(row: TransactionRow, n: nat)
    requires n <= |FIELDS|
    ensures KEY in EncodeUpTo(row, n) && EncodeUpTo(row, n)[KEY] == S(Lower(row.uuid))
  {
    if n > 0 {
      EncodeUpToKey(row, n - 1);
      ShortNamesInvert(FIELDS[n - 1]);
    }
  }

  lemma EncodeAt(row: TransactionRow, f: Field)
    ensures Holds(Encode(row), f, FieldAttr(row, f))
    ensures KEY in Encode(row) && Encode(row)[KEY] == S(Lower(row.uuid))
  {
    EncodeUpToAt(row, |FIELDS|, f);
    EncodeUpToKey(row, |FIELDS|);
    EveryField(f);
    assert FIELDS[..|FIELDS|] == FIELDS;
  }

  lemma InPrefix(f: Field, n: nat)
    requires 0 < n <= |FIELDS|
    ensures f in FIELDS[..n] <==> f in FIELDS[..n - 1] || f == FIELDS[n - 1]
  {
    assert FIELDS[..n] == FIELDS[..n - 1] + [FIELDS[n - 1]];
  }

  ghost predicate Reads(fields: map<Field, Value>, f: Field, v: Option<Value>) {
    if v.Some? then f in fields && fields[f] == v.value else f !in fields
  }

  lemma {:induction false} DecodeUpToAt(item: Item, n: nat, f: Field)
    requires n <= |FIELDS|
    ensures Reads(DecodeUpTo(item, n), f, if f in FIELDS[..n] then ItemValue(item, f) else None)
  {
    if n > 0 {
      DecodeUpToAt(item, n - 1, f);
      InPrefix(f, n);
    }
  }

  lemma DecodeAt(item: Item, f: Field)
    ensures Reads(Decode(item).fields, f, ItemValue(item, f))
  {
    DecodeUpToAt(item, |FIELDS|, f);
    EveryField(f);
    assert FIELDS[..|FIELDS|] == FIELDS;
  }

  lemma SameFields(a: map<Field, Value>, b: map<Field, Value>)
    requires forall f: Field :: Reads(a, f, if f in b then Some(b[f]) else None)
    ensures a == b
  {
    forall f: Field
      ensures f in a <==> f in b
      ensures f in a ==> a[f] == b[f]
    {
      assert Reads(a, f, if f in b then Some(b[f]) else None);
    }
  }

  /** A row that is stored and read back is the row in its normal form. */
  lemma RoundTrip(row: TransactionRow)
    requires WellTyped(row)
    ensures Decode(Encode(row)) == Normal(row)
  {
    forall f: Field
      ensures Reads(Decode(Encode(row)).fields, f, if f in Normal(row).fields then Some(Normal(row).fields[f]) else None)
    {
      FieldRoundTrip(row, f);
    }
    SameFields(Decode(Encode(row)).fields, Normal(row).fields);
    EncodeAt(row, Nonce);
  }

  lemma FieldRoundTrip(row: TransactionRow, f: Field)
    requires WellTyped(row)
    ensures ItemValue(Encode(row), f) == (if f in row.fields then NormalValue(row.fields[f], KindOf(f)) else None)
    ensures Reads(Decode(Encode(row)).fields, f, ItemValue(Encode(row), f))
  {
    EncodeAt(row, f);
    DecodeAt(Encode(row), f);
    if f in row.fields {
      ValueRoundTrip(row.fields[f], KindOf(f));
    }
  }

  const TEXTS: set<Field> :=
    {TransactionHash, FromUuid, ToUuid, TokenSymbol, ToAddress, FromAddress, ErrorCode, TransactionExecutorUuid}
  const WHOLE_NUMBERS: set<Field> :=
    {BlockNumber, TransactionType, ClientId, ClientTokenId, StatusField, CreatedAt, UpdatedAt, ActionId, Nonce}
  const GAS: set<Field> := {GasUsed, GasPrice}
  const AMOUNTS: set<Field> := {CommissionAmountInWei, CommissionPercent, AmountInWei, AirdropAmountInWei, Amount}
  const DOCUMENTS: set<Field> := {PostReceiptProcessParams, RawTransaction}

  /** What of a property is read again: texts as they were, but for the case of a hash; amounts and percentages with their value,
      gas numbers digit by digit, the other numbers cut to whole ones; documents, an empty one for none; no other missing value. */
  ghost predicate Kept(f: Field, v: Value, r: Option<Value>) {
    match v
    case Text(t) => f in TEXTS && r == Some(Text(if f == TransactionHash then Lower(t) else t))
    case Number(n) =>
      f in WHOLE_NUMBERS + GAS + AMOUNTS && r.Some? && r.value.Number?
      && (IsNumeral(n) ==> IsNumeral(r.value.numeral) && NumberKept(f, n, r.value.numeral))
    case Document(_) => f in DOCUMENTS && r == Some(v)
    case Events(es) => f == TransferEvents && r.Some? && r.value.Events? && EventsKept(es, r.value.events)
    case Nothing => r == if f in DOCUMENTS then Some(Document(Doc("{}"))) else None
    case NotANumber => r == None
  }

  ghost predicate NumberKept(f: Field, n: Numeral, r: Numeral)
    requires IsNumeral(n) && IsNumeral(r)
  {
    if f in WHOLE_NUMBERS then Magnitude(r) == Magnitude(n).Floor as real && (r.negative ==> n.negative)
    else ValueOf(r) == ValueOf(n) && (f in GAS ==> r == n)
  }

  ghost predicate EventKept(e: TransferEvent, r: TransferEvent) {
    && r.fromUuid == e.fromUuid && r.toUuid == e.toUuid && r.from == e.from && r.to == e.to
    && (IsNumeral(e.amount) ==> IsNumeral(r.amount) && ValueOf(r.amount) == ValueOf(e.amount))
  }

  lemma NumberIsKept(f: Field, n: Numeral)
    requires IsNumeral(n) && Fits(KindOf(f), Number(n))
    ensures NormalValue(Number(n), KindOf(f)).Some? && NormalValue(Number(n), KindOf(f)).value.Number?
    ensures var r := NormalValue(Number(n), KindOf(f)).value.numeral; IsNumeral(r) && NumberKept(f, n, r)
  {
    KindsOfNumbers(f);
    if KindOf(f) == IntegerKind {
      IntegerPartTruncates(n);
    } else {
      CanonicalKeepsValue(n);
    }
  }

  lemma KindsOfNumbers(f: Field)
    ensures KindOf(f) == IntegerKind <==> f in WHOLE_NUMBERS
    ensures KindOf(f) == RawNumber <==> f in GAS
  {
    match f {
      case _ =>
    }
  }

  ghost predicate EventsKept(es: seq<TransferEvent>, rs: seq<TransferEvent>) {
    |rs| == |es| && forall i :: 0 <= i < |es| ==> EventKept(es[i], rs[i])
  }

  lemma EventsAreKept(es: seq<TransferEvent>)
    ensures EventsKept(es, NormalEvents(es))
  {
    forall i | 0 <= i < |es| ensures EventKept(es[i], NormalEvents(es)[i]) {
      if IsNumeral(es[i].amount) {
        CanonicalKeepsValue(es[i].amount);
      }
    }
  }

  lemma NormalIsKept(f: Field, v: Value)
    requires Fits(KindOf(f), v)
    ensures Kept(f, v, NormalValue(v, KindOf(f)))
  {
    WhatFits(f, v);
    match v {
      case Number(n) =>
        if IsNumeral(n) {
          NumberIsKept(f, n);
        }
      case Events(es) => EventsAreKept(es);
      case _ =>
    }
  }

  /** Every property of a row that is stored and read back is kept. */
  lemma AttributesAreKept(row: TransactionRow, f: Field)
    requires WellTyped(row) && f in row.fields
    ensures var read := Decode(Encode(row)).fields; Kept(f, row.fields[f], if f in read then Some(read[f]) else None)
  {
    FieldRoundTrip(row, f);
    NormalIsKept(f, row.fields[f]);
  }

  /** A row may have a text in every text property, a number in every numeric one, and so on; amounts of an airdrop, plain amounts,
      percentages and documents may be missing, and a percentage unreadable. */
  lemma WhatFits(f: Field, v: Value)
    ensures Fits(KindOf(f), v) <==>
      || (v.Text? && f in TEXTS) || (v.Number? && f in WHOLE_NUMBERS + GAS + AMOUNTS) || (v.Document? && f in DOCUMENTS)
      || (v.Events? && f == TransferEvents) || (v.NotANumber? && f == CommissionPercent)
      || (v.Nothing? && f in DOCUMENTS + {AirdropAmountInWei, Amount, CommissionPercent})
  {
    match f {
      case _ =>
    }
  }

  lemma NormalTwice(row: TransactionRow)
    requires WellTyped(row)
    ensures WellTyped(Normal(row)) && Normal(Normal(row)) == Normal(row)
  {
    LowerTwice(row.uuid);
    forall f: Field | f in Normal(row).fields
      ensures Fits(KindOf(f), Normal(row).fields[f]) && NormalValue(Normal(row).fields[f], KindOf(f)) == Some(Normal(row).fields[f])
    {
      NormalValueTwice(row.fields[f], KindOf(f));
    }
    SameFieldsAs(Normal(Normal(row)).fields, Normal(row).fields);
  }

  lemma SameFieldsAs(a: map<Field, Value>, b: map<Field, Value>)
    requires a.Keys == b.Keys && forall f: Field :: f in a ==> a[f] == b[f]
    ensures a == b
  {
  }

  // ------------------------------------------------------------------ updating an item

  /** The stored item after an update set every attribute of the new one but the key. */
  ghost function Updated(stored: Item, update: TransactionRow): (item: Item)
  {
    stored + (Encode(update) - {KEY})
  }

  /** Updating a stored row and reading it back is overriding the row read before with the normal form of the update. */
  lemma UpdateOverrides(stored: Item, update: TransactionRow)
    requires WellTyped(update) && KEY in stored && stored[KEY] == S(Lower(update.uuid))
    ensures Decode(Updated(stored, update)) == TransactionRow(Lower(update.uuid), Decode(stored).fields + Normal(update).fields)
  {
    var item := Updated(stored, update);
    var expected := Decode(stored).fields + Normal(update).fields;
    forall f: Field
      ensures Reads(Decode(item).fields, f, if f in expected then Some(expected[f]) else None)
    {
      UpdateField(stored, update, f);
    }
    SameFields(Decode(item).fields, expected);
  }

  lemma UpdateField(stored: Item, update: TransactionRow, f: Field)
    requires WellTyped(update) && KEY in stored
    ensures var expected := Decode(stored).fields + Normal(update).fields;
      Reads(Decode(Updated(stored, update)).fields, f, if f in expected then Some(expected[f]) else None)
  {
    ShortNamesInvert(f);
    FieldRoundTrip(update, f);
    EncodeAt(update, f);
    DecodeAt(stored, f);
    DecodeAt(Updated(stored, update), f);
    if f in update.fields {
      ValueRoundTrip(update.fields[f], KindOf(f));
    }
  }

  // ------------------------------------------------------------------ cutting into requests and waves

  const BATCH_PUT_LIMIT: nat := 25
  const PARALLEL_PROMISES: nat := 15

  /** The list cut into pieces of the given size; the last one may be shorter. */
  function Chunks<T>(s: seq<T>, size: nat): (r: seq<seq<T>>)
    requires size > 0
  {
    if s == [] then [] else if |s| <= size then [s] else [s[..size]] + Chunks(s[size..], size)
  }

  lemma {:induction false} ChunksComplete<T>(s: seq<T>, size: nat)
    requires size > 0
    ensures Concat(Chunks(s, size)) == s
  {
    if |s| > size {
      ChunksComplete(s[size..], size);
      ConcatCons(s[..size], Chunks(s[size..], size));
    } else if s != [] {
      assert [s] == [] + [s];
      ConcatSnoc([], s);
    }
  }

  lemma {:induction false} ChunksSized<T>(s: seq<T>, size: nat)
    requires size > 0
    ensures forall i :: 0 <= i < |Chunks(s, size)| ==> 1 <= |Chunks(s, size)[i]| <= size
    ensures forall i :: 0 <= i < |Chunks(s, size)| - 1 ==> |Chunks(s, size)[i]| == size
  {
    if |s| > size {
      ChunksSized(s[size..], size);
    }
  }

  /** Every row goes out exactly once and in order, in requests of 1 to 25 rows and waves of 1 to 15 requests, all full but the
      last ones. */
  lemma WavesCoverRows(rows: seq<TransactionRow>)
    ensures var requests := Chunks(rows, BATCH_PUT_LIMIT); var waves := Chunks(requests, PARALLEL_PROMISES);
      && Concat(Concat(waves)) == rows
      && (forall i :: 0 <= i < |requests| ==> 1 <= |requests[i]| <= 25 && (i < |requests| - 1 ==> |requests[i]| == 25))
      && (forall w :: 0 <= w < |waves| ==> 1 <= |waves[w]| <= 15 && (w < |waves| - 1 ==> |waves[w]| == 15))
  {
    ChunksComplete(rows, BATCH_PUT_LIMIT);
    ChunksComplete(Chunks(rows, BATCH_PUT_LIMIT), PARALLEL_PROMISES);
    ChunksSized(rows, BATCH_PUT_LIMIT);
    ChunksSized(Chunks(rows, BATCH_PUT_LIMIT), PARALLEL_PROMISES);
  }

  function Uuids(rows: seq<TransactionRow>): (us: seq<string>)
  {
    seq(|rows|, i requires 0 <= i < |rows| => rows[i].uuid)
  }

  // ------------------------------------------------------------------ what a batch leaves in the table

  type Items = map<string, Item>

  /** The table after putting the rows one after another. */
  function PutAll(table: Items, rows: seq<TransactionRow>): (r: Items)
  {
    if rows == [] then table
    else
      var n := |rows| - 1;
      PutAll(table, rows[..n])[Lower(rows[n].uuid) := Encode(rows[n])]
  }

  lemma {:induction false} PutAllAppend(table: Items, a: seq<TransactionRow>, b: seq<TransactionRow>)
    ensures PutAll(table, a + b) == PutAll(PutAll(table, a), b)
    decreases |b|
  {
    if b == [] {
      assert a + b == a;
    } else {
      var n := |b| - 1;
      assert (a + b)[..|a| + n] == a + b[..n];
      PutAllAppend(table, a, b[..n]);
    }
  }

  /** No row has this key. */
  predicate NoneAt(rows: seq<TransactionRow>, key: string) {
    forall i :: 0 <= i < |rows| ==> Lower(rows[i].uuid) != key
  }

  predicate SameAt(before: Items, after: Items, key: string) {
    (key in before <==> key in after) && (key in before ==> after[key] == before[key])
  }

  /** What is stored under other keys than those of the rows stays. */
  ghost predicate OnlyTouches(before: Items, after: Items, rows: seq<TransactionRow>) {
    forall key: string :: NoneAt(rows, key) ==> SameAt(before, after, key)
  }

  lemma {:induction false} PutAllTouches(table: Items, rows: seq<TransactionRow>, key: string)
    requires NoneAt(rows, key)
    ensures SameAt(table, PutAll(table, rows), key)
  {
    if rows != [] {
      PutAllTouches(table, rows[..|rows| - 1], key);
    }
  }

  lemma {:induction false} PutAllAt(table: Items, rows: seq<TransactionRow>, i: nat)
    requires i < |rows| && NoneAt(rows[i + 1..], Lower(rows[i].uuid))
    ensures Lower(rows[i].uuid) in PutAll(table, rows) && PutAll(table, rows)[Lower(rows[i].uuid)] == Encode(rows[i])
  {
    var n := |rows| - 1;
    if i < n {
      assert rows[i + 1..][n - i - 1] == rows[n];
      assert rows[..n][i + 1..] == rows[i + 1..][..n - i - 1];
      PutAllAt(table, rows[..n], i);
    }
  }

  /** After a batch was written, the last row given for a uuid, however its letters are written, reads as its normal form. */
  lemma WrittenIsRead(table: Items, rows: seq<TransactionRow>, i: nat)
    requires i < |rows| && WellTyped(rows[i]) && NoneAt(rows[i + 1..], Lower(rows[i].uuid))
    ensures Lower(rows[i].uuid) in PutAll(table, rows)
    ensures Decode(PutAll(table, rows)[Lower(rows[i].uuid)]) == Normal(rows[i])
  {
    PutAllAt(table, rows, i);
    RoundTrip(rows[i]);
  }

  function RowsOf(waves: seq<seq<seq<TransactionRow>>>): (rows: seq<TransactionRow>)
  {
    Concat(Concat(waves))
  }

  lemma {:induction false} ConcatAppend<T>(a: seq<seq<T>>, b: seq<seq<T>>)
    ensures Concat(a + b) == Concat(a) + Concat(b)
    decreases |b|
  {
    if b == [] {
      assert a + b == a;
    } else {
      var n := |b| - 1;
      assert a + b == (a + b[..n]) + [b[n]];
      ConcatSnoc(a + b[..n], b[n]);
      ConcatAppend(a, b[..n]);
    }
  }

  lemma RowsOfSnoc(waves: seq<seq<seq<TransactionRow>>>, wave: seq<seq<TransactionRow>>)
    ensures RowsOf(waves + [wave]) == RowsOf(waves) + Concat(wave)
  {
    ConcatSnoc(waves, wave);
    ConcatAppend(Concat(waves), wave);
  }

  lemma TouchesMore(a: Items, b: Items, c: Items, rows: seq<TransactionRow>, more: seq<TransactionRow>)
    requires OnlyTouches(a, b, rows) && OnlyTouches(b, c, more)
    ensures OnlyTouches(a, c, rows + more)
  {
    forall key: string | NoneAt(rows + more, key) ensures SameAt(a, c, key) {
      assert forall i :: 0 <= i < |rows| ==> (rows + more)[i] == rows[i];
      assert forall i :: 0 <= i < |more| ==> (rows + more)[|rows| + i] == more[i];
      assert NoneAt(rows, key) && NoneAt(more, key);
    }
  }

  // ------------------------------------------------------------------ the requests of a wave, in any order

  /** Each of the numbers below n once. */
  ghost predicate OnceEach(order: seq<nat>, n: nat) {
    |order| == n && (forall i :: 0 <= i < n ==> order[i] < n) && forall k: nat :: k < n ==> k in order
  }

  function InOrder(wave: seq<seq<TransactionRow>>, order: seq<nat>): (taken: seq<seq<TransactionRow>>)
    requires forall i :: 0 <= i < |order| ==> order[i] < |wave|
  {
    seq(|order|, i requires 0 <= i < |order| => wave[order[i]])
  }

  /** The item that the rows leave under a key. */
  function LastPut(rows: seq<TransactionRow>, key: string): (item: Option<Item>)
  {
    if rows == [] then None
    else
      var n := |rows| - 1;
      if Lower(rows[n].uuid) == key then Some(Encode(rows[n])) else LastPut(rows[..n], key)
  }

  function StoredAt(table: Items, key: string): (item: Option<Item>)
  {
    if key in table then Some(table[key]) else None
  }

  lemma {:induction false} PutAllStores(table: Items, rows: seq<TransactionRow>, key: string)
    ensures StoredAt(PutAll(table, rows), key) == if LastPut(rows, key).Some? then LastPut(rows, key) else StoredAt(table, key)
  {
    if rows != [] {
      PutAllStores(table, rows[..|rows| - 1], key);
    }
  }

  lemma {:induction false} LastPutIsSome(rows: seq<TransactionRow>, key: string)
    ensures LastPut(rows, key).None? <==> NoneAt(rows, key)
  {
    if rows != [] {
      var n := |rows| - 1;
      LastPutIsSome(rows[..n], key);
      assert NoneAt(rows, key) ==> NoneAt(rows[..n], key);
    }
  }

  lemma {:induction false} LastPutAppend(a: seq<TransactionRow>, b: seq<TransactionRow>, key: string)
    ensures LastPut(a + b, key) == if LastPut(b, key).Some? then LastPut(b, key) else LastPut(a, key)
    decreases |b|
  {
    if b == [] {
      assert a + b == a;
    } else {
      var n := |b| - 1;
      assert (a + b)[..|a| + n] == a + b[..n];
      LastPutAppend(a, b[..n], key);
    }
  }

  /** Two requests that have rows under one key leave the same item there. */
  ghost predicate Agree(wave: seq<seq<TransactionRow>>) {
    forall i, j, key: string :: 0 <= i < |wave| && 0 <= j < |wave| && LastPut(wave[i], key).Some? && LastPut(wave[j], key).Some? ==>
      LastPut(wave[i], key) == LastPut(wave[j], key)
  }

  /** No key is in two requests. */
  ghost predicate KeysApart(wave: seq<seq<TransactionRow>>) {
    forall i, j, key: string :: 0 <= i < |wave| && 0 <= j < |wave| && i != j ==> NoneAt(wave[i], key) || NoneAt(wave[j], key)
  }

  lemma ApartAgree(wave: seq<seq<TransactionRow>>)
    requires KeysApart(wave)
    ensures Agree(wave)
  {
    forall i, j, key: string
      | 0 <= i < |wave| && 0 <= j < |wave| && LastPut(wave[i], key).Some? && LastPut(wave[j], key).Some?
      ensures LastPut(wave[i], key) == LastPut(wave[j], key)
    {
      LastPutIsSome(wave[i], key);
      LastPutIsSome(wave[j], key);
    }
  }

  ghost predicate SomeHasIt(wave: seq<seq<TransactionRow>>, order: seq<nat>, key: string)
    requires forall i :: 0 <= i < |order| ==> order[i] < |wave|
  {
    exists i :: 0 <= i < |order| && LastPut(wave[order[i]], key).Some?
  }

  lemma TakenOneMore(wave: seq<seq<TransactionRow>>, order: seq<nat>, k: nat, key: string)
    requires k < |wave| && forall i :: 0 <= i < |order| ==> order[i] < |wave|
    ensures var before := LastPut(Concat(InOrder(wave, order)), key);
      LastPut(Concat(InOrder(wave, order + [k])), key) == if LastPut(wave[k], key).Some? then LastPut(wave[k], key) else before
  {
    assert InOrder(wave, order + [k]) == InOrder(wave, order) + [wave[k]];
    ConcatSnoc(InOrder(wave, order), wave[k]);
    LastPutAppend(Concat(InOrder(wave, order)), wave[k], key);
  }

  /** If the requests that have rows under a key leave this item there, it stays however they are taken. */
  lemma {:induction false} TakenLastPut(wave: seq<seq<TransactionRow>>, order: seq<nat>, key: string, item: Option<Item>)
    requires forall k :: 0 <= k < |wave| && LastPut(wave[k], key).Some? ==> LastPut(wave[k], key) == item
    requires forall i :: 0 <= i < |order| ==> order[i] < |wave|
    ensures LastPut(Concat(InOrder(wave, order)), key) == if SomeHasIt(wave, order, key) then item else None
  {
    if order != [] {
      var n := |order| - 1;
      var init := order[..n];
      TakenLastPut(wave, init, key, item);
      assert order == init + [order[n]];
      TakenOneMore(wave, init, order[n], key);
      assert SomeHasIt(wave, order, key) <==> SomeHasIt(wave, init, key) || LastPut(wave[order[n]], key).Some?;
    }
  }

  /** What every order of the wave's requests leaves in every table is what their own order leaves. */
  ghost predicate AnyOrder(wave: seq<seq<TransactionRow>>) {
    forall table: Items, order: seq<nat> :: OnceEach(order, |wave|) ==>
      PutAll(table, Concat(InOrder(wave, order))) == PutAll(table, Concat(wave))
  }

  lemma TakenAlike(wave: seq<seq<TransactionRow>>, a: seq<nat>, b: seq<nat>, key: string)
    requires Agree(wave) && OnceEach(a, |wave|) && OnceEach(b, |wave|)
    ensures LastPut(Concat(InOrder(wave, a)), key) == LastPut(Concat(InOrder(wave, b)), key)
  {
    if k: nat :| k < |wave| && LastPut(wave[k], key).Some? {
      TakenLastPut(wave, a, key, LastPut(wave[k], key));
      TakenLastPut(wave, b, key, LastPut(wave[k], key));
      assert k in a && k in b;
    } else {
      TakenLastPut(wave, a, key, None);
      TakenLastPut(wave, b, key, None);
    }
  }

  function OwnOrder(n: nat): (order: seq<nat>)
  {
    seq(n, i requires 0 <= i < n => i)
  }

  lemma OwnOrderIsOne(wave: seq<seq<TransactionRow>>)
    ensures OnceEach(OwnOrder(|wave|), |wave|) && InOrder(wave, OwnOrder(|wave|)) == wave
  {
    forall k: nat | k < |wave| ensures k in OwnOrder(|wave|) {
      assert OwnOrder(|wave|)[k] == k;
    }
  }

  lemma AgreeingOrder(wave: seq<seq<TransactionRow>>, table: Items, order: seq<nat>)
    requires Agree(wave) && OnceEach(order, |wave|)
    ensures PutAll(table, Concat(InOrder(wave, order))) == PutAll(table, Concat(wave))
  {
    var own := OwnOrder(|wave|);
    OwnOrderIsOne(wave);
    forall key: string ensures StoredAt(PutAll(table, Concat(InOrder(wave, order))), key) == StoredAt(PutAll(table, Concat(wave)), key) {
      PutAllStores(table, Concat(InOrder(wave, order)), key);
      PutAllStores(table, Concat(wave), key);
      TakenAlike(wave, own, order, key);
    }
    SameTable(PutAll(table, Concat(InOrder(wave, order))), PutAll(table, Concat(wave)));
  }

  lemma SameTable(a: Items, b: Items)
    requires forall key: string :: StoredAt(a, key) == StoredAt(b, key)
    ensures a == b
  {
    forall key: string
      ensures key in a <==> key in b
      ensures key in a ==> a[key] == b[key]
    {
      assert StoredAt(a, key) == StoredAt(b, key);
    }
  }

  /** An order with request i at the end. */
  function WithLast(n: nat, i: nat): (order: seq<nat>)
    requires i < n
  {
    seq(n, k requires 0 <= k < n => if k < i then k else if k < n - 1 then k + 1 else i)
  }

  lemma WithLastIsOrder(n: nat, i: nat)
    requires i < n
    ensures OnceEach(WithLast(n, i), n) && WithLast(n, i)[n - 1] == i
  {
    forall k: nat | k < n ensures k in WithLast(n, i) {
      assert WithLast(n, i)[if k < i then k else if k == i then n - 1 else k - 1] == k;
    }
  }

  lemma LastCounts(wave: seq<seq<TransactionRow>>, i: nat, key: string)
    requires i < |wave| && LastPut(wave[i], key).Some? && AnyOrder(wave)
    ensures StoredAt(PutAll(map[], Concat(wave)), key) == LastPut(wave[i], key)
  {
    var order := WithLast(|wave|, i);
    WithLastIsOrder(|wave|, i);
    var init := InOrder(wave, order)[..|wave| - 1];
    assert InOrder(wave, order) == init + [wave[i]];
    ConcatSnoc(init, wave[i]);
    LastPutAppend(Concat(init), wave[i], key);
    PutAllStores(map[], Concat(InOrder(wave, order)), key);
  }

  /** The requests of a wave can be taken in any order just if those with rows under one key leave the same item there. */
  lemma AnyOrderIff(wave: seq<seq<TransactionRow>>)
    ensures AnyOrder(wave) <==> Agree(wave)
    ensures KeysApart(wave) ==> AnyOrder(wave)
  {
    if AnyOrder(wave) {
      forall i, j, key: string
        | 0 <= i < |wave| && 0 <= j < |wave| && LastPut(wave[i], key).Some? && LastPut(wave[j], key).Some?
        ensures LastPut(wave[i], key) == LastPut(wave[j], key)
      {
        LastCounts(wave, i, key);
        LastCounts(wave, j, key);
      }
    }
    if KeysApart(wave) {
      ApartAgree(wave);
    }
    if Agree(wave) {
      forall table: Items, order: seq<nat> | OnceEach(order, |wave|)
        ensures PutAll(table, Concat(InOrder(wave, order))) == PutAll(table, Concat(wave))
      {
        AgreeingOrder(wave, table, order);
      }
    }
  }

  /** An order for every wave. */
  ghost predicate Orders(waves: seq<seq<seq<TransactionRow>>>, orders: seq<seq<nat>>) {
    |orders| == |waves| && forall w :: 0 <= w < |waves| ==> OnceEach(orders[w], |waves[w]|)
  }

  ghost predicate AllAgree(waves: seq<seq<seq<TransactionRow>>>) {
    forall w :: 0 <= w < |waves| ==> Agree(waves[w])
  }

  /** The table after putting the waves one after another, the requests of each in its order. */
  ghost function PutWaves(table: Items, waves: seq<seq<seq<TransactionRow>>>, orders: seq<seq<nat>>): (r: Items)
    requires Orders(waves, orders)
  {
    if waves == [] then table
    else
      var n := |waves| - 1;
      PutAll(PutWaves(table, waves[..n], orders[..n]), Concat(InOrder(waves[n], orders[n])))
  }

  lemma AgreeingButLast(waves: seq<seq<seq<TransactionRow>>>, orders: seq<seq<nat>>)
    requires Orders(waves, orders) && AllAgree(waves) && waves != []
    ensures var n := |waves| - 1;
      && Orders(waves[..n], orders[..n]) && AllAgree(waves[..n]) && OnceEach(orders[n], |waves[n]|) && Agree(waves[n])
      && waves == waves[..n] + [waves[n]]
  {
  }

  lemma {:induction false} PutWavesAnyOrder(table: Items, waves: seq<seq<seq<TransactionRow>>>, orders: seq<seq<nat>>)
    requires Orders(waves, orders) && AllAgree(waves)
    ensures PutWaves(table, waves, orders) == PutAll(table, RowsOf(waves))
  {
    if waves != [] {
      var n := |waves| - 1;
      AgreeingButLast(waves, orders);
      PutWavesAnyOrder(table, waves[..n], orders[..n]);
      WaveAnyOrder(table, waves[..n], waves[n], orders[n]);
    }
  }

  lemma WaveAnyOrder(table: Items, waves: seq<seq<seq<TransactionRow>>>, wave: seq<seq<TransactionRow>>, order: seq<nat>)
    requires OnceEach(order, |wave|) && Agree(wave)
    ensures PutAll(PutAll(table, RowsOf(waves)), Concat(InOrder(wave, order))) == PutAll(table, RowsOf(waves + [wave]))
  {
    AgreeingOrder(wave, PutAll(table, RowsOf(waves)), order);
    RowsOfSnoc(waves, wave);
    PutAllAppend(table, RowsOf(waves), Concat(wave));
  }

  lemma {:induction false} NoneAtAny(wave: seq<seq<TransactionRow>>, k: nat, key: string)
    requires k < |wave| && NoneAt(Concat(wave), key)
    ensures NoneAt(wave[k], key)
  {
    var n := |wave| - 1;
    assert wave == wave[..n] + [wave[n]];
    ConcatSnoc(wave[..n], wave[n]);
    LastPutAppend(Concat(wave[..n]), wave[n], key);
    LastPutIsSome(Concat(wave), key);
    LastPutIsSome(Concat(wave[..n]), key);
    LastPutIsSome(wave[n], key);
    if k < n {
      NoneAtAny(wave[..n], k, key);
    }
  }

  // ------------------------------------------------------------------ the table

  datatype Outcome = Written | Rejected

  class TransactionLogTable {
    const shardNamed: bool
    var table: Items
    /** History: the waves of requests sent, the order in which each one's requests were taken, and the uuids given to the cache
        to clear. */
    var waves: seq<seq<seq<TransactionRow>>>
    var orders: seq<seq<nat>>
    var cleared: seq<string>

    constructor (shardNamed: bool)
      ensures this.shardNamed == shardNamed && table == map[] && waves == [] && orders == [] && cleared == []
    {
      this.shardNamed := shardNamed;
      table, waves, orders, cleared := map[], [], [], [];
    }

    method FormatEvents(es: seq<TransferEvent>) returns (items: seq<Item>)
      ensures items == EncodeEvents(es)
    {
      items := [];
      for j := 0 to |es|
        invariant items == EncodeEvents(es)[..j]
      {
        var m: Item := map[];
        if es[j].fromUuid.Some? {
          m := m["fu" := S(es[j].fromUuid.value)];
        }
        if es[j].toUuid.Some? {
          m := m["tu" := S(es[j].toUuid.value)];
        }
        m := m["fa" := S(es[j].from)]["ta" := S(es[j].to)]["aiw" := N(es[j].amount)];
        assert m == EncodeEvent(es[j]);
        items := items + [m];
      }
    }

    method FormatDataForPutItem(row: TransactionRow) returns (item: Item)
      ensures item == Encode(row)
    {
      item := map[KEY := S(Lower(row.uuid))];
      for i := 0 to |FIELDS|
        invariant item == EncodeUpTo(row, i)
      {
        var f := FIELDS[i];
        if f in row.fields && row.fields[f].Events? {
          var items := FormatEvents(row.fields[f].events);
          item := item[ShortName(f) := L(items)];
        } else if f in row.fields && EncodeValue(row.fields[f], KindOf(f)).Some? {
          item := item[ShortName(f) := EncodeValue(row.fields[f], KindOf(f)).value];
        }
      }
    }

    method FormatDataForGetItem(item: Item) returns (row: TransactionRow)
      requires KEY in item && item[KEY].S?
      ensures row == Decode(item)
    {
      var fields: map<Field, Value> := map[];
      for i := 0 to |FIELDS|
        invariant fields == DecodeUpTo(item, i)
      {
        var f := FIELDS[i];
        if ShortName(f) in item && DecodeAttr(item[ShortName(f)], KindOf(f)).Some? {
          fields := fields[f := DecodeAttr(item[ShortName(f)], KindOf(f)).value];
        }
      }
      row := TransactionRow(item[KEY].text, fields);
    }

    /** Set every attribute of the update but the key.  An update without any is rejected. */
    method UpdateItem(update: TransactionRow, flushCache: bool) returns (outcome: Outcome)
      modifies this
      ensures outcome == if shardNamed && Encode(update).Keys != {KEY} then Written else Rejected
      ensures outcome.Rejected? ==> table == old(table) && cleared == old(cleared)
      ensures outcome.Written? ==>
        var key := Lower(update.uuid);
        && table == old(table)[key := Updated(if key in old(table) then old(table)[key] else map[KEY := S(key)], update)]
        && cleared == old(cleared) + if flushCache then [update.uuid] else []
    {
      var key := Lower(update.uuid);
      var updateData := FormatDataForPutItem(update);
      EncodeAt(update, Nonce);
      if updateData.Keys == {KEY} || !shardNamed {
        return Rejected;
      }
      var item := SetAttributes(if key in table then table[key] else map[KEY := S(key)], updateData);
      table := table[key := item];
      if flushCache {
        cleared := cleared + [update.uuid];
      }
      return Written;
    }

    /** The update expression: one assignment for every attribute but the key. */
    method SetAttributes(stored: Item, updateData: Item) returns (item: Item)
      ensures item == stored + (updateData - {KEY})
    {
      item := stored;
      var names := updateData.Keys;
      AllAttributesLeft(stored, updateData);
      while names != {}
        invariant names <= updateData.Keys
        invariant item == AssignedBut(stored, updateData, names)
        decreases |names|
      {
        var name :| name in names;
        AssignOne(stored, updateData, names, name);
        if name != KEY {
          item := item[name := updateData[name]];
        }
        names := names - {name};
      }
    }

    /** Send all rows, wave by wave; a request that fails (its answer is given by its number) ends it after its wave.  The
        requests of a wave are taken in any order. */
    method BatchPutItem(rows: seq<TransactionRow>, fails: nat -> bool) returns (outcome: Outcome)
      requires waves == [] && orders == []
      modifies this
      ensures outcome.Written? <==> shardNamed && !SomeFails(0, |Chunks(rows, BATCH_PUT_LIMIT)|, fails)
      ensures outcome.Written? ==> Delivered(rows, old(table), table, waves, orders) && cleared == old(cleared) + Uuids(rows)
      ensures outcome.Written? ==> OnlyTouches(old(table), table, rows)
      ensures outcome.Rejected? ==> cleared == old(cleared) && OnlyTouches(old(table), table, RowsOf(waves))
      ensures outcome.Rejected? ==> if shardNamed then Interrupted(rows, waves, fails) else waves == []
    {
      if !shardNamed {
        return Rejected;
      }
      var offset, sent: nat, transactionUuids := 0, 0, [];
      var allPromisesData: seq<seq<TransactionRow>> := [];
      NothingSent(rows, table, fails);
      while true
        invariant offset <= |rows| && |allPromisesData| < PARALLEL_PROMISES && cleared == old(cleared)
        invariant AllWritten(old(table), table, waves, orders, sent, fails)
        invariant Collecting(rows, waves, sent, allPromisesData, offset, transactionUuids)
        decreases |rows| - offset
      {
        var batch := NextBatch(rows, offset);
        if |batch| > 0 {
          RequestTaken(rows, waves, sent, allPromisesData, offset, transactionUuids);
          transactionUuids := transactionUuids + Uuids(batch);
          allPromisesData := allPromisesData + [batch];
          offset := offset + |batch|;
        }
        if |allPromisesData| == PARALLEL_PROMISES || (|batch| == 0 && |allPromisesData| > 0) {
          var failed := SendWave(rows, old(table), offset, transactionUuids, sent, allPromisesData, fails);
          if failed {
            return Rejected;
          }
          sent := sent + |allPromisesData|;
          allPromisesData := [];
        }
        if |batch| == 0 {
          break;
        }
      }
      AllSent(rows, old(table), table, waves, orders, sent, transactionUuids, fails);
      cleared := cleared + transactionUuids;
      return Written;
    }

    /** Send the requests collected and look at the answers. */
    method SendWave(ghost rows: seq<TransactionRow>, ghost start: Items, ghost offset: nat, ghost uuids: seq<string>, sent: nat,
                    wave: seq<seq<TransactionRow>>, fails: nat -> bool) returns (failed: bool)
      requires offset <= |rows| && Collecting(rows, waves, sent, wave, offset, uuids)
      requires |wave| == PARALLEL_PROMISES || (0 < |wave| < PARALLEL_PROMISES && offset == |rows|)
      requires AllWritten(start, table, waves, orders, sent, fails)
      modifies this`table, this`waves, this`orders
      ensures waves == old(waves) + [wave]
      ensures failed ==> OnlyTouches(start, table, RowsOf(waves)) && Interrupted(rows, waves, fails)
      ensures failed ==> SomeFails(0, |Chunks(rows, BATCH_PUT_LIMIT)|, fails)
      ensures !failed ==> Collecting(rows, waves, sent + |wave|, [], offset, uuids)
      ensures !failed ==> AllWritten(start, table, waves, orders, sent + |wave|, fails)
    {
      WaveTaken(rows, waves, sent, wave, offset);
      var order;
      failed, order := PutRequests(wave, sent, fails);
      waves, orders := waves + [wave], orders + [order];
      if failed {
        WaveFailed(rows, start, old(table), table, old(waves), old(orders), sent, wave, offset, fails);
      } else {
        WaveWritten(start, old(table), table, old(waves), old(orders), sent, wave, order, fails);
      }
    }

    /** All requests of a wave are sent before any answer is looked at, and take effect in any order.  A request that fails may
        have put any of its rows; the table then has those of the others. */
    method PutRequests(wave: seq<seq<TransactionRow>>, first: nat, fails: nat -> bool) returns (failed: bool, order: seq<nat>)
      modifies this`table
      ensures OnceEach(order, |wave|) && (failed <==> SomeFails(first, |wave|, fails))
      ensures !failed ==> table == PutAll(old(table), Concat(InOrder(wave, order)))
      ensures OnlyTouches(old(table), table, Concat(wave))
    {
      failed, order := false, [];
      var todo := Below(|wave|);
      while todo != {}
        invariant Taking(order, todo, |wave|) && failed == TakenFails(first, order, fails)
        invariant Halfway(old(table), table, wave, order, failed)
        decreases |todo|
      {
        var k :| k in todo;
        ghost var before, failedBefore := table, failed;
        if fails(first + k) {
          failed := true;
        } else {
          PutRequest(wave[k]);
        }
        TakenNext(old(table), before, table, wave, order, k, failedBefore, failed);
        FailsNext(first, order, k, fails);
        order, todo := order + [k], todo - {k};
      }
      AllTaken(first, order, |wave|, fails);
    }

    method PutRequest(rows: seq<TransactionRow>)
      modifies this`table
      ensures table == PutAll(old(table), rows) && OnlyTouches(old(table), table, rows)
    {
      for i := 0 to |rows|
        invariant table == PutAll(old(table), rows[..i])
      {
        assert rows[..i + 1][..i] == rows[..i];
        var item := FormatDataForPutItem(rows[i]);
        table := table[Lower(rows[i].uuid) := item];
      }
      assert rows[..|rows|] == rows;
      forall key: string | NoneAt(rows, key) ensures SameAt(old(table), table, key) {
        PutAllTouches(old(table), rows, key);
      }
    }
  }

  /** The numbers below n that are not to do any more, each once, in the order taken. */
  ghost predicate Taking(order: seq<nat>, todo: set<nat>, n: nat) {
    && |order| + |todo| == n && (forall i :: 0 <= i < |order| ==> order[i] < n) && (forall k :: k in todo ==> k < n)
    && forall k: nat :: k < n ==> k in todo || k in order
  }

  function Below(n: nat): (numbers: set<nat>)
    ensures |numbers| == n && forall k: nat :: k in numbers <==> k < n
  {
    if n == 0 then {} else Below(n - 1) + {n - 1}
  }

  /** Some requests of a wave taken; unless one of them failed, all their rows are in the table. */
  ghost predicate Halfway(start: Items, table: Items, wave: seq<seq<TransactionRow>>, order: seq<nat>, failed: bool) {
    && (forall i :: 0 <= i < |order| ==> order[i] < |wave|) && OnlyTouches(start, table, Concat(wave))
    && (!failed ==> table == PutAll(start, Concat(InOrder(wave, order))))
  }

  lemma TakenNext(start: Items, before: Items, after: Items, wave: seq<seq<TransactionRow>>, order: seq<nat>, k: nat,
                  failedBefore: bool, failed: bool)
    requires Halfway(start, before, wave, order, failedBefore) && k < |wave| && (failedBefore ==> failed)
    requires (after == before && failed) || (after == PutAll(before, wave[k]) && OnlyTouches(before, after, wave[k]))
    ensures Halfway(start, after, wave, order + [k], failed)
  {
    TouchesOf(start, before, after, wave, k);
    assert InOrder(wave, order + [k]) == InOrder(wave, order) + [wave[k]];
    ConcatSnoc(InOrder(wave, order), wave[k]);
    PutAllAppend(start, Concat(InOrder(wave, order)), wave[k]);
  }

  predicate TakenFails(first: nat, order: seq<nat>, fails: nat -> bool) {
    exists i :: 0 <= i < |order| && fails(first + order[i])
  }

  lemma FailsNext(first: nat, order: seq<nat>, k: nat, fails: nat -> bool)
    ensures TakenFails(first, order + [k], fails) <==> fails(first + k) || TakenFails(first, order, fails)
  {
    assert (order + [k])[|order|] == k;
    assert forall i :: 0 <= i < |order| ==> (order + [k])[i] == order[i];
  }

  lemma AllTaken(first: nat, order: seq<nat>, n: nat, fails: nat -> bool)
    requires Taking(order, {}, n)
    ensures OnceEach(order, n) && (TakenFails(first, order, fails) <==> SomeFails(first, n, fails))
  {
    if SomeFails(first, n, fails) {
      var j :| first <= j < first + n && fails(j);
      assert j - first in order;
    }
  }

  lemma TouchesOf(a: Items, b: Items, c: Items, wave: seq<seq<TransactionRow>>, k: nat)
    requires k < |wave| && OnlyTouches(a, b, Concat(wave)) && (c == b || OnlyTouches(b, c, wave[k]))
    ensures OnlyTouches(a, c, Concat(wave))
  {
    forall key: string | NoneAt(Concat(wave), key) ensures SameAt(a, c, key) {
      NoneAtAny(wave, k, key);
    }
  }

  /** All waves have been sent and their rows put, the requests of each wave in some order; the table has all rows put one after
      another if no wave has two requests that disagree. */
  ghost predicate Delivered(rows: seq<TransactionRow>, start: Items, table: Items, waves: seq<seq<seq<TransactionRow>>>,
                            orders: seq<seq<nat>>) {
    && waves == Chunks(Chunks(rows, BATCH_PUT_LIMIT), PARALLEL_PROMISES) && Orders(waves, orders)
    && table == PutWaves(start, waves, orders) && (AllAgree(waves) ==> table == PutAll(start, rows))
  }

  /** Every request sent has been answered well, and its rows are in the table. */
  ghost predicate AllWritten(start: Items, table: Items, waves: seq<seq<seq<TransactionRow>>>, orders: seq<seq<nat>>, sent: nat,
                             fails: nat -> bool) {
    && Orders(waves, orders) && table == PutWaves(start, waves, orders) && OnlyTouches(start, table, RowsOf(waves))
    && forall i :: 0 <= i < sent ==> !fails(i)
  }

  predicate SomeFails(first: nat, n: nat, fails: nat -> bool) {
    exists i :: first <= i < first + n && fails(i)
  }

  lemma WaveWritten(start: Items, before: Items, after: Items, waves: seq<seq<seq<TransactionRow>>>, orders: seq<seq<nat>>, sent: nat,
                    wave: seq<seq<TransactionRow>>, order: seq<nat>, fails: nat -> bool)
    requires AllWritten(start, before, waves, orders, sent, fails) && OnceEach(order, |wave|)
    requires after == PutAll(before, Concat(InOrder(wave, order))) && OnlyTouches(before, after, Concat(wave))
    requires !SomeFails(sent, |wave|, fails)
    ensures AllWritten(start, after, waves + [wave], orders + [order], sent + |wave|, fails)
  {
    RowsOfSnoc(waves, wave);
    TouchesMore(start, before, after, RowsOf(waves), Concat(wave));
    assert (waves + [wave])[..|waves|] == waves && (orders + [order])[..|waves|] == orders;
  }

  lemma WaveFailed(rows: seq<TransactionRow>, start: Items, before: Items, after: Items, waves: seq<seq<seq<TransactionRow>>>,
                   orders: seq<seq<nat>>, sent: nat, wave: seq<seq<TransactionRow>>, offset: nat, fails: nat -> bool)
    requires offset <= |rows| && InProgress(rows, waves, sent, wave, offset) && |wave| <= PARALLEL_PROMISES
    requires AllWritten(start, before, waves, orders, sent, fails) && sent == PARALLEL_PROMISES * |waves|
    requires OnlyTouches(before, after, Concat(wave)) && SomeFails(sent, |wave|, fails)
    requires waves + [wave] <= Chunks(Chunks(rows, BATCH_PUT_LIMIT), PARALLEL_PROMISES)
    ensures OnlyTouches(start, after, RowsOf(waves + [wave]))
    ensures Interrupted(rows, waves + [wave], fails) && SomeFails(0, |Chunks(rows, BATCH_PUT_LIMIT)|, fails)
  {
    var i :| sent <= i < sent + |wave| && fails(i);
    RowsOfSnoc(waves, wave);
    TouchesMore(start, before, after, RowsOf(waves), Concat(wave));
  }

  /** The stored item with every attribute of the update assigned but the key and those in names. */
  ghost function AssignedBut(stored: Item, updateData: Item, names: set<string>): (item: Item)
  {
    stored + (updateData - ({KEY} + names))
  }

  lemma AllAttributesLeft(stored: Item, updateData: Item)
    ensures AssignedBut(stored, updateData, updateData.Keys) == stored
    ensures AssignedBut(stored, updateData, {}) == stored + (updateData - {KEY})
  {
    assert {KEY} + {} == {KEY};
  }

  /** One assignment more. */
  lemma AssignOne(stored: Item, updateData: Item, names: set<string>, name: string)
    requires name in names && name in updateData
    ensures var item := AssignedBut(stored, updateData, names);
      AssignedBut(stored, updateData, names - {name}) == if name == KEY then item else item[name := updateData[name]]
  {
    var item, next := AssignedBut(stored, updateData, names), AssignedBut(stored, updateData, names - {name});
    var expected := if name == KEY then item else item[name := updateData[name]];
    assert next.Keys == expected.Keys;
    assert forall k: string :: k in next ==> next[k] == expected[k];
  }

  /** The waves sent are the first ones; a request of the last of them failed, and none of an earlier one. */
  ghost predicate Interrupted(rows: seq<TransactionRow>, waves: seq<seq<seq<TransactionRow>>>, fails: nat -> bool) {
    var requests := Chunks(rows, BATCH_PUT_LIMIT);
    && waves <= Chunks(requests, PARALLEL_PROMISES) && waves != []
    && (forall i :: 0 <= i < PARALLEL_PROMISES * (|waves| - 1) ==> !fails(i))
    && exists i: nat :: PARALLEL_PROMISES * (|waves| - 1) <= i < |requests| && i < PARALLEL_PROMISES * |waves| && fails(i)
  }

  /** The waves sent, the requests collected and the rows not yet looked at make up the whole, in order. */
  ghost predicate InProgress(rows: seq<TransactionRow>, waves: seq<seq<seq<TransactionRow>>>, sent: nat,
                             pending: seq<seq<TransactionRow>>, offset: nat)
    requires offset <= |rows|
  {
    var rest := Chunks(rows[offset..], BATCH_PUT_LIMIT);
    && Chunks(Chunks(rows, BATCH_PUT_LIMIT), PARALLEL_PROMISES) == waves + Chunks(pending + rest, PARALLEL_PROMISES)
    && |Chunks(rows, BATCH_PUT_LIMIT)| == sent + |pending| + |rest|
  }

  /** The uuids of the rows looked at are noted.  Before the last wave all waves are full. */
  ghost predicate Collecting(rows: seq<TransactionRow>, waves: seq<seq<seq<TransactionRow>>>, sent: nat,
                             pending: seq<seq<TransactionRow>>, offset: nat, uuids: seq<string>)
    requires offset <= |rows|
  {
    && InProgress(rows, waves, sent, pending, offset) && uuids == Uuids(rows[..offset])
    && (sent == PARALLEL_PROMISES * |waves| || (offset == |rows| && pending == []))
  }

  lemma NothingSent(rows: seq<TransactionRow>, table: Items, fails: nat -> bool)
    ensures Collecting(rows, [], 0, [], 0, []) && AllWritten(table, table, [], [], 0, fails)
  {
    assert rows[0..] == rows;
    assert [] + Chunks(rows, BATCH_PUT_LIMIT) == Chunks(rows, BATCH_PUT_LIMIT);
  }

  lemma AllSent(rows: seq<TransactionRow>, start: Items, table: Items, waves: seq<seq<seq<TransactionRow>>>, orders: seq<seq<nat>>,
                sent: nat, uuids: seq<string>, fails: nat -> bool)
    requires Collecting(rows, waves, sent, [], |rows|, uuids) && AllWritten(start, table, waves, orders, sent, fails)
    ensures OnlyTouches(start, table, rows)
    ensures Delivered(rows, start, table, waves, orders) && !SomeFails(0, |Chunks(rows, BATCH_PUT_LIMIT)|, fails)
    ensures uuids == Uuids(rows)
  {
    WavesCoverRows(rows);
    assert waves == Chunks(Chunks(rows, BATCH_PUT_LIMIT), PARALLEL_PROMISES);
    assert rows[..|rows|] == rows;
    if AllAgree(waves) {
      PutWavesAnyOrder(start, waves, orders);
    }
  }

  /** The next request's rows. */
  function NextBatch(rows: seq<TransactionRow>, offset: nat): (batch: seq<TransactionRow>)
    requires offset <= |rows|
    ensures |batch| <= |rows| - offset && (batch == [] <==> offset == |rows|)
  {
    rows[offset..if offset + BATCH_PUT_LIMIT < |rows| then offset + BATCH_PUT_LIMIT else |rows|]
  }

  lemma RequestTaken(rows: seq<TransactionRow>, waves: seq<seq<seq<TransactionRow>>>, sent: nat,
                     pending: seq<seq<TransactionRow>>, offset: nat, uuids: seq<string>)
    requires offset < |rows| && Collecting(rows, waves, sent, pending, offset, uuids)
    ensures var batch := NextBatch(rows, offset);
      Collecting(rows, waves, sent, pending + [batch], offset + |batch|, uuids + Uuids(batch))
  {
    var batch := NextBatch(rows, offset);
    ChunkTaken(rows, offset);
    var rest := Chunks(rows[offset + |batch|..], BATCH_PUT_LIMIT);
    assert pending + ([batch] + rest) == (pending + [batch]) + rest;
  }

  lemma ChunkTaken(rows: seq<TransactionRow>, offset: nat)
    requires offset < |rows|
    ensures var next := if offset + BATCH_PUT_LIMIT < |rows| then offset + BATCH_PUT_LIMIT else |rows|;
      Chunks(rows[offset..], BATCH_PUT_LIMIT) == [rows[offset..next]] + Chunks(rows[next..], BATCH_PUT_LIMIT)
  {
    var next := if offset + BATCH_PUT_LIMIT < |rows| then offset + BATCH_PUT_LIMIT else |rows|;
    var rest := rows[offset..];
    if |rest| > BATCH_PUT_LIMIT {
      assert rest[..BATCH_PUT_LIMIT] == rows[offset..next] && rest[BATCH_PUT_LIMIT..] == rows[next..];
    } else {
      assert rest == rows[offset..next];
    }
  }

  lemma WaveTaken(rows: seq<TransactionRow>, waves: seq<seq<seq<TransactionRow>>>, sent: nat, wave: seq<seq<TransactionRow>>,
                  offset: nat)
    requires offset <= |rows| && InProgress(rows, waves, sent, wave, offset)
    requires |wave| == PARALLEL_PROMISES || (0 < |wave| < PARALLEL_PROMISES && offset == |rows|)
    ensures InProgress(rows, waves + [wave], sent + |wave|, [], offset)
    ensures waves + [wave] <= Chunks(Chunks(rows, BATCH_PUT_LIMIT), PARALLEL_PROMISES)
  {
    var rest := Chunks(rows[offset..], BATCH_PUT_LIMIT);
    WaveChunk(wave, rest);
    assert waves + ([wave] + Chunks(rest, PARALLEL_PROMISES)) == (waves + [wave]) + Chunks(rest, PARALLEL_PROMISES);
    assert [] + rest == rest;
  }

  lemma WaveChunk(wave: seq<seq<TransactionRow>>, rest: seq<seq<TransactionRow>>)
    requires |wave| == PARALLEL_PROMISES || (0 < |wave| < PARALLEL_PROMISES && rest == [])
    ensures Chunks(wave + rest, PARALLEL_PROMISES) == [wave] + Chunks(rest, PARALLEL_PROMISES)
  {
    if rest == [] {
      assert wave + rest == wave;
    } else {
      assert (wave + rest)[..PARALLEL_PROMISES] == wave && (wave + rest)[PARALLEL_PROMISES..] == rest;
    }
  }
}
