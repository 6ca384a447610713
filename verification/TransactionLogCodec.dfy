/** How a transaction row is written to and read from its DynamoDB table. */
module TransactionLogCodec {
  import opened Wrappers
  import opened Sequences
  import opened Decimals

  /** Every attribute of a row except its key, `transaction_uuid`. */
  datatype Field =
    | TransactionHash | BlockNumber | TransactionType | ClientId | ClientTokenId | GasUsed | GasPrice | StatusField
    | CreatedAt | UpdatedAt | FromUuid | ToUuid | ActionId | CommissionAmountInWei | CommissionPercent | AmountInWei
    | AirdropAmountInWei | Amount | TokenSymbol | ToAddress | FromAddress | ErrorCode | PostReceiptProcessParams
    | TransferEvents | Nonce | TransactionExecutorUuid | RawTransaction

  const KEY: string := "txu"

  function ShortName(f: Field): (s: string)
  {
    match f
    case TransactionHash => "txh"
    case BlockNumber => "bn"
    case TransactionType => "tt"
    case ClientId => "ci"
    case ClientTokenId => "cti"
    case GasUsed => "gu"
    case GasPrice => "gp"
    case StatusField => "s"
    case CreatedAt => "ca"
    case UpdatedAt => "ua"
    case FromUuid => "fu"
    case ToUuid => "tu"
    case ActionId => "ai"
    case CommissionAmountInWei => "caiw"
    case CommissionPercent => "cp"
    case AmountInWei => "aiw"
    case AirdropAmountInWei => "amiw"
    case Amount => "a"
    case TokenSymbol => "ts"
    case ToAddress => "ta"
    case FromAddress => "fa"
    case ErrorCode => "ec"
    case PostReceiptProcessParams => "prpp"
    case TransferEvents => "te"
    case Nonce => "nn"
    case TransactionExecutorUuid => "teu"
    case RawTransaction => "rt"
  }

  /** The inverted map. */
  function LongName(s: string): (f: Option<Field>)
  {
    if |s| == 1 then
      if s[0] == 's' then Some(StatusField) else if s[0] == 'a' then Some(Amount) else None
    else if |s| == 2 then LongNameOfTwo(s[0], s[1])
    else if s == "txh" then Some(TransactionHash)
    else if s == "cti" then Some(ClientTokenId)
    else if s == "aiw" then Some(AmountInWei)
    else if s == "teu" then Some(TransactionExecutorUuid)
    else if s == "caiw" then Some(CommissionAmountInWei)
    else if s == "amiw" then Some(AirdropAmountInWei)
    else if s == "prpp" then Some(PostReceiptProcessParams)
    else None
  }

  function LongNameOfTwo(a: char, b: char): (f: Option<Field>)
  {
    match (a, b)
    case ('b', 'n') => Some(BlockNumber)
    case ('t', 't') => Some(TransactionType)
    case ('c', 'i') => Some(ClientId)
    case ('g', 'u') => Some(GasUsed)
    case ('g', 'p') => Some(GasPrice)
    case ('c', 'a') => Some(CreatedAt)
    case ('u', 'a') => Some(UpdatedAt)
    case ('f', 'u') => Some(FromUuid)
    case ('t', 'u') => Some(ToUuid)
    case ('a', 'i') => Some(ActionId)
    case ('c', 'p') => Some(CommissionPercent)
    case ('t', 's') => Some(TokenSymbol)
    case ('t', 'a') => Some(ToAddress)
    case ('f', 'a') => Some(FromAddress)
    case ('e', 'c') => Some(ErrorCode)
    case ('t', 'e') => Some(TransferEvents)
    case ('n', 'n') => Some(Nonce)
    case ('r', 't') => Some(RawTransaction)
    case _ => None
  }

  /** No two attributes share a short name, and none has the key's. */
  lemma ShortNamesInvert(f: Field)
    ensures LongName(ShortName(f)) == Some(f) && ShortName(f) != KEY
  {
    match f {
      case _ =>
    }
  }

  lemma ShortNamesDiffer(f: Field, g: Field)
    ensures ShortName(f) == ShortName(g) <==> f == g
  {
    ShortNamesInvert(f);
    ShortNamesInvert(g);
  }

  // ------------------------------------------------------------------ rows and items

  datatype Doc = Doc(json: string)

  const EMPTY_DOC: Doc := Doc("{}")

  datatype TransferEvent = TransferEvent(fromUuid: Option<string>, toUuid: Option<string>, from: string, to: string, amount: Numeral)

  /** A property of a row.  Nothing is null, or any other value JavaScript counts as false in the place of a document;
      NotANumber is what `parseFloat` cannot read. */
  datatype Value = Text(text: string) | Number(numeral: Numeral) | Document(doc: Doc) | Events(events: seq<TransferEvent>) | Nothing | NotANumber

  datatype TransactionRow = TransactionRow(uuid: string, fields: map<Field, Value>)

  datatype Attr = S(text: string) | N(numeral: Numeral) | J(doc: Doc) | L(items: seq<map<string, Attr>>)

  type Item = map<string, Attr>

  datatype Kind = LowerText | PlainText | IntegerKind | RawNumber | Decimal | OptionalDecimal | Percent | JsonKind | EventList

  function KindOf(f: Field): (k: Kind)
  {
    match f
    case TransactionHash => LowerText
    case FromUuid => PlainText
    case ToUuid => PlainText
    case TokenSymbol => PlainText
    case ToAddress => PlainText
    case FromAddress => PlainText
    case ErrorCode => PlainText
    case TransactionExecutorUuid => PlainText
    case GasUsed => RawNumber
    case GasPrice => RawNumber
    case CommissionAmountInWei => Decimal
    case AmountInWei => Decimal
    case AirdropAmountInWei => OptionalDecimal
    case Amount => OptionalDecimal
    case CommissionPercent => Percent
    case PostReceiptProcessParams => JsonKind
    case RawTransaction => JsonKind
    case TransferEvents => EventList
    case _ => IntegerKind
  }

  /** What a caller may put in a property. */
  predicate Fits(k: Kind, v: Value) {
    match k
    case LowerText => v.Text?
    case PlainText => v.Text?
    case IntegerKind => v.Number?
    case RawNumber => v.Number?
    case Decimal => v.Number?
    case OptionalDecimal => v.Number? || v.Nothing?
    case Percent => v.Number? || v.Nothing? || v.NotANumber?
    case JsonKind => v.Document? || v.Nothing?
    case EventList => v.Events?
  }

  predicate WellTyped(row: TransactionRow) {
    forall f :: f in row.fields ==> Fits(KindOf(f), row.fields[f])
  }

  // ------------------------------------------------------------------ one property

  function EncodeEvent(e: TransferEvent): (m: Item)
  {
    (if e.fromUuid.Some? then map["fu" := S(e.fromUuid.value)] else map[])
    + (if e.toUuid.Some? then map["tu" := S(e.toUuid.value)] else map[])
    + map["fa" := S(e.from), "ta" := S(e.to), "aiw" := N(e.amount)]
  }

  function EncodeEvents(es: seq<TransferEvent>): (items: seq<Item>)
    ensures |items| == |es|
  {
    seq(|es|, i requires 0 <= i < |es| => EncodeEvent(es[i]))
  }

  function EncodeValue(v: Value, k: Kind): (a: Option<Attr>)
  {
    match v
    case Text(t) => Some(S(if k == LowerText then Lower(t) else t))
    case Number(n) => Some(N(n))
    case Document(d) => Some(J(d))
    case Events(es) => Some(L(EncodeEvents(es)))
    case Nothing => if k == JsonKind then Some(J(EMPTY_DOC)) else None
    case NotANumber => None
  }

  function DecodeText(m: Item, name: string): (t: Option<string>)
  {
    if name in m && m[name].S? then Some(m[name].text) else None
  }

  function DecodeEvent(m: Item): (e: Option<TransferEvent>)
  {
    if "fa" in m && m["fa"].S? && "ta" in m && m["ta"].S? && "aiw" in m && m["aiw"].N? then
      Some(TransferEvent(DecodeText(m, "fu"), DecodeText(m, "tu"), m["fa"].text, m["ta"].text, Canonical(m["aiw"].numeral)))
    else None
  }

  predicate AllEventsDecode(items: seq<Item>) {
    forall i :: 0 <= i < |items| ==> DecodeEvent(items[i]).Some?
  }

  function DecodeEvents(items: seq<Item>): (es: seq<TransferEvent>)
    requires AllEventsDecode(items)
    ensures |es| == |items|
  {
    seq(|items|, i requires 0 <= i < |items| => DecodeEvent(items[i]).value)
  }

  function DecodeAttr(a: Attr, k: Kind): (v: Option<Value>)
  {
    match a
    case S(t) => if k == LowerText || k == PlainText then Some(Text(t)) else None
    case N(n) =>
      (match k
       case IntegerKind => Some(Number(IntegerPart(n)))
       case RawNumber => Some(Number(n))
       case Decimal => Some(Number(Canonical(n)))
       case OptionalDecimal => Some(Number(Canonical(n)))
       case Percent => Some(Number(Canonical(n)))
       case _ => None)
    case J(d) => if k == JsonKind then Some(Document(d)) else None
    case L(items) =>
      if k == EventList && AllEventsDecode(items) then Some(Events(DecodeEvents(items))) else None
  }

  function NormalEvents(es: seq<TransferEvent>): (r: seq<TransferEvent>)
    ensures |r| == |es|
  {
    seq(|es|, i requires 0 <= i < |es| => es[i].(amount := Canonical(es[i].amount)))
  }

  /** What a property reads as once it has been stored; None if it is not stored. */
  function NormalValue(v: Value, k: Kind): (r: Option<Value>)
  {
    match v
    case Text(t) => Some(Text(if k == LowerText then Lower(t) else t))
    case Number(n) => Some(Number(if k == IntegerKind then IntegerPart(n) else if k == RawNumber then n else Canonical(n)))
    case Document(d) => Some(v)
    case Events(es) => Some(Events(NormalEvents(es)))
    case Nothing => if k == JsonKind then Some(Document(EMPTY_DOC)) else None
    case NotANumber => None
  }

  lemma EventRoundTrip(e: TransferEvent)
    ensures DecodeEvent(EncodeEvent(e)) == Some(e.(amount := Canonical(e.amount)))
  {
    assert "fu" != "tu" && "fu" != "fa" && "fu" != "ta" && "fu" != "aiw" && "tu" != "fa" && "tu" != "ta" && "tu" != "aiw";
    assert "fa" != "ta" && "fa" != "aiw" && "ta" != "aiw";
  }

  /** A nested event is stored under the short names of the row's own attributes of the same meaning. */
  lemma EventNames(e: TransferEvent)
    ensures var m := EncodeEvent(e);
      && ShortName(FromAddress) in m && m[ShortName(FromAddress)] == S(e.from)
      && ShortName(ToAddress) in m && m[ShortName(ToAddress)] == S(e.to)
      && ShortName(AmountInWei) in m && m[ShortName(AmountInWei)] == N(e.amount)
      && (ShortName(FromUuid) in m <==> e.fromUuid.Some?) && (e.fromUuid.Some? ==> m[ShortName(FromUuid)] == S(e.fromUuid.value))
      && (ShortName(ToUuid) in m <==> e.toUuid.Some?) && (e.toUuid.Some? ==> m[ShortName(ToUuid)] == S(e.toUuid.value))
  {
    ShortNamesDiffer(FromUuid, ToUuid);
    ShortNamesDiffer(FromUuid, FromAddress);
    ShortNamesDiffer(ToUuid, FromAddress);
    ShortNamesDiffer(FromUuid, ToAddress);
    ShortNamesDiffer(ToUuid, ToAddress);
    ShortNamesDiffer(FromAddress, ToAddress);
    ShortNamesDiffer(FromUuid, AmountInWei);
    ShortNamesDiffer(ToUuid, AmountInWei);
    ShortNamesDiffer(FromAddress, AmountInWei);
    ShortNamesDiffer(ToAddress, AmountInWei);
  }

  lemma EventsRoundTrip(es: seq<TransferEvent>)
    ensures AllEventsDecode(EncodeEvents(es)) && DecodeEvents(EncodeEvents(es)) == NormalEvents(es)
  {
    forall i | 0 <= i < |es|
      ensures DecodeEvent(EncodeEvents(es)[i]) == Some(NormalEvents(es)[i])
    {
      EventRoundTrip(es[i]);
    }
  }

  lemma NormalEventsTwice(es: seq<TransferEvent>)
    ensures NormalEvents(NormalEvents(es)) == NormalEvents(es)
  {
    forall i | 0 <= i < |es|
      ensures NormalEvents(NormalEvents(es))[i] == NormalEvents(es)[i]
    {
      CanonicalTwice(es[i].amount);
    }
  }

  lemma ValueRoundTrip(v: Value, k: Kind)
    requires Fits(k, v)
    ensures EncodeValue(v, k).Some? <==> NormalValue(v, k).Some?
    ensures EncodeValue(v, k).Some? ==> DecodeAttr(EncodeValue(v, k).value, k) == NormalValue(v, k)
  {
    if v.Events? {
      EventsRoundTrip(v.events);
    }
  }

  lemma NormalValueTwice(v: Value, k: Kind)
    requires Fits(k, v) && NormalValue(v, k).Some?
    ensures Fits(k, NormalValue(v, k).value) && NormalValue(NormalValue(v, k).value, k) == NormalValue(v, k)
  {
    match v
    case Text(t) => LowerTwice(t);
    case Number(n) => CanonicalTwice(n);
    case Events(es) => NormalEventsTwice(es);
    case _ =>
  }
}
