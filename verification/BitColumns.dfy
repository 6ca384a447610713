/** Named bits kept in integer columns.  Values are non-negative and below 2 to the 31, where JavaScript's signed 32-bit
    operators agree with unsigned ones. */
module BitColumns {
  import opened Wrappers
  import opened Sequences

  type Word = bv31

  datatype Bit = Bit(name: string, mask: Word)

  datatype Column = Column(name: string, bits: seq<Bit>)

  // ------------------------------------------------------------------ the arithmetic

  ghost predicate SingleBit(m: Word) {
    m != 0 && m & (m - 1) == 0
  }

  /** The value has every bit of the mask. */
  predicate Has(v: Word, k: Word) {
    k & v == k
  }

  function Smaller(a: Word, b: Word): (r: Word)
  {
    if a < b then a else b
  }

  /** Exclusive or, kept only if the value got smaller. */
  function XorIfSmaller(m: Word, v: Word): (r: Word)
  {
    Smaller(m ^ v, v)
  }

  function Cleared(m: Word, v: Word): (r: Word)
  {
    v & !m
  }

  lemma AllBitsSet(m: Word, v: Word)
    requires v & m == m
    ensures m ^ v <= v && m ^ v == Cleared(m, v)
  {
  }

  lemma NoBitSet(m: Word, v: Word)
    requires v & m == 0
    ensures m ^ v >= v && v == Cleared(m, v)
  {
  }

  lemma AllBitsWereSet(m: Word, v: Word)
    requires m ^ v == Cleared(m, v)
    ensures v & m == m
  {
  }

  lemma NoBitWasSet(m: Word, v: Word)
    requires v == Cleared(m, v)
    ensures v & m == 0
  {
  }

  /** The trick clears the bits of the mask if and only if the value has all of them or none. */
  lemma ClearsIff(m: Word, v: Word)
    ensures XorIfSmaller(m, v) == Cleared(m, v) <==> v & m == m || v & m == 0
  {
    if v & m == m {
      AllBitsSet(m, v);
    } else if v & m == 0 {
      NoBitSet(m, v);
    } else if XorIfSmaller(m, v) == Cleared(m, v) {
      if m ^ v < v {
        AllBitsWereSet(m, v);
      } else {
        NoBitWasSet(m, v);
      }
    }
  }

  lemma SingleBitAllOrNone(m: Word, v: Word)
    requires SingleBit(m)
    ensures v & m == m || v & m == 0
  {
  }

  lemma DifferentBitsDisjoint(m: Word, k: Word)
    requires SingleBit(m) && SingleBit(k) && k != m
    ensures k & m == 0
  {
  }

  lemma SetSelf(m: Word, v: Word)
    ensures Has(m | v, m)
  {
  }

  lemma SetDisjoint(m: Word, k: Word, v: Word)
    requires k & m == 0
    ensures k & (m | v) == k & v
  {
  }

  lemma SetThenTest(m: Word, k: Word, v: Word)
    requires SingleBit(m) && SingleBit(k)
    ensures Has(m | v, k) <==> k == m || Has(v, k)
  {
    if k == m {
      SetSelf(m, v);
    } else {
      DifferentBitsDisjoint(m, k);
      SetDisjoint(m, k, v);
    }
  }

  lemma ClearDisjoint(m: Word, k: Word, v: Word)
    requires k & m == 0
    ensures k & Cleared(m, v) == k & v
  {
  }

  lemma ClearSelf(m: Word, v: Word)
    ensures m & Cleared(m, v) == 0
  {
  }

  lemma ClearThenTest(m: Word, k: Word, v: Word)
    requires SingleBit(m) && SingleBit(k)
    ensures Has(Cleared(m, v), k) <==> k != m && Has(v, k)
  {
    if k == m {
      ClearSelf(m, v);
    } else {
      DifferentBitsDisjoint(m, k);
      ClearDisjoint(m, k, v);
    }
  }

  lemma Nothing(k: Word)
    requires SingleBit(k)
    ensures !Has(0, k)
  {
  }

  // ------------------------------------------------------------------ names

  ghost predicate UniqueNames(columns: seq<Column>) {
    forall c, d, i, j :: IsBit(columns, c, i) && IsBit(columns, d, j) && Before(c, i, d, j) ==> NameAt(columns, c, i) != NameAt(columns, d, j)
  }

  predicate Before(c: int, i: int, d: int, j: int) {
    c < d || (c == d && i < j)
  }

  ghost predicate IsBit(columns: seq<Column>, c: int, i: int) {
    0 <= c < |columns| && 0 <= i < |columns[c].bits|
  }

  function NameAt(columns: seq<Column>, c: nat, i: nat): (name: string)
    requires IsBit(columns, c, i)
  {
    columns[c].bits[i].name
  }

  /** Every mask is one bit. */
  ghost predicate SingleBits(columns: seq<Column>) {
    forall c, i :: IsBit(columns, c, i) ==> SingleBit(columns[c].bits[i].mask)
  }

  /** No two bits of a column share a mask. */
  ghost predicate DistinctMasks(bits: seq<Bit>) {
    forall i, j :: 0 <= i < j < |bits| ==> bits[i].mask != bits[j].mask
  }

  ghost predicate Names(bits: seq<Bit>, name: string, mask: Word) {
    exists i :: 0 <= i < |bits| && bits[i] == Bit(name, mask)
  }

  ghost predicate HasName(columns: seq<Column>, name: string) {
    exists c, i :: IsBit(columns, c, i) && NameAt(columns, c, i) == name
  }

  /** The mask found for a name: that of the first bit of this name. */
  function FindIn(bits: seq<Bit>, name: string): (m: Option<Word>)
  {
    if bits == [] then None else if bits[0].name == name then Some(bits[0].mask) else FindIn(bits[1..], name)
  }

  function Find(columns: seq<Column>, name: string): (m: Option<Word>)
  {
    if columns == [] then None
    else match FindIn(columns[0].bits, name)
      case Some(m) => Some(m)
      case None => Find(columns[1..], name)
  }

  function SetMask(m: Option<Word>, v: Word): (r: Word)
  {
    match m case Some(k) => k | v case None => v
  }

  function UnsetMask(m: Option<Word>, v: Word): (r: Word)
  {
    match m case Some(k) => XorIfSmaller(k, v) case None => v
  }

  predicate TestMask(m: Option<Word>, v: Word) {
    match m case Some(k) => Has(v, k) case None => false
  }

  ghost predicate Single(m: Option<Word>) {
    m.Some? ==> SingleBit(m.value)
  }

  lemma SetLaw(a: Option<Word>, b: Option<Word>, v: Word)
    requires Single(a) && Single(b)
    ensures TestMask(b, SetMask(a, v)) <==> TestMask(b, v) || (b.Some? && a == b)
  {
    match (a, b)
    case (Some(m), Some(k)) => SetThenTest(m, k, v); SetLawOf(a, b, v, m, k);
    case _ =>
  }

  lemma {:induction false} SetLawOf(a: Option<Word>, b: Option<Word>, v: Word, m: Word, k: Word)
    requires a == Some(m) && b == Some(k) && (Has(m | v, k) <==> k == m || Has(v, k))
    ensures TestMask(b, SetMask(a, v)) <==> TestMask(b, v) || a == b
  {
  }

  lemma UnsetClears(a: Option<Word>, v: Word)
    requires Single(a) && a.Some?
    ensures UnsetMask(a, v) == Cleared(a.value, v)
  {
    SingleBitAllOrNone(a.value, v);
    ClearsIff(a.value, v);
  }

  lemma UnsetLaw(a: Option<Word>, b: Option<Word>, v: Word)
    requires Single(a) && Single(b)
    ensures TestMask(b, UnsetMask(a, v)) <==> TestMask(b, v) && a != b
  {
    match (a, b)
    case (Some(m), Some(k)) => UnsetClears(a, v); ClearThenTest(m, k, v); UnsetLawOf(m, k, v);
    case _ =>
  }

  lemma UnsetLawOf(m: Word, k: Word, v: Word)
    requires UnsetMask(Some(m), v) == Cleared(m, v) && (Has(Cleared(m, v), k) <==> k != m && Has(v, k))
    ensures TestMask(Some(k), UnsetMask(Some(m), v)) <==> TestMask(Some(k), v) && Some(m) != Some(k)
  {
  }

  function SetIn(columns: seq<Column>, name: string, v: Word): (r: Word)
  {
    SetMask(Find(columns, name), v)
  }

  function UnsetIn(columns: seq<Column>, name: string, v: Word): (r: Word)
  {
    UnsetMask(Find(columns, name), v)
  }

  predicate IsSetIn(columns: seq<Column>, name: string, v: Word) {
    TestMask(Find(columns, name), v)
  }

  lemma {:induction false} FindInIs(bits: seq<Bit>, name: string)
    ensures FindIn(bits, name).Some? ==> Names(bits, name, FindIn(bits, name).value)
    ensures FindIn(bits, name).None? ==> forall i :: 0 <= i < |bits| ==> bits[i].name != name
  {
    if bits != [] && bits[0].name != name {
      FindInIs(bits[1..], name);
      if FindIn(bits[1..], name).Some? {
        var i :| 0 <= i < |bits[1..]| && bits[1..][i] == Bit(name, FindIn(bits[1..], name).value);
        assert bits[i + 1] == bits[1..][i];
      }
    } else if bits != [] {
      assert bits[0] == Bit(name, bits[0].mask);
    }
  }

  lemma {:induction false} FindIs(columns: seq<Column>, name: string)
    ensures Find(columns, name).Some? ==>
      exists c :: 0 <= c < |columns| && Names(columns[c].bits, name, Find(columns, name).value)
    ensures Find(columns, name).None? ==> !HasName(columns, name)
  {
    if columns != [] {
      FindInIs(columns[0].bits, name);
      FindIs(columns[1..], name);
      if FindIn(columns[0].bits, name).None? && Find(columns, name).Some? {
        var c :| 0 <= c < |columns[1..]| && Names(columns[1..][c].bits, name, Find(columns, name).value);
        assert Names(columns[c + 1].bits, name, Find(columns, name).value);
      }
      if FindIn(columns[0].bits, name).None? && HasName(columns, name) {
        var c, i :| IsBit(columns, c, i) && NameAt(columns, c, i) == name;
        assert c > 0 ==> IsBit(columns[1..], c - 1, i) && NameAt(columns[1..], c - 1, i) == name;
      }
    }
  }

  /** With validated columns a bit's name finds that bit. */
  lemma FindsIt(columns: seq<Column>, c: nat, i: nat)
    requires UniqueNames(columns) && IsBit(columns, c, i)
    ensures Find(columns, columns[c].bits[i].name) == Some(columns[c].bits[i].mask)
  {
    var name := NameAt(columns, c, i);
    FindIs(columns, name);
    assert HasName(columns, name);
    var d :| 0 <= d < |columns| && Names(columns[d].bits, name, Find(columns, name).value);
    var j :| 0 <= j < |columns[d].bits| && columns[d].bits[j] == Bit(name, Find(columns, name).value);
    assert IsBit(columns, d, j) && NameAt(columns, d, j) == name;
    assert !Before(c, i, d, j) && !Before(d, j, c, i);
  }

  lemma FoundIsSingle(columns: seq<Column>, name: string)
    requires SingleBits(columns)
    ensures Single(Find(columns, name))
  {
    FindIs(columns, name);
    if Find(columns, name).Some? {
      var c :| 0 <= c < |columns| && Names(columns[c].bits, name, Find(columns, name).value);
      var i :| 0 <= i < |columns[c].bits| && columns[c].bits[i] == Bit(name, Find(columns, name).value);
      assert IsBit(columns, c, i);
    }
  }

  /** Setting, unsetting and testing named bits obey the laws of a set of masks, for any names, known or not. */
  lemma {:induction false} SetLaws(columns: seq<Column>, a: string, b: string, v: Word)
    requires SingleBits(columns)
    ensures IsSetIn(columns, b, SetIn(columns, a, v))
      <==> IsSetIn(columns, b, v) || (Find(columns, b).Some? && Find(columns, a) == Find(columns, b))
    ensures IsSetIn(columns, b, UnsetIn(columns, a, v))
      <==> IsSetIn(columns, b, v) && !(Find(columns, a) == Find(columns, b))
    ensures Find(columns, a).Some? ==> UnsetIn(columns, a, v) == Cleared(Find(columns, a).value, v)
  {
    FoundIsSingle(columns, a);
    FoundIsSingle(columns, b);
    SetLaw(Find(columns, a), Find(columns, b), v);
    UnsetLaw(Find(columns, a), Find(columns, b), v);
    if Find(columns, a).Some? {
      UnsetClears(Find(columns, a), v);
    }
  }

  // ------------------------------------------------------------------ listing the bits of a column

  /** Setting a list of names one after the other. */
  function SetAll(columns: seq<Column>, names: seq<string>, v: Word): (r: Word)
  {
    if names == [] then v else SetAll(columns, names[1..], SetIn(columns, names[0], v))
  }

  ghost predicate FromColumn(bits: seq<Bit>, names: seq<string>) {
    forall k :: 0 <= k < |names| ==> exists i :: 0 <= i < |bits| && bits[i].name == names[k]
  }

  lemma {:induction false} SetAllTests(columns: seq<Column>, names: seq<string>, v: Word, b: string)
    requires SingleBits(columns) && Find(columns, b).Some?
    ensures IsSetIn(columns, b, SetAll(columns, names, v))
      <==> IsSetIn(columns, b, v) || exists k :: 0 <= k < |names| && Find(columns, names[k]) == Find(columns, b)
  {
    if names != [] {
      SetLaws(columns, names[0], b, v);
      SetAllTests(columns, names[1..], SetIn(columns, names[0], v), b);
      if k :| 0 <= k < |names| && Find(columns, names[k]) == Find(columns, b) {
        assert k > 0 ==> names[1..][k - 1] == names[k];
      }
      if k :| 0 <= k < |names[1..]| && Find(columns, names[1..][k]) == Find(columns, b) {
        assert names[k + 1] == names[1..][k];
      }
    }
  }

  function AllBits(columns: seq<Column>, bits: seq<Bit>, v: Word, n: nat): (names: seq<string>)
    requires n <= |bits|
  {
    if n == 0 then []
    else AllBits(columns, bits, v, n - 1) + if IsSetIn(columns, bits[n - 1].name, v) then [bits[n - 1].name] else []
  }

  lemma {:induction false} AllBitsHas(columns: seq<Column>, bits: seq<Bit>, v: Word, n: nat, name: string)
    requires n <= |bits|
    ensures name in AllBits(columns, bits, v, n) <==> exists i :: 0 <= i < n && bits[i].name == name && IsSetIn(columns, name, v)
  {
    if n > 0 {
      AllBitsHas(columns, bits, v, n - 1, name);
    }
  }

  /** The names of a column's bits that are set in v, and none for an unknown column. */
  function Listing(columns: seq<Column>, columnName: string, v: Word): (names: seq<string>)
    ensures (forall i :: 0 <= i < |columns| ==> columns[i].name != columnName) ==> names == []
  {
    match ColumnNamed(columns, columnName)
    case None => []
    case Some(c) => AllBits(columns, columns[c].bits, v, |columns[c].bits|)
  }

  lemma {:induction false} AllBitsInOrder(columns: seq<Column>, bits: seq<Bit>, v: Word, n: nat, i: nat, j: nat) returns (p: nat, q: nat)
    requires i < j < n <= |bits| && IsSetIn(columns, bits[i].name, v) && IsSetIn(columns, bits[j].name, v)
    ensures p < q < |AllBits(columns, bits, v, n)|
    ensures AllBits(columns, bits, v, n)[p] == bits[i].name && AllBits(columns, bits, v, n)[q] == bits[j].name
  {
    if j < n - 1 {
      p, q := AllBitsInOrder(columns, bits, v, n - 1, i, j);
    } else {
      AllBitsHas(columns, bits, v, j, bits[i].name);
      p :| p < |AllBits(columns, bits, v, j)| && AllBits(columns, bits, v, j)[p] == bits[i].name;
      q := |AllBits(columns, bits, v, j)|;
    }
  }

  /** Listed names stand in the order of the column's bits. */
  lemma ListsInOrder(columns: seq<Column>, c: nat, v: Word, i: nat, j: nat) returns (p: nat, q: nat)
    requires c < |columns| && forall d :: 0 <= d < |columns| && columns[d].name == columns[c].name ==> d == c
    requires i < j < |columns[c].bits| && IsSetIn(columns, columns[c].bits[i].name, v) && IsSetIn(columns, columns[c].bits[j].name, v)
    ensures var names := Listing(columns, columns[c].name, v);
      p < q < |names| && names[p] == columns[c].bits[i].name && names[q] == columns[c].bits[j].name
  {
    p, q := AllBitsInOrder(columns, columns[c].bits, v, |columns[c].bits|, i, j);
  }

  /** Set any of a column's bits from zero: listing the column gives exactly their names. */
  lemma ListsExactlyWhatWasSet(columns: seq<Column>, c: nat, names: seq<string>, name: string)
    requires UniqueNames(columns) && SingleBits(columns) && c < |columns| && DistinctMasks(columns[c].bits)
    requires FromColumn(columns[c].bits, names)
    requires forall d :: 0 <= d < |columns| && columns[d].name == columns[c].name ==> d == c
    ensures name in Listing(columns, columns[c].name, SetAll(columns, names, 0)) <==> name in names
  {
    var bits := columns[c].bits;
    var v := SetAll(columns, names, 0);
    assert Listing(columns, columns[c].name, v) == AllBits(columns, bits, v, |bits|);
    AllBitsHas(columns, bits, v, |bits|, name);
    if name in names {
      var k :| 0 <= k < |names| && names[k] == name;
      var i :| 0 <= i < |bits| && bits[i].name == names[k];
      TestsWhatWasSet(columns, c, names, i);
    }
    if i :| 0 <= i < |bits| && bits[i].name == name && IsSetIn(columns, name, v) {
      TestsWhatWasSet(columns, c, names, i);
    }
  }

  lemma TestsWhatWasSet(columns: seq<Column>, c: nat, names: seq<string>, i: nat)
    requires UniqueNames(columns) && SingleBits(columns) && c < |columns| && DistinctMasks(columns[c].bits)
    requires FromColumn(columns[c].bits, names) && i < |columns[c].bits|
    ensures IsSetIn(columns, columns[c].bits[i].name, SetAll(columns, names, 0)) <==> columns[c].bits[i].name in names
  {
    var bits := columns[c].bits;
    FindsIt(columns, c, i);
    SetAllTests(columns, names, 0, bits[i].name);
    Nothing(bits[i].mask);
    forall k | 0 <= k < |names|
      ensures Find(columns, names[k]) == Some(bits[i].mask) <==> names[k] == bits[i].name
    {
      var j :| 0 <= j < |bits| && bits[j].name == names[k];
      FindsIt(columns, c, j);
    }
  }

  // ------------------------------------------------------------------ the helper

  class BitWiseOperations {
    const bitColumns: seq<Column>

    constructor (bitColumns: seq<Column>)
      ensures this.bitColumns == bitColumns
    {
      this.bitColumns := bitColumns;
    }

    /** Goes through the names of all columns, collecting them, and gives up at the first one met before. */
    method ValidateBitColumns() returns (ok: bool)
      ensures ok <==> Distinct(AllNames(bitColumns, |bitColumns|))
    {
      var allBits: seq<string> := [];
      for i := 0 to |bitColumns|
        invariant allBits == AllNames(bitColumns, i) && Distinct(allBits)
      {
        var bits := bitColumns[i].bits;
        for j := 0 to |bits|
          invariant allBits == AllNames(bitColumns, i) + NamesOf(bits, j) && Distinct(allBits)
        {
          if bits[j].name in allBits {
            RepeatedName(bitColumns, i, j);
            return false;
          }
          allBits := allBits + [bits[j].name];
        }
      }
      return true;
    }

    method FindValueOfBit(bitName: string) returns (m: Option<Word>)
      ensures m == Find(bitColumns, bitName)
    {
      for c := 0 to |bitColumns|
        invariant Find(bitColumns, bitName) == Find(bitColumns[c..], bitName)
      {
        var bits := bitColumns[c].bits;
        assert bitColumns[c..][1..] == bitColumns[c + 1..];
        assert bits == bits[0..];
        for i := 0 to |bits|
          invariant FindIn(bits, bitName) == FindIn(bits[i..], bitName)
        {
          assert bits[i..][1..] == bits[i + 1..];
          if bits[i].name == bitName {
            return Some(bits[i].mask);
          }
        }
      }
      return None;
    }

    method SetBit(bitName: string, previousValue: Word) returns (r: Word)
      ensures r == SetIn(bitColumns, bitName, previousValue)
    {
      var resp := FindValueOfBit(bitName);
      r := if resp.Some? then resp.value | previousValue else previousValue;
    }

    method UnsetBit(bitName: string, previousValue: Word) returns (r: Word)
      ensures r == UnsetIn(bitColumns, bitName, previousValue)
    {
      var resp := FindValueOfBit(bitName);
      if resp.Some? {
        var val := resp.value ^ previousValue;
        return Smaller(val, previousValue);
      }
      return previousValue;
    }

    method IsBitSet(bitName: string, currentValue: Word) returns (r: bool)
      ensures r == IsSetIn(bitColumns, bitName, currentValue)
    {
      var resp := FindValueOfBit(bitName);
      if resp.Some? {
        return Has(currentValue, resp.value);
      }
      return false;
    }

    method GetAllBits(columnName: string, currentValue: Word) returns (names: seq<string>)
      ensures names == Listing(bitColumns, columnName, currentValue)
    {
      names := [];
      var c := ColumnNamed(bitColumns, columnName);
      if c.None? {
        return;
      }
      var allBits := bitColumns[c.value].bits;
      for i := 0 to |allBits|
        invariant names == AllBits(bitColumns, allBits, currentValue, i)
      {
        var isSet := IsBitSet(allBits[i].name, currentValue);
        if isSet {
          names := names + [allBits[i].name];
        }
      }
    }
  }

  function ColumnNamed(columns: seq<Column>, name: string): (c: Option<nat>)
    ensures c.Some? ==> c.value < |columns| && columns[c.value].name == name
    ensures c.None? ==> forall i :: 0 <= i < |columns| ==> columns[i].name != name
  {
    if columns == [] then None
    else if columns[|columns| - 1].name == name then Some(|columns| - 1)
    else ColumnNamed(columns[..|columns| - 1], name)
  }

  function NamesOf(bits: seq<Bit>, n: nat): (names: seq<string>)
    requires n <= |bits|
  {
    if n == 0 then [] else NamesOf(bits, n - 1) + [bits[n - 1].name]
  }

  /** The names of the first n columns, one after the other. */
  function AllNames(columns: seq<Column>, n: nat): (names: seq<string>)
    requires n <= |columns|
  {
    if n == 0 then [] else AllNames(columns, n - 1) + NamesOf(columns[n - 1].bits, |columns[n - 1].bits|)
  }

  lemma Repeated(s: seq<string>, x: string)
    requires x in s
    ensures !Distinct(s + [x])
  {
    var i :| 0 <= i < |s| && s[i] == x;
    assert (s + [x])[i] == (s + [x])[|s|];
  }

  lemma {:induction false} NamesOfPrefix(bits: seq<Bit>, i: nat, n: nat)
    requires i <= n <= |bits|
    ensures NamesOf(bits, i) <= NamesOf(bits, n)
  {
    if i < n {
      NamesOfPrefix(bits, i, n - 1);
    }
  }

  lemma {:induction false} AllNamesPrefix(columns: seq<Column>, i: nat, n: nat)
    requires i <= n <= |columns|
    ensures AllNames(columns, i) <= AllNames(columns, n)
  {
    if i < n {
      AllNamesPrefix(columns, i, n - 1);
    }
  }

  lemma {:induction false} NamesGoOn(columns: seq<Column>, i: nat, j: nat)
    requires i < |columns| && j < |columns[i].bits|
    requires !Distinct(AllNames(columns, i) + NamesOf(columns[i].bits, j) + [columns[i].bits[j].name])
    ensures !Distinct(AllNames(columns, |columns|))
  {
    var bits := columns[i].bits;
    var part := AllNames(columns, i) + NamesOf(bits, j) + [bits[j].name];
    NamesOfPrefix(bits, j + 1, |bits|);
    AllNamesPrefix(columns, i + 1, |columns|);
    assert part == AllNames(columns, i) + NamesOf(bits, j + 1);
    assert part <= AllNames(columns, i + 1);
    NotDistinctPrefix(part, AllNames(columns, |columns|));
  }

  /** A name that came before makes the names of all columns repeat. */
  lemma RepeatedName(columns: seq<Column>, i: nat, j: nat)
    requires i < |columns| && j < |columns[i].bits|
    requires columns[i].bits[j].name in AllNames(columns, i) + NamesOf(columns[i].bits, j)
    ensures !Distinct(AllNames(columns, |columns|))
  {
    Repeated(AllNames(columns, i) + NamesOf(columns[i].bits, j), columns[i].bits[j].name);
    NamesGoOn(columns, i, j);
  }

  lemma NotDistinctPrefix(a: seq<string>, b: seq<string>)
    requires a <= b && !Distinct(a)
    ensures !Distinct(b)
  {
    var i, j :| 0 <= i < j < |a| && a[i] == a[j];
    assert b[i] == a[i] && b[j] == a[j];
  }

  /** Validated columns name every bit once. */
  lemma {:induction false} ValidatedMeansUnique(columns: seq<Column>)
    requires Distinct(AllNames(columns, |columns|))
    ensures UniqueNames(columns)
  {
    forall c, d, i, j | IsBit(columns, c, i) && IsBit(columns, d, j) && Before(c, i, d, j)
      ensures NameAt(columns, c, i) != NameAt(columns, d, j)
    {
      var p := PlaceOfBit(columns, c, i);
      var q := PlaceOfBit(columns, d, j);
      if c < d {
        AllNamesPrefix(columns, c + 1, d);
      }
      assert p < q;
    }
  }

  /** Where the name of a bit stands among all names: behind those of the columns before, in the place of the bit. */
  lemma {:induction false} PlaceOfBit(columns: seq<Column>, c: nat, i: nat) returns (p: nat)
    requires IsBit(columns, c, i)
    ensures p == |AllNames(columns, c)| + i < |AllNames(columns, c + 1)| <= |AllNames(columns, |columns|)|
    ensures AllNames(columns, |columns|)[p] == NameAt(columns, c, i)
  {
    p := |AllNames(columns, c)| + i;
    var bits := columns[c].bits;
    NamesOfAt(bits, |bits|, i);
    AllNamesPrefix(columns, c + 1, |columns|);
    assert AllNames(columns, c + 1)[p] == NamesOf(bits, |bits|)[i];
  }

  lemma {:induction false} NamesOfAt(bits: seq<Bit>, n: nat, i: nat)
    requires i < n <= |bits|
    ensures |NamesOf(bits, n)| == n && NamesOf(bits, n)[i] == bits[i].name
  {
    if n > 1 {
      NamesOfAt(bits, n - 1, if i < n - 1 then i else 0);
    }
  }
}
