/**
 * How a JSON value is written down, as code units, and that no two values are
 * written alike. Strings are escaped as section 7 of RFC 8259 allows, and a
 * surrogate without its partner is always escaped.
 */
module Json {
  import opened Wrappers
  import Text

  /** A UTF-16 code unit. */
  type Unit = n: nat | n < 0x1_0000

  type Units = seq<Unit>

  datatype Value =
    | Bool(b: bool)
    | Number(n: int)
    | String(units: Units)
    | Array(items: Items)
    | Object(fields: Fields)

  datatype Items = Nil | Item(head: Value, tail: Items)

  datatype Fields = NoMore | Field(key: Units, value: Value, rest: Fields)

  predicate Ascii(s: string) {
    forall i :: 0 <= i < |s| ==> s[i] < '\U{80}'
  }

  /** A name of the program's own, as code units. */
  function U(s: string): (u: Units)
    requires Ascii(s)
    ensures |u| == |s| && forall i :: 0 <= i < |s| ==> u[i] == s[i] as nat
  {
    seq(|s|, i requires 0 <= i < |s| => s[i] as nat)
  }

  const QUOTE: Unit := 34
  const BACKSLASH: Unit := 92
  const COMMA: Unit := 44
  const COLON: Unit := 58

  predicate IsHigh(u: Unit) {
    0xD800 <= u < 0xDC00
  }

  predicate IsLow(u: Unit) {
    0xDC00 <= u < 0xE000
  }

  // ---- strings -----------------------------------------------------------------------------

  function HexDigit(n: nat): Unit
    requires n < 16
  {
    if n < 10 then 48 + n else 87 + n
  }

  function Hex4(u: Unit): (h: Units)
    ensures |h| == 4
  {
    [HexDigit(u / 4096), HexDigit(u / 256 % 16), HexDigit(u / 16 % 16), HexDigit(u % 16)]
  }

  /** The letter of a two-character escape, for the units that have one. */
  function ShortEscape(u: Unit): Unit {
    if u == QUOTE || u == BACKSLASH then u
    else if u == 8 then 98
    else if u == 9 then 116
    else if u == 10 then 110
    else if u == 12 then 102
    else if u == 13 then 114
    else 0
  }

  /** One unit that is not half of a pair. */
  function EscapedUnit(u: Unit): Units {
    if ShortEscape(u) != 0 then [BACKSLASH, ShortEscape(u)]
    else if u < 32 || IsHigh(u) || IsLow(u) then [BACKSLASH, 117] + Hex4(u)
    else [u]
  }

  predicate PairAhead(s: Units) {
    |s| >= 2 && IsHigh(s[0]) && IsLow(s[1])
  }

  function Escaped(s: Units): Units
    decreases s
  {
    if s == [] then []
    else if PairAhead(s) then [s[0], s[1]] + Escaped(s[2..])
    else EscapedUnit(s[0]) + Escaped(s[1..])
  }

  function Quoted(s: Units): Units {
    [QUOTE] + Escaped(s) + [QUOTE]
  }

  // ---- values ---------------------------------------------------------------------------------

  function Numeral(n: int): Units {
    if n < 0 then [45] + U(DecimalAscii(-n)) else U(DecimalAscii(n))
  }

  function DecimalAscii(n: nat): (s: string)
    ensures s == Text.Decimal(n) && Ascii(s)
  {
    Text.Decimal(n)
  }

  function Printed(v: Value): Units {
    match v
    case Bool(b) => if b then U("true") else U("false")
    case Number(n) => Numeral(n)
    case String(units) => Quoted(units)
    case Array(items) => [91] + PrintedItems(items, true)
    case Object(fields) => [123] + PrintedFields(fields, true)
  }

  /** The rest of an array, its closing bracket included. */
  function PrintedItems(items: Items, first: bool): Units {
    match items
    case Nil => [93]
    case Item(head, tail) => (if first then [] else [COMMA]) + Printed(head) + PrintedItems(tail, false)
  }

  function PrintedFields(fields: Fields, first: bool): Units {
    match fields
    case NoMore => [125]
    case Field(key, value, rest) =>
      (if first then [] else [COMMA]) + Quoted(key) + [COLON] + Printed(value) + PrintedFields(rest, false)
  }

  // ---- strings are read back one way only ---------------------------------------------------------

  lemma HexInjective(u: Unit, v: Unit)
    requires Hex4(u) == Hex4(v)
    ensures u == v
  {
    assert Hex4(u)[0] == Hex4(v)[0] && Hex4(u)[1] == Hex4(v)[1] && Hex4(u)[2] == Hex4(v)[2] && Hex4(u)[3] == Hex4(v)[3];
    HexParts(u);
    HexParts(v);
  }

  lemma HexParts(u: Unit)
    ensures u == 4096 * (u / 4096) + 256 * (u / 256 % 16) + 16 * (u / 16 % 16) + u % 16
  {
    assert u / 256 == 16 * (u / 4096) + u / 256 % 16;
    assert u / 16 == 16 * (u / 256) + u / 16 % 16;
  }

  /** What is written for one unit tells where it ends. */
  lemma EscapedUnitSplits(u: Unit, x: Units, v: Unit, y: Units)
    requires EscapedUnit(u) + x == EscapedUnit(v) + y
    ensures u == v && x == y
  {
    var s, t := EscapedUnit(u) + x, EscapedUnit(v) + y;
    assert s[0] == EscapedUnit(u)[0] && t[0] == EscapedUnit(v)[0];
    if |EscapedUnit(u)| > 1 {
      assert s[1] == EscapedUnit(u)[1] && t[1] == EscapedUnit(v)[1];
      if |EscapedUnit(u)| == 6 {
        assert s[2..6] == Hex4(u) && t[2..6] == Hex4(v);
        HexInjective(u, v);
      }
    }
    assert s[|EscapedUnit(u)|..] == x && t[|EscapedUnit(v)|..] == y;
  }

  /** The first thing written for a string that is not empty is never the closing quote. */
  lemma EscapedStarts(s: Units)
    requires s != []
    ensures Escaped(s) != [] && Escaped(s)[0] != QUOTE
    ensures PairAhead(s) ==> Escaped(s)[0] == s[0] && |Escaped(s)| >= 2 && Escaped(s)[1] == s[1]
    ensures !PairAhead(s) ==> !IsHigh(Escaped(s)[0])
  {}

  lemma FirstWritten(s: Units, x: Units)
    ensures (Escaped(s) + [QUOTE] + x)[0] == if s == [] then QUOTE else Escaped(s)[0]
    ensures (Escaped(s) + [QUOTE] + x)[0] == QUOTE <==> s == []
  {
    if s != [] {
      EscapedStarts(s);
    }
  }

  /** The written string with its first character taken off: a pair, or a single unit. */
  lemma PairStep(a: Units, x: Units)
    requires PairAhead(a)
    ensures
      var s := Escaped(a) + [QUOTE] + x;
      |s| >= 2 && s[0] == a[0] && s[1] == a[1] && s[2..] == Escaped(a[2..]) + [QUOTE] + x
  {}

  lemma UnitStep(a: Units, x: Units)
    requires a != [] && !PairAhead(a)
    ensures Escaped(a) + [QUOTE] + x == EscapedUnit(a[0]) + (Escaped(a[1..]) + [QUOTE] + x)
  {}

  lemma {:induction false} EscapedSplits(a: Units, x: Units, b: Units, y: Units)
    requires Escaped(a) + [QUOTE] + x == Escaped(b) + [QUOTE] + y
    ensures a == b && x == y
    decreases a
  {
    hide Escaped, EscapedUnit;
    var s, t := Escaped(a) + [QUOTE] + x, Escaped(b) + [QUOTE] + y;
    FirstWritten(a, x);
    FirstWritten(b, y);
    if a == [] {
      NothingWritten();
      assert s[1..] == x && t[1..] == y;
    } else {
      EscapedStarts(a);
      EscapedStarts(b);
      if PairAhead(a) {
        PairStep(a, x);
        PairStep(b, y);
        EscapedSplits(a[2..], x, b[2..], y);
        assert a == [a[0], a[1]] + a[2..] && b == [b[0], b[1]] + b[2..];
      } else {
        UnitStep(a, x);
        UnitStep(b, y);
        EscapedUnitSplits(a[0], Escaped(a[1..]) + [QUOTE] + x, b[0], Escaped(b[1..]) + [QUOTE] + y);
        EscapedSplits(a[1..], x, b[1..], y);
        assert a == [a[0]] + a[1..] && b == [b[0]] + b[1..];
      }
    }
  }

  lemma NothingWritten()
    ensures Escaped([]) == []
  {}

  lemma QuotedSplits(a: Units, x: Units, b: Units, y: Units)
    requires Quoted(a) + x == Quoted(b) + y
    ensures a == b && x == y
  {
    assert (Quoted(a) + x)[1..] == Escaped(a) + [QUOTE] + x;
    assert (Quoted(b) + y)[1..] == Escaped(b) + [QUOTE] + y;
    EscapedSplits(a, x, b, y);
  }

  // ---- numbers -----------------------------------------------------------------------------------------

  predicate DigitUnit(u: Unit) {
    48 <= u <= 57
  }

  /** What follows a value: nothing, or something that is no part of a number. */
  predicate Delimited(s: Units) {
    s == [] || !DigitUnit(s[0])
  }

  lemma UInjective(s: string, t: string)
    requires Ascii(s) && Ascii(t) && U(s) == U(t)
    ensures s == t
  {
    assert forall i :: 0 <= i < |s| ==> U(s)[i] == U(t)[i];
  }

  lemma NumeralStarts(n: int)
    ensures |Numeral(n)| > 0 && (Numeral(n)[0] == 45 || DigitUnit(Numeral(n)[0]))
    ensures n >= 0 ==> forall i :: 0 <= i < |Numeral(n)| ==> DigitUnit(Numeral(n)[i])
  {}

  lemma NatSplits(m: nat, x: Units, n: nat, y: Units)
    requires Delimited(x) && Delimited(y)
    requires Numeral(m) + x == Numeral(n) + y
    ensures m == n && x == y
  {
    NumeralStarts(m);
    NumeralStarts(n);
    Text.RunsSplit(DigitUnit, Numeral(m), x, Numeral(n), y);
    UInjective(DecimalAscii(m), DecimalAscii(n));
    Text.DecimalInjective(m, n);
  }

  lemma NegativeStarts(n: int)
    requires n < 0
    ensures Numeral(n) == [45] + Numeral(-n)
  {}

  lemma NumeralSplits(m: int, x: Units, n: int, y: Units)
    requires Delimited(x) && Delimited(y)
    requires Numeral(m) + x == Numeral(n) + y
    ensures m == n && x == y
  {
    hide Numeral;
    NumeralStarts(m);
    NumeralStarts(n);
    assert (Numeral(m) + x)[0] == Numeral(m)[0] && (Numeral(n) + y)[0] == Numeral(n)[0];
    if m >= 0 && n >= 0 {
      NatSplits(m, x, n, y);
    } else if m < 0 && n < 0 {
      NegativeStarts(m);
      NegativeStarts(n);
      assert (Numeral(m) + x)[1..] == Numeral(-m) + x && (Numeral(n) + y)[1..] == Numeral(-n) + y;
      NatSplits(-m, x, -n, y);
    } else if m < 0 {
      NegativeStarts(m);
    } else {
      NegativeStarts(n);
    }
  }

  // ---- values are read back one way only ---------------------------------------------------------------

  datatype Kind = KTrue | KFalse | KNumber | KString | KArray | KObject

  function KindOf(v: Value): Kind {
    match v
    case Bool(b) => if b then KTrue else KFalse
    case Number(_) => KNumber
    case String(_) => KString
    case Array(_) => KArray
    case Object(_) => KObject
  }

  /** A value's first unit tells what kind it is, and is no delimiter. */
  function KindAt(u: Unit): Kind {
    if u == 116 then KTrue else if u == 102 then KFalse
    else if u == QUOTE then KString else if u == 91 then KArray else if u == 123 then KObject
    else KNumber
  }

  lemma PrintedStarts(v: Value)
    ensures Printed(v) != [] && KindAt(Printed(v)[0]) == KindOf(v)
    ensures Printed(v)[0] != 93 && Printed(v)[0] != 125 && Printed(v)[0] != COMMA
  {
    if v.Number? {
      NumeralStarts(v.n);
    }
  }

  lemma PrintedItemsStart(items: Items)
    ensures PrintedItems(items, false) != [] && PrintedItems(items, false)[0] == (if items.Nil? then 93 else COMMA)
    ensures PrintedItems(items, true) != [] && (PrintedItems(items, true)[0] == 93 <==> items.Nil?)
  {
    if items.Item? {
      PrintedStarts(items.head);
    }
  }

  lemma PrintedFieldsStart(fields: Fields)
    ensures PrintedFields(fields, false) != [] && PrintedFields(fields, false)[0] == (if fields.NoMore? then 125 else COMMA)
    ensures PrintedFields(fields, true) != [] && (PrintedFields(fields, true)[0] == 125 <==> fields.NoMore?)
  {}

  /** No value is written like another, or like the beginning of another. */
  lemma {:induction false} PrintedSplits(v: Value, x: Units, w: Value, y: Units)
    requires Delimited(x) && Delimited(y)
    requires Printed(v) + x == Printed(w) + y
    ensures v == w && x == y
    decreases v
  {
    PrintedStarts(v);
    PrintedStarts(w);
    hide Numeral, Quoted, PrintedItems, PrintedFields;
    var s, t := Printed(v) + x, Printed(w) + y;
    assert s[0] == Printed(v)[0] && t[0] == Printed(w)[0];
    match v
    case Bool(_) =>
      assert s[|Printed(v)|..] == x && t[|Printed(w)|..] == y;
    case Number(n) => NumeralSplits(n, x, w.n, y);
    case String(units) => QuotedSplits(units, x, w.units, y);
    case Array(items) =>
      assert s[1..] == PrintedItems(items, true) + x && t[1..] == PrintedItems(w.items, true) + y;
      ItemsSplit(items, x, w.items, y, true);
    case Object(fields) =>
      assert s[1..] == PrintedFields(fields, true) + x && t[1..] == PrintedFields(w.fields, true) + y;
      FieldsSplit(fields, x, w.fields, y, true);
  }

  /** What is written for an item and what follows it, after the comma if there is one. */
  function ItemText(i: Items, x: Units): Units
    requires i.Item?
  {
    Printed(i.head) + (PrintedItems(i.tail, false) + x)
  }

  lemma ItemStep(i: Items, x: Units, first: bool)
    requires i.Item?
    ensures PrintedItems(i, first) + x == (if first then [] else [COMMA]) + ItemText(i, x)
  {
    hide Printed;
    var comma: Units := if first then [] else [COMMA];
    assert PrintedItems(i, first) == comma + Printed(i.head) + PrintedItems(i.tail, false);
  }

  lemma {:induction false} ItemsSplit(a: Items, x: Units, b: Items, y: Units, first: bool)
    requires PrintedItems(a, first) + x == PrintedItems(b, first) + y
    ensures a == b && x == y
    decreases a
  {
    PrintedItemsStart(a);
    PrintedItemsStart(b);
    var s, t := PrintedItems(a, first) + x, PrintedItems(b, first) + y;
    assert s[0] == PrintedItems(a, first)[0] && t[0] == PrintedItems(b, first)[0];
    if a.Nil? {
      assert s[1..] == x && t[1..] == y;
    } else {
      hide Printed, PrintedItems;
      ItemStep(a, x, first);
      ItemStep(b, y, first);
      var k := if first then 0 else 1;
      assert s[k..] == ItemText(a, x) && t[k..] == ItemText(b, y);
      PrintedItemsStart(a.tail);
      PrintedItemsStart(b.tail);
      PrintedSplits(a.head, PrintedItems(a.tail, false) + x, b.head, PrintedItems(b.tail, false) + y);
      ItemsSplit(a.tail, x, b.tail, y, false);
    }
  }

  /** What is written for a field and what follows it, after the comma if there is one. */
  function FieldText(f: Fields, x: Units): Units
    requires f.Field?
  {
    Quoted(f.key) + ([COLON] + (Printed(f.value) + (PrintedFields(f.rest, false) + x)))
  }

  lemma FieldStep(f: Fields, x: Units, first: bool)
    requires f.Field?
    ensures PrintedFields(f, first) + x == (if first then [] else [COMMA]) + FieldText(f, x)
  {
    hide Printed, Quoted;
    var comma: Units := if first then [] else [COMMA];
    assert PrintedFields(f, first) == comma + Quoted(f.key) + [COLON] + Printed(f.value) + PrintedFields(f.rest, false);
  }

  lemma {:induction false} FieldTextSplits(a: Fields, x: Units, b: Fields, y: Units)
    requires a.Field? && b.Field? && FieldText(a, x) == FieldText(b, y)
    ensures a == b && x == y
    decreases a, 0
  {
    hide Printed, Quoted, PrintedFields;
    var restA, restB := PrintedFields(a.rest, false) + x, PrintedFields(b.rest, false) + y;
    var valueA, valueB := Printed(a.value) + restA, Printed(b.value) + restB;
    QuotedSplits(a.key, [COLON] + valueA, b.key, [COLON] + valueB);
    assert ([COLON] + valueA)[1..] == valueA && ([COLON] + valueB)[1..] == valueB;
    PrintedFieldsStart(a.rest);
    PrintedFieldsStart(b.rest);
    PrintedSplits(a.value, restA, b.value, restB);
    FieldsSplit(a.rest, x, b.rest, y, false);
  }

  lemma {:induction false} FieldsSplit(a: Fields, x: Units, b: Fields, y: Units, first: bool)
    requires PrintedFields(a, first) + x == PrintedFields(b, first) + y
    ensures a == b && x == y
    decreases a, 1
  {
    PrintedFieldsStart(a);
    PrintedFieldsStart(b);
    var s, t := PrintedFields(a, first) + x, PrintedFields(b, first) + y;
    assert s[0] == PrintedFields(a, first)[0] && t[0] == PrintedFields(b, first)[0];
    if a.NoMore? {
      assert s[1..] == x && t[1..] == y;
    } else {
      hide FieldText, PrintedFields;
      FieldStep(a, x, first);
      FieldStep(b, y, first);
      var k := if first then 0 else 1;
      assert s[k..] == FieldText(a, x) && t[k..] == FieldText(b, y);
      FieldTextSplits(a, x, b, y);
    }
  }

  lemma PrintedInjective(v: Value, w: Value)
    requires Printed(v) == Printed(w)
    ensures v == w
  {
    assert Printed(v) + [] == Printed(v) && Printed(w) + [] == Printed(w);
    PrintedSplits(v, [], w, []);
  }

  // ---- the text is well formed, so that encoding it loses nothing ------------------------------------------

  /** Every surrogate stands in a pair. */
  predicate WellFormed(s: Units)
    decreases s
  {
    if s == [] then true
    else if PairAhead(s) then WellFormed(s[2..])
    else !IsHigh(s[0]) && !IsLow(s[0]) && WellFormed(s[1..])
  }

  lemma {:induction false} WellFormedTogether(a: Units, b: Units)
    requires WellFormed(a) && WellFormed(b)
    ensures WellFormed(a + b)
    decreases a
  {
    if a == [] {
      assert a + b == b;
    } else if PairAhead(a) {
      assert (a + b)[2..] == a[2..] + b;
      WellFormedTogether(a[2..], b);
    } else {
      assert (a + b)[1..] == a[1..] + b;
      WellFormedTogether(a[1..], b);
    }
  }

  lemma {:induction false} PlainIsWellFormed(s: Units)
    requires forall i :: 0 <= i < |s| ==> s[i] < 0xD800
    ensures WellFormed(s)
    decreases s
  {
    if s != [] {
      PlainIsWellFormed(s[1..]);
    }
  }

  lemma {:induction false} EscapedIsWellFormed(s: Units)
    ensures WellFormed(Escaped(s))
    decreases s
  {
    if s != [] {
      if PairAhead(s) {
        EscapedIsWellFormed(s[2..]);
        assert [s[0], s[1]][2..] == [];
        WellFormedTogether([s[0], s[1]], Escaped(s[2..]));
      } else {
        EscapedIsWellFormed(s[1..]);
        EscapedUnitIsWellFormed(s[0]);
        WellFormedTogether(EscapedUnit(s[0]), Escaped(s[1..]));
      }
    }
  }

  lemma EscapedUnitIsWellFormed(u: Unit)
    ensures WellFormed(EscapedUnit(u))
  {
    if |EscapedUnit(u)| > 1 {
      PlainIsWellFormed(EscapedUnit(u));
    } else {
      assert EscapedUnit(u)[1..] == [];
    }
  }

  lemma QuotedIsWellFormed(s: Units)
    ensures WellFormed(Quoted(s))
  {
    EscapedIsWellFormed(s);
    PlainIsWellFormed([QUOTE]);
    WellFormedTogether([QUOTE], Escaped(s));
    WellFormedTogether([QUOTE] + Escaped(s), [QUOTE]);
  }

  lemma {:induction false} PrintedIsWellFormed(v: Value)
    ensures WellFormed(Printed(v))
    decreases v
  {
    match v
    case Bool(_) => PlainIsWellFormed(Printed(v));
    case Number(n) => PlainIsWellFormed(Numeral(n));
    case String(units) => QuotedIsWellFormed(units);
    case Array(items) =>
      ItemsAreWellFormed(items, true);
      PlainIsWellFormed([91]);
      WellFormedTogether([91], PrintedItems(items, true));
    case Object(fields) =>
      FieldsAreWellFormed(fields, true);
      PlainIsWellFormed([123]);
      WellFormedTogether([123], PrintedFields(fields, true));
  }

  lemma {:induction false} ItemsAreWellFormed(items: Items, first: bool)
    ensures WellFormed(PrintedItems(items, first))
    decreases items
  {
    if items.Nil? {
      PlainIsWellFormed([93]);
    } else {
      var comma: Units := if first then [] else [COMMA];
      PlainIsWellFormed(comma);
      PrintedIsWellFormed(items.head);
      ItemsAreWellFormed(items.tail, false);
      WellFormedTogether(comma, Printed(items.head));
      WellFormedTogether(comma + Printed(items.head), PrintedItems(items.tail, false));
    }
  }

  lemma {:induction false} FieldsAreWellFormed(fields: Fields, first: bool)
    ensures WellFormed(PrintedFields(fields, first))
    decreases fields
  {
    if fields.NoMore? {
      PlainIsWellFormed([125]);
    } else {
      var comma: Units := if first then [] else [COMMA];
      PlainIsWellFormed(comma);
      PlainIsWellFormed([COLON]);
      QuotedIsWellFormed(fields.key);
      PrintedIsWellFormed(fields.value);
      FieldsAreWellFormed(fields.rest, false);
      WellFormedTogether(comma, Quoted(fields.key));
      WellFormedTogether(comma + Quoted(fields.key), [COLON]);
      WellFormedTogether(comma + Quoted(fields.key) + [COLON], Printed(fields.value));
      WellFormedTogether(comma + Quoted(fields.key) + [COLON] + Printed(fields.value), PrintedFields(fields.rest, false));
    }
  }

  // ---- and it is what RFC 8259 reads -------------------------------------------------------------------

  /** The unit that a two-character escape stands for. */
  function Meant(letter: Unit): Option<Unit> {
    match letter
    case 34 => Some(34)
    case 92 => Some(92)
    case 47 => Some(47)
    case 98 => Some(8)
    case 102 => Some(12)
    case 110 => Some(10)
    case 114 => Some(13)
    case 116 => Some(9)
    case _ => None
  }

  function HexValue(u: Unit): Option<nat> {
    if 48 <= u <= 57 then Some(u - 48)
    else if 65 <= u <= 70 then Some(u - 55)
    else if 97 <= u <= 102 then Some(u - 87)
    else None
  }

  /** The unit that four hexadecimal digits stand for. */
  function HexUnit(a: Unit, b: Unit, c: Unit, d: Unit): Option<Unit> {
    match (HexValue(a), HexValue(b), HexValue(c), HexValue(d))
    case (Some(w), Some(x), Some(y), Some(z)) => if w < 16 && x < 16 && y < 16 && z < 16 then Some(4096 * w + 256 * x + 16 * y + z) else None
    case _ => None
  }

  datatype Reading = Broken | Whole(units: Units, rest: Units)

  function Ahead(u: Unit, r: Reading): Reading {
    if r.Whole? then Whole([u] + r.units, r.rest) else Broken
  }

  /** A string's units up to its closing quote, and what follows it, by the grammar of section 7 of RFC 8259. */
  function Read(s: Units): Reading
    decreases s
  {
    if s == [] then Broken
    else if s[0] == QUOTE then Whole([], s[1..])
    else if s[0] < 32 then Broken
    else if s[0] != BACKSLASH then Ahead(s[0], Read(s[1..]))
    else if |s| >= 6 && s[1] == 117 && HexUnit(s[2], s[3], s[4], s[5]).Some? then Ahead(HexUnit(s[2], s[3], s[4], s[5]).value, Read(s[6..]))
    else if |s| >= 2 && Meant(s[1]).Some? then Ahead(Meant(s[1]).value, Read(s[2..]))
    else Broken
  }

  lemma HexIsRead(u: Unit)
    ensures HexUnit(Hex4(u)[0], Hex4(u)[1], Hex4(u)[2], Hex4(u)[3]) == Some(u)
  {
    HexParts(u);
  }

  lemma UnitIsRead(u: Unit, x: Units)
    ensures Read(EscapedUnit(u) + x) == Ahead(u, Read(x))
  {
    var s := EscapedUnit(u) + x;
    assert s[|EscapedUnit(u)|..] == x;
    if |EscapedUnit(u)| == 6 {
      HexIsRead(u);
      assert s[2] == Hex4(u)[0] && s[3] == Hex4(u)[1] && s[4] == Hex4(u)[2] && s[5] == Hex4(u)[3];
    }
    hide Hex4, HexUnit;
  }

  /** Every string, lone surrogates included, is read back from what is written for it, up to where it ends. */
  lemma {:induction false} StringsAreReadBack(s: Units, x: Units)
    ensures Read(Escaped(s) + [QUOTE] + x) == Whole(s, x)
    decreases s
  {
    hide EscapedUnit;
    if s == [] {
      assert Escaped(s) + [QUOTE] + x == [QUOTE] + x;
    } else if PairAhead(s) {
      StringsAreReadBack(s[2..], x);
      PairStep(s, x);
      var t := Escaped(s) + [QUOTE] + x;
      assert t[1..][1..] == t[2..];
      assert s == [s[0]] + ([s[1]] + s[2..]);
    } else {
      StringsAreReadBack(s[1..], x);
      UnitStep(s, x);
      UnitIsRead(s[0], Escaped(s[1..]) + [QUOTE] + x);
      assert s == [s[0]] + s[1..];
    }
  }
}
