/** The canonical JSON printer behind content-addressed clip ids, and a parser
    for the grammar of sections 3 to 7 of RFC 8259 without white space. */
module CanonicalJson {
  import opened Options
  import Sorting

  /** Strings are sequences of UTF-16 code units. */
  type CodeUnit = u: int | 0 <= u < 0x10000
  type Text = seq<CodeUnit>

  /** A tree without undefined; its numbers are finite. */
  datatype Json<N> =
    | Null | Bool(b: bool) | Num(n: N) | Str(s: Text) | Arr(items: seq<Json<N>>) | Obj(fields: seq<Field<N>>)
  datatype Field<N> = Field(key: Text, value: Json<N>)

  const QUOTE: CodeUnit := 0x22
  const COMMA: CodeUnit := 0x2C
  const COLON: CodeUnit := 0x3A
  const BACKSLASH: CodeUnit := 0x5C
  const OPEN_ARRAY: CodeUnit := 0x5B
  const CLOSE_ARRAY: CodeUnit := 0x5D
  const OPEN_OBJECT: CodeUnit := 0x7B
  const CLOSE_OBJECT: CodeUnit := 0x7D
  const LETTER_U: CodeUnit := 0x75

  const NULL_TEXT: Text := [0x6E, 0x75, 0x6C, 0x6C]
  const TRUE_TEXT: Text := [0x74, 0x72, 0x75, 0x65]
  const FALSE_TEXT: Text := [0x66, 0x61, 0x6C, 0x73, 0x65]

  /** Digits, signs, the point and the exponent mark. */
  predicate NumeralUnit(u: CodeUnit) {
    0x30 <= u <= 0x39 || u == 0x2D || u == 0x2B || u == 0x2E || u == 0x45 || u == 0x65
  }

  predicate NumeralStart(u: CodeUnit) {
    0x30 <= u <= 0x39 || u == 0x2D
  }

  /** How numbers are written and read back. */
  datatype Numerals<!N(!new)> = Numerals(write: N -> Text, read: Text -> Option<N>)
  {
    ghost predicate Lawful() {
      forall n: N :: Written(write(n)) && read(write(n)) == Some(n)
    }
  }

  predicate Written(t: Text) {
    t != [] && NumeralStart(t[0]) && forall i :: 0 <= i < |t| ==> NumeralUnit(t[i])
  }

  // ---------- strings ----------

  type Nibble = d: int | 0 <= d < 16

  function HexDigit(d: Nibble): CodeUnit {
    if d < 10 then 0x30 + d else 0x61 + d - 10
  }

  function HexValue(u: CodeUnit): Option<Nibble> {
    if 0x30 <= u <= 0x39 then Some(u - 0x30)
    else if 0x61 <= u <= 0x66 then Some(u - 0x61 + 10)
    else if 0x41 <= u <= 0x46 then Some(u - 0x41 + 10)
    else None
  }

  function UnicodeEscape(u: CodeUnit): Text {
    [BACKSLASH, LETTER_U, HexDigit(u / 0x1000), HexDigit(u / 0x100 % 0x10), HexDigit(u / 0x10 % 0x10),
      HexDigit(u % 0x10)]
  }

  predicate HighSurrogate(u: CodeUnit) {
    0xD800 <= u <= 0xDBFF
  }

  predicate LowSurrogate(u: CodeUnit) {
    0xDC00 <= u <= 0xDFFF
  }

  /** The two-character escapes: what follows the backslash. */
  function ShortEscape(u: CodeUnit): Option<CodeUnit> {
    if u == QUOTE then Some(QUOTE)
    else if u == BACKSLASH then Some(BACKSLASH)
    else if u == 0x08 then Some(0x62)
    else if u == 0x0C then Some(0x66)
    else if u == 0x0A then Some(0x6E)
    else if u == 0x0D then Some(0x72)
    else if u == 0x09 then Some(0x74)
    else None
  }

  function ShortMeaning(u: CodeUnit): Option<CodeUnit> {
    if u == QUOTE || u == BACKSLASH || u == 0x2F then Some(u)
    else if u == 0x62 then Some(0x08)
    else if u == 0x66 then Some(0x0C)
    else if u == 0x6E then Some(0x0A)
    else if u == 0x72 then Some(0x0D)
    else if u == 0x74 then Some(0x09)
    else None
  }

  /** One code unit on its own, not as half of a surrogate pair. */
  function EscapeUnit(u: CodeUnit): Text {
    match ShortEscape(u)
    case Some(e) => [BACKSLASH, e]
    case None => if u < 0x20 || HighSurrogate(u) || LowSurrogate(u) then UnicodeEscape(u) else [u]
  }

  function Escape(s: Text): Text {
    if s == [] then []
    else if HighSurrogate(s[0]) && |s| > 1 && LowSurrogate(s[1]) then [s[0], s[1]] + Escape(s[2..])
    else EscapeUnit(s[0]) + Escape(s[1..])
  }

  function Quote(s: Text): Text {
    [QUOTE] + Escape(s) + [QUOTE]
  }

  /** Section 7: the characters of a string up to its closing quote. */
  function ParseChars(t: Text): (r: Option<(Text, Text)>)
    ensures r.Some? ==> |r.value.1| < |t|
  {
    if t == [] then None
    else if t[0] == QUOTE then Some(([], t[1..]))
    else
      var (u, rest) := ParseChar(t);
      if u.None? then None
      else
        match ParseChars(rest)
        case None => None
        case Some((s, end)) => Some(([u.value] + s, end))
  }

  /** One character of a string: raw, or escaped. */
  function ParseChar(t: Text): (r: (Option<CodeUnit>, Text))
    requires t != []
    ensures |r.1| < |t|
  {
    if t[0] == BACKSLASH then
      if |t| >= 2 && t[1] == LETTER_U then
        if |t| >= 6 then (HexUnit(t[2], t[3], t[4], t[5]), t[6..]) else (None, [])
      else if |t| >= 2 then (ShortMeaning(t[1]), t[2..])
      else (None, [])
    else if t[0] < 0x20 then (None, t[1..])
    else (Some(t[0]), t[1..])
  }

  function HexUnit(a: CodeUnit, b: CodeUnit, c: CodeUnit, d: CodeUnit): Option<CodeUnit> {
    var w, x, y, z := HexValue(a), HexValue(b), HexValue(c), HexValue(d);
    if w.None? || x.None? || y.None? || z.None? then None
    else Some(FourNibbles(w.value, x.value, y.value, z.value))
  }

  function FourNibbles(a: Nibble, b: Nibble, c: Nibble, d: Nibble): CodeUnit {
    ((a * 16 + b) * 16 + c) * 16 + d
  }

  lemma NibblesOf(u: CodeUnit)
    ensures FourNibbles(u / 0x1000, u / 0x100 % 0x10, u / 0x10 % 0x10, u % 0x10) == u
  {
    assert u / 0x10 / 0x10 == u / 0x100 && u / 0x100 / 0x10 == u / 0x1000;
  }

  // ---------- printing ----------

  /** A printed field, still with its key. */
  datatype Printed = Printed(key: Text, text: Text)

  /** Default string order: by code units, a prefix first. */
  predicate KeyLe(a: Text, b: Text) {
    a == [] || (b != [] && (a[0] < b[0] || (a[0] == b[0] && KeyLe(a[1..], b[1..]))))
  }

  predicate PrintedLe(a: Printed, b: Printed) {
    KeyLe(a.key, b.key)
  }

  function Join(parts: seq<Text>): Text {
    if parts == [] then [] else if |parts| == 1 then parts[0] else parts[0] + [COMMA] + Join(parts[1..])
  }

  function Entry(p: Printed): Text {
    Quote(p.key) + [COLON] + p.text
  }

  function Entries(ps: seq<Printed>): seq<Text> {
    if ps == [] then [] else [Entry(ps[0])] + Entries(ps[1..])
  }

  /** The canonical printer: the fields of every object in key order. */
  function Canonicalize<N(!new)>(num: Numerals<N>, v: Json<N>): Text
    decreases v, 1
  {
    match v
    case Null => NULL_TEXT
    case Bool(b) => if b then TRUE_TEXT else FALSE_TEXT
    case Num(n) => num.write(n)
    case Str(s) => Quote(s)
    case Arr(items) => [OPEN_ARRAY] + Join(CanonicalItems(num, items)) + [CLOSE_ARRAY]
    case Obj(fields) =>
      [OPEN_OBJECT] + Join(Entries(Sorting.StableSort(CanonicalFields(num, fields), PrintedLe))) + [CLOSE_OBJECT]
  }

  function CanonicalItems<N(!new)>(num: Numerals<N>, items: seq<Json<N>>): seq<Text>
    decreases items, 0
  {
    if items == [] then [] else [Canonicalize(num, items[0])] + CanonicalItems(num, items[1..])
  }

  function CanonicalFields<N(!new)>(num: Numerals<N>, fields: seq<Field<N>>): (r: seq<Printed>)
    ensures |r| == |fields|
    decreases fields, 0
  {
    if fields == [] then []
    else [Printed(fields[0].key, Canonicalize(num, fields[0].value))] + CanonicalFields(num, fields[1..])
  }

  /** A printer that keeps the fields as they come. */
  function Plain<N(!new)>(num: Numerals<N>, v: Json<N>): Text
    decreases v, 1
  {
    match v
    case Null => NULL_TEXT
    case Bool(b) => if b then TRUE_TEXT else FALSE_TEXT
    case Num(n) => num.write(n)
    case Str(s) => Quote(s)
    case Arr(items) => [OPEN_ARRAY] + Join(PlainItems(num, items)) + [CLOSE_ARRAY]
    case Obj(fields) => [OPEN_OBJECT] + Join(Entries(PlainFields(num, fields))) + [CLOSE_OBJECT]
  }

  function PlainItems<N(!new)>(num: Numerals<N>, items: seq<Json<N>>): seq<Text>
    decreases items, 0
  {
    if items == [] then [] else [Plain(num, items[0])] + PlainItems(num, items[1..])
  }

  function PlainFields<N(!new)>(num: Numerals<N>, fields: seq<Field<N>>): (r: seq<Printed>)
    ensures |r| == |fields|
    decreases fields, 0
  {
    if fields == [] then []
    else [Printed(fields[0].key, Plain(num, fields[0].value))] + PlainFields(num, fields[1..])
  }

  // ---------- parsing ----------

  function ParseValue<N(!new)>(num: Numerals<N>, t: Text): (r: Option<(Json<N>, Text)>)
    ensures r.Some? ==> |r.value.1| < |t|
    decreases |t|, 0
  {
    if t == [] then None
    else if NULL_TEXT <= t then Some((Null, t[4..]))
    else if TRUE_TEXT <= t then Some((Bool(true), t[4..]))
    else if FALSE_TEXT <= t then Some((Bool(false), t[5..]))
    else if t[0] == QUOTE then
      match ParseChars(t[1..])
      case None => None
      case Some((s, rest)) => Some((Str(s), rest))
    else if t[0] == OPEN_ARRAY then
      if |t| > 1 && t[1] == CLOSE_ARRAY then Some((Arr([]), t[2..]))
      else
        match ParseElements(num, t[1..])
        case None => None
        case Some((items, rest)) => Some((Arr(items), rest))
    else if t[0] == OPEN_OBJECT then
      if |t| > 1 && t[1] == CLOSE_OBJECT then Some((Obj([]), t[2..]))
      else
        match ParseMembers(num, t[1..])
        case None => None
        case Some((fields, rest)) => Some((Obj(fields), rest))
    else if NumeralStart(t[0]) then
      var k := NumeralLength(t);
      match num.read(t[..k])
      case None => None
      case Some(n) => Some((Num(n), t[k..]))
    else None
  }

  function NumeralLength(t: Text): (k: nat)
    ensures k <= |t|
    ensures t != [] && NumeralUnit(t[0]) ==> 0 < k
  {
    if t == [] || !NumeralUnit(t[0]) then 0 else 1 + NumeralLength(t[1..])
  }

  /** Section 5: one or more values up to the closing bracket. */
  function ParseElements<N(!new)>(num: Numerals<N>, t: Text): (r: Option<(seq<Json<N>>, Text)>)
    ensures r.Some? ==> |r.value.1| < |t|
    decreases |t|, 1
  {
    match ParseValue(num, t)
    case None => None
    case Some((v, rest)) =>
      if rest == [] then None
      else if rest[0] == CLOSE_ARRAY then Some(([v], rest[1..]))
      else if rest[0] == COMMA then
        match ParseElements(num, rest[1..])
        case None => None
        case Some((vs, end)) => Some(([v] + vs, end))
      else None
  }

  /** Section 4: one or more members up to the closing brace. */
  function ParseMembers<N(!new)>(num: Numerals<N>, t: Text): (r: Option<(seq<Field<N>>, Text)>)
    ensures r.Some? ==> |r.value.1| < |t|
    decreases |t|, 1
  {
    if t == [] || t[0] != QUOTE then None
    else
      match ParseChars(t[1..])
      case None => None
      case Some((key, afterKey)) =>
        if afterKey == [] || afterKey[0] != COLON then None
        else
          match ParseValue(num, afterKey[1..])
          case None => None
          case Some((v, rest)) =>
            if rest == [] then None
            else if rest[0] == CLOSE_OBJECT then Some(([Field(key, v)], rest[1..]))
            else if rest[0] == COMMA then
              match ParseMembers(num, rest[1..])
              case None => None
              case Some((fields, end)) => Some(([Field(key, v)] + fields, end))
            else None
  }

  /** A text that is one value and nothing else. */
  function Parse<N(!new)>(num: Numerals<N>, t: Text): Option<Json<N>> {
    match ParseValue(num, t)
    case None => None
    case Some((v, rest)) => if rest == [] then Some(v) else None
  }

  // ---------- strings come back ----------

  lemma HexDigits(d: Nibble)
    ensures HexValue(HexDigit(d)) == Some(d)
  {
  }

  lemma HexComesBack(u: CodeUnit)
    ensures HexUnit(HexDigit(u / 0x1000), HexDigit(u / 0x100 % 0x10), HexDigit(u / 0x10 % 0x10), HexDigit(u % 0x10))
         == Some(u)
  {
    hide HexValue, HexDigit, FourNibbles;
    NibblesOf(u);
    HexDigits(u / 0x1000);
    HexDigits(u / 0x100 % 0x10);
    HexDigits(u / 0x10 % 0x10);
    HexDigits(u % 0x10);
  }

  lemma UnitComesBack(u: CodeUnit, tail: Text)
    ensures (EscapeUnit(u) + tail)[0] != QUOTE
    ensures ParseChar(EscapeUnit(u) + tail) == (Some(u), tail)
  {
    var t := EscapeUnit(u) + tail;
    match ShortEscape(u)
    case Some(e) =>
      assert t[0] == BACKSLASH && t[1] == e && t[2..] == tail;
    case None =>
      if u < 0x20 || HighSurrogate(u) || LowSurrogate(u) {
        HexComesBack(u);
        assert t[0] == BACKSLASH && t[1] == LETTER_U && t[6..] == tail;
      } else {
        assert t[0] == u && t[1..] == tail;
      }
  }

  lemma RawComesBack(u: CodeUnit, tail: Text)
    requires HighSurrogate(u) || LowSurrogate(u)
    ensures ParseChar([u] + tail) == (Some(u), tail)
  {
  }

  /** One character, then the rest of the string. */
  lemma OneMore(u: CodeUnit, t: Text, s: Text, tail: Text, rest: Text)
    requires t != [] && t[0] != QUOTE && ParseChar(t) == (Some(u), tail)
    requires ParseChars(tail) == Some((s, rest))
    ensures ParseChars(t) == Some(([u] + s, rest))
  {
  }

  /** Every string, lone surrogates and control characters included, is read
      back from its quoted form. */
  lemma {:induction false} StringComesBack(s: Text, rest: Text)
    ensures ParseChars(Escape(s) + [QUOTE] + rest) == Some((s, rest))
  {
    hide ParseChar, EscapeUnit;
    var t := Escape(s) + [QUOTE] + rest;
    if s == [] {
      assert t[0] == QUOTE && t[1..] == rest;
    } else if HighSurrogate(s[0]) && |s| > 1 && LowSurrogate(s[1]) {
      StringComesBack(s[2..], rest);
      var u := Escape(s[2..]) + [QUOTE] + rest;
      RawComesBack(s[1], u);
      OneMore(s[1], [s[1]] + u, s[2..], u, rest);
      RawComesBack(s[0], [s[1]] + u);
      OneMore(s[0], [s[0]] + ([s[1]] + u), [s[1]] + s[2..], [s[1]] + u, rest);
      assert t == [s[0]] + ([s[1]] + u);
      assert s == [s[0]] + ([s[1]] + s[2..]);
    } else {
      StringComesBack(s[1..], rest);
      var u := Escape(s[1..]) + [QUOTE] + rest;
      assert t == EscapeUnit(s[0]) + u;
      UnitComesBack(s[0], u);
      OneMore(s[0], t, s[1..], u, rest);
      assert s == [s[0]] + s[1..];
    }
  }

  // ---------- values come back ----------

  /** What may follow a value: nothing, or something no numeral goes on with. */
  predicate Follows(rest: Text) {
    rest == [] || !NumeralUnit(rest[0])
  }

  lemma {:induction false} NumeralEnds(t: Text, rest: Text)
    requires forall i :: 0 <= i < |t| ==> NumeralUnit(t[i])
    requires Follows(rest)
    ensures NumeralLength(t + rest) == |t|
  {
    if t == [] {
      assert t + rest == rest;
    } else {
      NumeralEnds(t[1..], rest);
      assert (t + rest)[1..] == t[1..] + rest;
    }
  }

  /** No value starts like the end of an array or an object. */
  lemma PlainStart<N(!new)>(num: Numerals<N>, v: Json<N>)
    requires num.Lawful()
    ensures Plain(num, v) != [] && Plain(num, v)[0] != CLOSE_ARRAY
  {
    if v.Num? {
      assert Written(num.write(v.n));
    }
  }

  lemma NumberComesBack<N(!new)>(num: Numerals<N>, n: N, rest: Text)
    requires num.Lawful() && Follows(rest)
    ensures ParseValue(num, num.write(n) + rest) == Some((Num(n), rest))
  {
    var w := num.write(n);
    assert Written(w) && num.read(w) == Some(n);
    NumeralEnds(w, rest);
    var t := w + rest;
    assert t[0] == w[0];
    assert t[..|w|] == w && t[|w|..] == rest;
  }

  lemma QuotedComesBack<N(!new)>(num: Numerals<N>, s: Text, rest: Text)
    ensures ParseValue(num, Quote(s) + rest) == Some((Str(s), rest))
  {
    StringComesBack(s, rest);
    var t := Quote(s) + rest;
    assert t[0] == QUOTE && t[1..] == Escape(s) + [QUOTE] + rest;
  }

  /** Reading undoes printing, whatever follows. */
  lemma {:induction false} ValueComesBack<N(!new)>(num: Numerals<N>, v: Json<N>, rest: Text)
    requires num.Lawful() && Follows(rest)
    ensures ParseValue(num, Plain(num, v) + rest) == Some((v, rest))
    decreases v, 1
  {
    hide ParseElements, ParseMembers, ParseChars;
    var t := Plain(num, v) + rest;
    match v
    case Null =>
      assert t[..4] == NULL_TEXT && t[4..] == rest;
    case Bool(b) =>
      var w := if b then TRUE_TEXT else FALSE_TEXT;
      assert t[0] == w[0] && t[..|w|] == w && t[|w|..] == rest;
    case Num(n) =>
      NumberComesBack(num, n, rest);
    case Str(s) =>
      QuotedComesBack(num, s, rest);
    case Arr(items) =>
      ArrayComesBack(num, items, rest);
    case Obj(fields) =>
      ObjectComesBack(num, fields, rest);
  }

  lemma {:induction false} ArrayComesBack<N(!new)>(num: Numerals<N>, items: seq<Json<N>>, rest: Text)
    requires num.Lawful()
    ensures ParseValue(num, [OPEN_ARRAY] + Join(PlainItems(num, items)) + [CLOSE_ARRAY] + rest) ==
      Some((Arr(items), rest))
    decreases items, 1
  {
    hide ParseElements;
    var inner := Join(PlainItems(num, items)) + [CLOSE_ARRAY] + rest;
    var t := [OPEN_ARRAY] + Join(PlainItems(num, items)) + [CLOSE_ARRAY] + rest;
    assert t[0] == OPEN_ARRAY && t[1..] == inner;
    if items == [] {
      assert inner == [CLOSE_ARRAY] + rest;
      assert t[2..] == rest;
    } else {
      ItemsComeBack(num, items, rest);
      JoinStart(num, items);
      assert t[1] == inner[0];
    }
  }

  lemma {:induction false} ObjectComesBack<N(!new)>(num: Numerals<N>, fields: seq<Field<N>>, rest: Text)
    requires num.Lawful()
    ensures ParseValue(num, [OPEN_OBJECT] + Join(Entries(PlainFields(num, fields))) + [CLOSE_OBJECT] + rest)
         == Some((Obj(fields), rest))
    decreases fields, 1
  {
    hide ParseMembers;
    var inner := Join(Entries(PlainFields(num, fields))) + [CLOSE_OBJECT] + rest;
    var t := [OPEN_OBJECT] + Join(Entries(PlainFields(num, fields))) + [CLOSE_OBJECT] + rest;
    assert t[0] == OPEN_OBJECT && t[1..] == inner;
    if fields == [] {
      assert inner == [CLOSE_OBJECT] + rest;
      assert t[2..] == rest;
    } else {
      FieldsComeBack(num, fields, rest);
      assert t[1] == inner[0];
    }
  }

  lemma JoinStart<N(!new)>(num: Numerals<N>, items: seq<Json<N>>)
    requires num.Lawful() && items != []
    ensures Join(PlainItems(num, items)) != [] && Join(PlainItems(num, items))[0] != CLOSE_ARRAY
  {
    PlainStart(num, items[0]);
  }

  lemma {:induction false} ItemsComeBack<N(!new)>(num: Numerals<N>, items: seq<Json<N>>, rest: Text)
    requires num.Lawful() && items != []
    ensures ParseElements(num, Join(PlainItems(num, items)) + [CLOSE_ARRAY] + rest) == Some((items, rest))
    decreases items, 0
  {
    hide Plain, ParseValue;
    var first := Plain(num, items[0]);
    var t := Join(PlainItems(num, items)) + [CLOSE_ARRAY] + rest;
    if |items| == 1 {
      ValueComesBack(num, items[0], [CLOSE_ARRAY] + rest);
      assert PlainItems(num, items) == [first] + PlainItems(num, []) == [first];
      assert t == first + ([CLOSE_ARRAY] + rest);
      assert items == [items[0]];
    } else {
      var more := Join(PlainItems(num, items[1..])) + [CLOSE_ARRAY] + rest;
      ValueComesBack(num, items[0], [COMMA] + more);
      ItemsComeBack(num, items[1..], rest);
      assert PlainItems(num, items)[1..] == PlainItems(num, items[1..]);
      SplitJoin(first, Join(PlainItems(num, items[1..])), [CLOSE_ARRAY], rest);
      assert items == [items[0]] + items[1..];
    }
  }

  lemma SplitJoin(first: Text, others: Text, close: Text, rest: Text)
    ensures (first + [COMMA] + others) + close + rest == first + ([COMMA] + (others + close + rest))
    ensures ([COMMA] + (others + close + rest))[1..] == others + close + rest
  {
  }

  lemma EntriesSplit<N(!new)>(num: Numerals<N>, fields: seq<Field<N>>)
    requires fields != []
    ensures
      var first := Entry(Printed(fields[0].key, Plain(num, fields[0].value)));
      Join(Entries(PlainFields(num, fields)))
      == if |fields| == 1 then first else first + [COMMA] + Join(Entries(PlainFields(num, fields[1..])))
  {
    hide Plain, Entry;
    var ps := PlainFields(num, fields);
    assert ps[1..] == PlainFields(num, fields[1..]);
    assert Entries(ps)[1..] == Entries(ps[1..]);
    EntriesLength(ps);
  }

  lemma {:induction false} FieldsComeBack<N(!new)>(num: Numerals<N>, fields: seq<Field<N>>, rest: Text)
    requires num.Lawful() && fields != []
    ensures
      var t := Join(Entries(PlainFields(num, fields))) + [CLOSE_OBJECT] + rest;
      t[0] == QUOTE && ParseMembers(num, t) == Some((fields, rest))
    decreases fields, 0
  {
    hide Plain, PlainFields, Entry, Entries, Join, ParseValue, ParseChars;
    var t := Join(Entries(PlainFields(num, fields))) + [CLOSE_OBJECT] + rest;
    var f := fields[0];
    var first := Entry(Printed(f.key, Plain(num, f.value)));
    EntriesSplit(num, fields);
    if |fields| == 1 {
      assert t == first + ([CLOSE_OBJECT] + rest);
      FieldComesBack(num, f, [CLOSE_OBJECT] + rest, t);
      assert fields == [f];
    } else {
      var others := Join(Entries(PlainFields(num, fields[1..])));
      var more := others + [CLOSE_OBJECT] + rest;
      FieldsComeBack(num, fields[1..], rest);
      SplitJoin(first, others, [CLOSE_OBJECT], rest);
      FieldComesBack(num, f, [COMMA] + more, t);
      assert fields == [f] + fields[1..];
    }
  }

  lemma EntriesLength(ps: seq<Printed>)
    ensures |Entries(ps)| == |ps|
  {
  }

  /** One field is read back up to what follows its value. */
  lemma FieldComesBack<N(!new)>(num: Numerals<N>, f: Field<N>, after: Text, t: Text)
    requires num.Lawful() && Follows(after) && after != []
    requires t == Entry(Printed(f.key, Plain(num, f.value))) + after
    ensures t[0] == QUOTE
    ensures ParseChars(t[1..]).Some?
    ensures
      var (key, rest) := ParseChars(t[1..]).value;
      key == f.key && rest != [] && rest[0] == COLON && ParseValue(num, rest[1..]) == Some((f.value, after))
    decreases f, 2
  {
    hide Plain, ParseValue, ParseChars, Escape;
    var text := Plain(num, f.value);
    StringComesBack(f.key, [COLON] + text + after);
    assert t[1..] == Escape(f.key) + [QUOTE] + ([COLON] + text + after);
    ValueComesBack(num, f.value, after);
    assert ([COLON] + text + after)[1..] == text + after;
  }

  // ---------- the canonical form ----------

  predicate FieldLe<N>(a: Field<N>, b: Field<N>) {
    KeyLe(a.key, b.key)
  }

  /** The tree with the fields of every object in key order. */
  function Norm<N>(v: Json<N>): Json<N>
    decreases v, 1
  {
    match v
    case Arr(items) => Arr(NormItems(items))
    case Obj(fields) => Obj(Sorting.StableSort(NormFields(fields), FieldLe))
    case _ => v
  }

  function NormItems<N>(items: seq<Json<N>>): (r: seq<Json<N>>)
    ensures |r| == |items|
    decreases items, 0
  {
    if items == [] then [] else [Norm(items[0])] + NormItems(items[1..])
  }

  function NormFields<N>(fields: seq<Field<N>>): (r: seq<Field<N>>)
    ensures |r| == |fields|
    decreases fields, 0
  {
    if fields == [] then [] else [Field(fields[0].key, Norm(fields[0].value))] + NormFields(fields[1..])
  }

  lemma {:induction false} NormItemsAt<N>(items: seq<Json<N>>, i: nat)
    requires i < |items|
    ensures NormItems(items)[i] == Norm(items[i])
  {
    if i > 0 {
      NormItemsAt(items[1..], i - 1);
    }
  }

  lemma {:induction false} NormFieldsAt<N>(fields: seq<Field<N>>, i: nat)
    requires i < |fields|
    ensures NormFields(fields)[i] == Field(fields[i].key, Norm(fields[i].value))
  {
    if i > 0 {
      NormFieldsAt(fields[1..], i - 1);
    }
  }

  function PrintField<N(!new)>(num: Numerals<N>, f: Field<N>): Printed {
    Printed(f.key, Plain(num, f.value))
  }

  lemma {:induction false} PlainFieldsAt<N(!new)>(num: Numerals<N>, fields: seq<Field<N>>, i: nat)
    requires i < |fields|
    ensures PlainFields(num, fields)[i] == PrintField(num, fields[i])
  {
    hide Plain;
    if i > 0 {
      PlainFieldsAt(num, fields[1..], i - 1);
    }
  }

  lemma PrintedTogether<N(!new)>(num: Numerals<N>, s: seq<Field<N>>, x: Field<N>)
    ensures PlainFields(num, s + [x]) == PlainFields(num, s) + [PrintField(num, x)]
  {
    hide Plain, PlainFields, PrintField;
    forall i | 0 <= i < |s| + 1
      ensures PlainFields(num, s + [x])[i] == (PlainFields(num, s) + [PrintField(num, x)])[i]
    {
      PlainFieldsAt(num, s + [x], i);
      if i < |s| {
        PlainFieldsAt(num, s, i);
      }
    }
  }

  lemma {:induction false} InsertThenPrint<N(!new)>(num: Numerals<N>, s: seq<Field<N>>, x: Field<N>)
    ensures Sorting.Insert(PlainFields(num, s), PrintField(num, x), PrintedLe)
         == PlainFields(num, Sorting.Insert(s, x, FieldLe))
  {
    hide Plain, PlainFields, KeyLe;
    PrintedTogether(num, s, x);
    if s == [] {
      assert s + [x] == [x];
      assert PlainFields(num, s) == [];
    } else {
      var n := |s| - 1;
      assert s == s[..n] + [s[n]];
      PrintedTogether(num, s[..n], s[n]);
      assert PlainFields(num, s)[..n] == PlainFields(num, s[..n]);
      if !FieldLe(s[n], x) {
        InsertThenPrint(num, s[..n], x);
        PrintedTogether(num, Sorting.Insert(s[..n], x, FieldLe), s[n]);
      }
    }
  }

  /** Sorting printed fields is printing sorted fields. */
  lemma {:induction false} SortThenPrint<N(!new)>(num: Numerals<N>, s: seq<Field<N>>)
    ensures Sorting.StableSort(PlainFields(num, s), PrintedLe) == PlainFields(num, Sorting.StableSort(s, FieldLe))
  {
    hide Plain, PlainFields, KeyLe;
    if s == [] {
      assert PlainFields(num, s) == [] && Sorting.StableSort(s, FieldLe) == s;
    } else {
      var n := |s| - 1;
      assert s == s[..n] + [s[n]];
      PrintedTogether(num, s[..n], s[n]);
      assert PlainFields(num, s)[..n] == PlainFields(num, s[..n]);
      SortThenPrint(num, s[..n]);
      InsertThenPrint(num, Sorting.StableSort(s[..n], FieldLe), s[n]);
    }
  }

  /** The canonical printer prints the canonical form. */
  lemma {:induction false} CanonicalIsPlainNorm<N(!new)>(num: Numerals<N>, v: Json<N>)
    ensures Canonicalize(num, v) == Plain(num, Norm(v))
    decreases v, 1
  {
    match v
    case Arr(items) => ItemsCanonical(num, items);
    case Obj(fields) =>
      FieldsCanonical(num, fields);
      SortThenPrint(num, NormFields(fields));
    case _ =>
  }

  lemma {:induction false} ItemsCanonical<N(!new)>(num: Numerals<N>, items: seq<Json<N>>)
    ensures CanonicalItems(num, items) == PlainItems(num, NormItems(items))
    decreases items, 0
  {
    hide Canonicalize, Plain, Norm;
    if items != [] {
      CanonicalIsPlainNorm(num, items[0]);
      ItemsCanonical(num, items[1..]);
      assert NormItems(items)[1..] == NormItems(items[1..]);
    }
  }

  lemma {:induction false} FieldsCanonical<N(!new)>(num: Numerals<N>, fields: seq<Field<N>>)
    ensures CanonicalFields(num, fields) == PlainFields(num, NormFields(fields))
    decreases fields, 0
  {
    hide Canonicalize, Plain, Norm;
    if fields != [] {
      CanonicalIsPlainNorm(num, fields[0].value);
      FieldsCanonical(num, fields[1..]);
      assert NormFields(fields)[1..] == NormFields(fields[1..]);
    }
  }

  /** Parsing what the canonical printer wrote gives the tree with its keys
      sorted. */
  lemma CanonicalRoundTrip<N(!new)>(num: Numerals<N>, v: Json<N>)
    requires num.Lawful()
    ensures Parse(num, Canonicalize(num, v)) == Some(Norm(v))
  {
    CanonicalIsPlainNorm(num, v);
    ValueComesBack(num, Norm(v), []);
    assert Plain(num, Norm(v)) + [] == Plain(num, Norm(v));
  }

  // ---------- equality up to key order ----------

  /** The keys of an object are pairwise different, as in every JavaScript
      object. */
  ghost predicate DistinctKeys<N>(fields: seq<Field<N>>) {
    forall i, j :: 0 <= i < j < |fields| ==> fields[i].key != fields[j].key
  }

  ghost predicate ProperObjects<N>(v: Json<N>)
    decreases v
  {
    match v
    case Arr(items) => forall i :: 0 <= i < |items| ==> ProperObjects(items[i])
    case Obj(fields) => DistinctKeys(fields) && forall i :: 0 <= i < |fields| ==> ProperObjects(fields[i].value)
    case _ => true
  }

  /** Equal but for the order of the fields of objects, at every depth. */
  ghost predicate SameUpToKeyOrder<N(!new)>(v: Json<N>, w: Json<N>)
    decreases v, 1
  {
    match v
    case Arr(items) =>
      w.Arr? && |w.items| == |items| && forall i :: 0 <= i < |items| ==> SameUpToKeyOrder(items[i], w.items[i])
    case Obj(fields) =>
      w.Obj? && |w.fields| == |fields| && forall i :: 0 <= i < |fields| ==> HasField(w.fields, fields[i])
    case _ => v == w
  }

  ghost predicate HasField<N(!new)>(fields: seq<Field<N>>, f: Field<N>)
    decreases f, 2
  {
    exists j :: 0 <= j < |fields| && fields[j].key == f.key && SameUpToKeyOrder(f.value, fields[j].value)
  }

  lemma {:induction false} KeyLeTotal(a: Text, b: Text)
    ensures KeyLe(a, b) || KeyLe(b, a)
    ensures KeyLe(a, b) && KeyLe(b, a) ==> a == b
  {
    if a != [] && b != [] {
      KeyLeTotal(a[1..], b[1..]);
      assert a == [a[0]] + a[1..] && b == [b[0]] + b[1..];
    }
  }

  lemma {:induction false} KeyLeTransitive(a: Text, b: Text, c: Text)
    requires KeyLe(a, b) && KeyLe(b, c)
    ensures KeyLe(a, c)
  {
    if a != [] && a[0] == b[0] == c[0] {
      KeyLeTransitive(a[1..], b[1..], c[1..]);
    }
  }

  lemma FieldOrder<N(!new)>()
    ensures Sorting.TotalOrder(FieldLe<N>)
  {
    forall a: Field<N>, b: Field<N>
      ensures FieldLe(a, b) || FieldLe(b, a)
    {
      KeyLeTotal(a.key, b.key);
    }
    forall a: Field<N>, b: Field<N>, c: Field<N> | FieldLe(a, b) && FieldLe(b, c)
      ensures FieldLe(a, c)
    {
      KeyLeTransitive(a.key, b.key, c.key);
    }
  }

  /** Sorting the fields of two objects gives the same list exactly when they
      have the same fields. */
  lemma SortedAlike<N(!new)>(f: seq<Field<N>>, g: seq<Field<N>>)
    requires DistinctKeys(f) && DistinctKeys(g)
    ensures Sorting.StableSort(f, FieldLe) == Sorting.StableSort(g, FieldLe)
        <==> |f| == |g| && forall x :: x in f ==> x in g
  {
    var s, r := Sorting.StableSort(f, FieldLe), Sorting.StableSort(g, FieldLe);
    Sorting.MemberOfSort(f, FieldLe);
    Sorting.MemberOfSort(g, FieldLe);
    if |f| == |g| && forall x :: x in f ==> x in g {
      Sorting.SameMembers(f, g);
      FieldOrder<N>();
      Sorting.StableSortSorted(f, FieldLe);
      Sorting.StableSortSorted(g, FieldLe);
      forall a, b | a in s && b in s && FieldLe(a, b) && FieldLe(b, a)
        ensures a == b
      {
        KeyLeTotal(a.key, b.key);
        assert a in f && b in f;
      }
      Sorting.SortedUnique(s, r, FieldLe);
    }
  }

  lemma NormKeepsKeys<N>(fields: seq<Field<N>>)
    requires DistinctKeys(fields)
    ensures DistinctKeys(NormFields(fields))
  {
    forall i, j | 0 <= i < j < |fields|
      ensures NormFields(fields)[i].key != NormFields(fields)[j].key
    {
      NormFieldsAt(fields, i);
      NormFieldsAt(fields, j);
    }
  }

  /** Two trees have one canonical form exactly when they are equal up to key
      order. */
  lemma {:induction false} NormDecides<N(!new)>(v: Json<N>, w: Json<N>)
    requires ProperObjects(v) && ProperObjects(w)
    ensures Norm(v) == Norm(w) <==> SameUpToKeyOrder(v, w)
    decreases v
  {
    match v
    case Arr(items) =>
      if w.Arr? {
        ItemsDecide(items, w.items);
      }
    case Obj(fields) =>
      if w.Obj? {
        NormKeepsKeys(fields);
        NormKeepsKeys(w.fields);
        SortedAlike(NormFields(fields), NormFields(w.fields));
        FieldsDecide(fields, w.fields);
      }
    case _ =>
  }

  lemma {:induction false} ItemsDecide<N(!new)>(f: seq<Json<N>>, g: seq<Json<N>>)
    requires forall i :: 0 <= i < |f| ==> ProperObjects(f[i])
    requires forall i :: 0 <= i < |g| ==> ProperObjects(g[i])
    ensures NormItems(f) == NormItems(g) <==> |f| == |g| && forall i :: 0 <= i < |f| ==> SameUpToKeyOrder(f[i], g[i])
    decreases f
  {
    hide Norm, SameUpToKeyOrder, NormItems, ProperObjects;
    if |f| == |g| {
      forall i | 0 <= i < |f|
        ensures NormItems(f)[i] == NormItems(g)[i] <==> SameUpToKeyOrder(f[i], g[i])
      {
        NormItemsAt(f, i);
        NormItemsAt(g, i);
        NormDecides(f[i], g[i]);
      }
    }
  }

  lemma {:induction false} FieldsDecide<N(!new)>(f: seq<Field<N>>, g: seq<Field<N>>)
    requires forall i :: 0 <= i < |f| ==> ProperObjects(f[i].value)
    requires forall i :: 0 <= i < |g| ==> ProperObjects(g[i].value)
    ensures (forall x :: x in NormFields(f) ==> x in NormFields(g)) <==> forall i :: 0 <= i < |f| ==> HasField(g, f[i])
    decreases f
  {
    forall i | 0 <= i < |f|
      ensures NormFields(f)[i] in NormFields(g) <==> HasField(g, f[i])
    {
      NormFieldsAt(f, i);
      forall j | 0 <= j < |g|
        ensures NormFields(f)[i] == NormFields(g)[j] <==>
          f[i].key == g[j].key && SameUpToKeyOrder(f[i].value, g[j].value)
      {
        NormFieldsAt(g, j);
        NormDecides(f[i].value, g[j].value);
      }
    }
    forall i | 0 <= i < |f|
      ensures NormFields(f)[i] in NormFields(f)
    {
    }
  }

  /** Two trees print the same exactly when they are equal up to key order. */
  lemma SameTextSameTree<N(!new)>(num: Numerals<N>, v: Json<N>, w: Json<N>)
    requires num.Lawful() && ProperObjects(v) && ProperObjects(w)
    ensures Canonicalize(num, v) == Canonicalize(num, w) <==> SameUpToKeyOrder(v, w)
  {
    CanonicalRoundTrip(num, v);
    CanonicalRoundTrip(num, w);
    CanonicalIsPlainNorm(num, v);
    CanonicalIsPlainNorm(num, w);
    NormDecides(v, w);
  }

  ghost predicate KeysAscend<N>(v: Json<N>)
    decreases v
  {
    match v
    case Arr(items) => forall i :: 0 <= i < |items| ==> KeysAscend(items[i])
    case Obj(fields) => Sorting.Sorted(fields, FieldLe) && forall i :: 0 <= i < |fields| ==> KeysAscend(fields[i].value)
    case _ => true
  }

  /** The canonical form is the same tree with ascending keys throughout. */
  lemma {:induction false} NormSortsKeys<N(!new)>(v: Json<N>)
    ensures KeysAscend(Norm(v)) && SameUpToKeyOrder(v, Norm(v))
    decreases v
  {
    match v
    case Arr(items) =>
      forall i | 0 <= i < |items|
        ensures KeysAscend(NormItems(items)[i]) && SameUpToKeyOrder(items[i], NormItems(items)[i])
      {
        NormItemsAt(items, i);
        NormSortsKeys(items[i]);
      }
    case Obj(fields) =>
      var sorted := Sorting.StableSort(NormFields(fields), FieldLe);
      FieldOrder<N>();
      Sorting.StableSortSorted(NormFields(fields), FieldLe);
      Sorting.MemberOfSort(NormFields(fields), FieldLe);
      forall i | 0 <= i < |fields|
        ensures HasField(sorted, fields[i]) && KeysAscend(NormFields(fields)[i].value)
      {
        NormFieldsAt(fields, i);
        NormSortsKeys(fields[i].value);
        assert NormFields(fields)[i] in sorted;
      }
      forall i | 0 <= i < |sorted|
        ensures KeysAscend(sorted[i].value)
      {
        assert sorted[i] in NormFields(fields);
      }
    case _ =>
  }

  // ---------- the text can be encoded ----------

  /** No surrogate stands alone, so the UTF-8 encoding that is hashed loses
      nothing. */
  predicate WellFormed(t: Text) {
    t == []
    || (HighSurrogate(t[0]) && |t| > 1 && LowSurrogate(t[1]) && WellFormed(t[2..]))
    || (!HighSurrogate(t[0]) && !LowSurrogate(t[0]) && WellFormed(t[1..]))
  }

  lemma {:induction false} WellFormedTogether(a: Text, b: Text)
    requires WellFormed(a) && WellFormed(b)
    ensures WellFormed(a + b)
  {
    if a == [] {
      assert a + b == b;
    } else if HighSurrogate(a[0]) {
      WellFormedTogether(a[2..], b);
      assert (a + b)[2..] == a[2..] + b;
    } else {
      WellFormedTogether(a[1..], b);
      assert (a + b)[1..] == a[1..] + b;
    }
  }

  lemma {:induction false} NoSurrogates(t: Text)
    requires forall i :: 0 <= i < |t| ==> !HighSurrogate(t[i]) && !LowSurrogate(t[i])
    ensures WellFormed(t)
  {
    if t != [] {
      NoSurrogates(t[1..]);
    }
  }

  lemma {:induction false} EscapeWellFormed(s: Text)
    ensures WellFormed(Escape(s))
  {
    if s == [] {
    } else if HighSurrogate(s[0]) && |s| > 1 && LowSurrogate(s[1]) {
      EscapeWellFormed(s[2..]);
      assert Escape(s)[2..] == Escape(s[2..]);
    } else {
      EscapeWellFormed(s[1..]);
      NoSurrogates(EscapeUnit(s[0]));
      WellFormedTogether(EscapeUnit(s[0]), Escape(s[1..]));
    }
  }

  lemma QuoteWellFormed(s: Text)
    ensures WellFormed(Quote(s))
  {
    EscapeWellFormed(s);
    NoSurrogates([QUOTE]);
    WellFormedTogether([QUOTE], Escape(s));
    WellFormedTogether([QUOTE] + Escape(s), [QUOTE]);
  }

  lemma {:induction false} JoinWellFormed(parts: seq<Text>)
    requires forall i :: 0 <= i < |parts| ==> WellFormed(parts[i])
    ensures WellFormed(Join(parts))
  {
    if |parts| > 1 {
      JoinWellFormed(parts[1..]);
      NoSurrogates([COMMA]);
      WellFormedTogether(parts[0], [COMMA]);
      WellFormedTogether(parts[0] + [COMMA], Join(parts[1..]));
    }
  }

  lemma Enclosed(open: CodeUnit, inner: Text, close: CodeUnit)
    requires !HighSurrogate(open) && !LowSurrogate(open) && !HighSurrogate(close) && !LowSurrogate(close)
    requires WellFormed(inner)
    ensures WellFormed([open] + inner + [close])
  {
    NoSurrogates([open]);
    NoSurrogates([close]);
    WellFormedTogether([open], inner);
    WellFormedTogether([open] + inner, [close]);
  }

  lemma EntryWellFormed(p: Printed)
    requires WellFormed(p.text)
    ensures WellFormed(Entry(p))
  {
    QuoteWellFormed(p.key);
    NoSurrogates([COLON]);
    WellFormedTogether(Quote(p.key), [COLON]);
    WellFormedTogether(Quote(p.key) + [COLON], p.text);
  }

  lemma {:induction false} PlainWellFormed<N(!new)>(num: Numerals<N>, v: Json<N>)
    requires num.Lawful()
    ensures WellFormed(Plain(num, v))
    decreases v, 1
  {
    hide WellFormed;
    match v
    case Null => NoSurrogates(NULL_TEXT);
    case Bool(b) => NoSurrogates(if b then TRUE_TEXT else FALSE_TEXT);
    case Num(n) =>
      assert Written(num.write(n));
      NoSurrogates(num.write(n));
    case Str(s) => QuoteWellFormed(s);
    case Arr(items) =>
      ItemsWellFormed(num, items);
      JoinWellFormed(PlainItems(num, items));
      Enclosed(OPEN_ARRAY, Join(PlainItems(num, items)), CLOSE_ARRAY);
    case Obj(fields) =>
      FieldsWellFormed(num, fields);
      JoinWellFormed(Entries(PlainFields(num, fields)));
      Enclosed(OPEN_OBJECT, Join(Entries(PlainFields(num, fields))), CLOSE_OBJECT);
  }

  lemma {:induction false} ItemsWellFormed<N(!new)>(num: Numerals<N>, items: seq<Json<N>>)
    requires num.Lawful()
    ensures forall i :: 0 <= i < |PlainItems(num, items)| ==> WellFormed(PlainItems(num, items)[i])
    decreases items, 0
  {
    hide WellFormed, Plain;
    if items != [] {
      PlainWellFormed(num, items[0]);
      ItemsWellFormed(num, items[1..]);
    }
  }

  lemma {:induction false} FieldsWellFormed<N(!new)>(num: Numerals<N>, fields: seq<Field<N>>)
    requires num.Lawful()
    ensures forall i :: 0 <= i < |Entries(PlainFields(num, fields))| ==>
      WellFormed(Entries(PlainFields(num, fields))[i])
    decreases fields, 0
  {
    hide WellFormed, Plain, Entry;
    if fields != [] {
      PlainWellFormed(num, fields[0].value);
      FieldsWellFormed(num, fields[1..]);
      assert PlainFields(num, fields)[1..] == PlainFields(num, fields[1..]);
      EntryWellFormed(Printed(fields[0].key, Plain(num, fields[0].value)));
    }
  }

  lemma CanonicalWellFormed<N(!new)>(num: Numerals<N>, v: Json<N>)
    requires num.Lawful()
    ensures WellFormed(Canonicalize(num, v))
  {
    CanonicalIsPlainNorm(num, v);
    PlainWellFormed(num, Norm(v));
  }
}
