/** Python literals for JSON-like data (`src/logos_bridge/codegen/text.py`, `py_str`, `_escape_char`,
`_inline`, `py_literal`) and how Python reads them. Text is a sequence of code points. */
module PyLiteral {
  import opened Wrappers

  type Point = x: int | 0 <= x < 0x11_0000

  type Text = seq<Point>

  /** A dictionary is its entries in order. */
  datatype Data =
    | NoneValue
    | Boolean(b: bool)
    | Integer(n: int)
    | String(text: Text)
    | Array(items: seq<Data>)
    | Tuple(elements: seq<Data>)
    | Object(entries: seq<Entry>)

  datatype Entry = Entry(key: Text, value: Data)

  function Ascii(s: string): (t: Text)
    requires forall i :: 0 <= i < |s| ==> s[i] < 128 as char
    ensures |t| == |s| && forall i :: 0 <= i < |s| ==> t[i] == s[i] as int
  {
    seq(|s|, i requires 0 <= i < |s| => s[i] as int)
  }

  // ---------------------------------------------------------------- escapes

  const QUOTE: Point := 0x22
  const BACKSLASH: Point := 0x5c

  /** `_needs_escape`: controls, invisible formatting, separators, surrogates. */
  predicate NeedsEscape(p: Point) {
    || 0 <= p <= 0x1f || 0x7f <= p <= 0x9f || p == 0xad || 0x200b <= p <= 0x200f || 0x2028 <= p <= 0x202e
    || 0x2060 <= p <= 0x206f || p == 0xfeff || 0xd800 <= p <= 0xdfff || 0xfff9 <= p <= 0xfffb
  }

  function HexDigit(d: int): Point
    requires 0 <= d < 16
  {
    if d < 10 then 0x30 + d else 0x61 + d - 10
  }

  predicate IsHexDigit(p: Point) {
    0x30 <= p <= 0x39 || 0x61 <= p <= 0x66
  }

  function HexValue(p: Point): (d: int)
    requires IsHexDigit(p)
    ensures 0 <= d < 16
  {
    if p <= 0x39 then p - 0x30 else p - 0x61 + 10
  }

  function Power16(e: nat): nat {
    if e == 0 then 1 else 16 * Power16(e - 1)
  }

  /** Exactly `width` digits. */
  function Hex(n: nat, width: nat): (t: Text)
    ensures |t| == width && forall i :: 0 <= i < width ==> IsHexDigit(t[i])
  {
    if width == 0 then [] else Hex(n / 16, width - 1) + [HexDigit(n % 16)]
  }

  function Unhex(t: Text): nat
    requires forall i :: 0 <= i < |t| ==> IsHexDigit(t[i])
  {
    if t == [] then 0 else 16 * Unhex(t[..|t| - 1]) + HexValue(t[|t| - 1])
  }

  lemma {:induction false} HexBack(n: nat, width: nat)
    requires n < Power16(width)
    ensures Unhex(Hex(n, width)) == n
  {
    if width > 0 {
      HexBack(n / 16, width - 1);
      var t := Hex(n, width);
      assert t[..width - 1] == Hex(n / 16, width - 1);
    }
  }

  function Escape(p: Point): Text {
    if p == BACKSLASH then [BACKSLASH, BACKSLASH]
    else if p == 0x0a then [BACKSLASH, 0x6e]
    else if p == 0x0d then [BACKSLASH, 0x72]
    else if p == 0x09 then [BACKSLASH, 0x74]
    else if p <= 0xff then [BACKSLASH, 0x78] + Hex(p, 2)
    else if p <= 0xffff then [BACKSLASH, 0x75] + Hex(p, 4)
    else [BACKSLASH, 0x55] + Hex(p, 8)
  }

  /** One character of `py_str`. */
  function Quoted(p: Point): Text {
    if p == QUOTE then [BACKSLASH, QUOTE]
    else if p == BACKSLASH || p == 0x0a || p == 0x0d || p == 0x09 || NeedsEscape(p) then Escape(p)
    else [p]
  }

  function Body(t: Text): Text {
    if t == [] then [] else Quoted(t[0]) + Body(t[1..])
  }

  /** `py_str`. */
  function PyStr(t: Text): Text {
    [QUOTE] + Body(t) + [QUOTE]
  }

  lemma Associate(a: Text, b: Text, c: Text)
    ensures a + (b + c) == a + b + c
  {
  }

  /** The loop of `py_str`. */
  method PrintStr(t: Text) returns (out: Text)
    ensures out == PyStr(t)
  {
    out := [QUOTE];
    for i := 0 to |t|
      invariant out + Body(t[i..]) == [QUOTE] + Body(t)
    {
      assert t[i..][1..] == t[i + 1..];
      Associate(out, Quoted(t[i]), Body(t[i + 1..]));
      out := out + Quoted(t[i]);
    }
    assert t[|t|..] == [] && out + [] == out;
    out := out + [QUOTE];
  }

  // ---------------------------------------------------------------- numbers

  predicate IsDigit(p: Point) {
    0x30 <= p <= 0x39
  }

  function Decimal(n: nat): (t: Text)
    ensures t != [] && forall i :: 0 <= i < |t| ==> IsDigit(t[i])
  {
    if n < 10 then [0x30 + n] else Decimal(n / 10) + [0x30 + n % 10]
  }

  function Undecimal(t: Text): nat
    requires forall i :: 0 <= i < |t| ==> IsDigit(t[i])
  {
    if t == [] then 0
    else
      assert IsDigit(t[|t| - 1]);
      10 * Undecimal(t[..|t| - 1]) + (t[|t| - 1] as int - 0x30)
  }

  lemma {:induction false} DecimalBack(n: nat)
    ensures Undecimal(Decimal(n)) == n
  {
    var t := Decimal(n);
    if n < 10 {
      assert t[..0] == [];
    } else {
      DecimalBack(n / 10);
      assert t[..|t| - 1] == Decimal(n / 10);
    }
  }

  function PyInt(n: int): Text {
    if n < 0 then [0x2d] + Decimal(-n) else Decimal(n)
  }

  // ---------------------------------------------------------------- one line

  const NONE := Ascii("None")
  const TRUE := Ascii("True")
  const FALSE := Ascii("False")

  function Inline(v: Data): Text
    decreases v, 1
  {
    match v
    case NoneValue => NONE
    case Boolean(b) => if b then TRUE else FALSE
    case Integer(n) => PyInt(n)
    case String(text) => PyStr(text)
    case Array(items) => [0x5b] + InlineItems(items) + [0x5d]
    case Tuple(items) => [0x5b] + InlineItems(items) + [0x5d]
    case Object(entries) => [0x7b] + InlineEntries(entries) + [0x7d]
  }

  function InlineItems(items: seq<Data>): Text
    decreases items, 0
  {
    if items == [] then []
    else if |items| == 1 then Inline(items[0])
    else Inline(items[0]) + [0x2c, 0x20] + InlineItems(items[1..])
  }

  function InlineEntry(e: Entry): Text
    decreases e, 2
  {
    PyStr(e.key) + [0x3a, 0x20] + Inline(e.value)
  }

  function InlineEntries(entries: seq<Entry>): Text
    decreases entries, 0
  {
    if entries == [] then []
    else if |entries| == 1 then InlineEntry(entries[0])
    else InlineEntry(entries[0]) + [0x2c, 0x20] + InlineEntries(entries[1..])
  }

  // ---------------------------------------------------------------- one entry per line

  function Spaces(n: nat): Text {
    seq(n, _ => 0x20)
  }

  predicate HasEntries(v: Data) {
    (v.Array? && v.items != []) || (v.Tuple? && v.elements != []) || (v.Object? && v.entries != [])
  }

  /** `py_literal`; `column` is where the literal starts. */
  function Literal(v: Data, indent: nat, column: nat, width: int): Text
    decreases v, 1
  {
    var flat := Inline(v);
    if column + |flat| <= width || !HasEntries(v) then flat
    else
      match v
      case Array(items) => [0x5b] + Lines(items, indent + 4, width - 1) + [0x0a] + Spaces(indent) + [0x5d]
      case Tuple(items) => [0x5b] + Lines(items, indent + 4, width - 1) + [0x0a] + Spaces(indent) + [0x5d]
      case Object(entries) => [0x7b] + EntryLines(entries, indent + 4, width - 1) + [0x0a] + Spaces(indent) + [0x7d]
      case _ => flat
  }

  /** A line break, and then each item on a line of its own with a comma. */
  function Lines(items: seq<Data>, pad: nat, width: int): Text
    decreases items, 0
  {
    if items == [] then []
    else [0x0a] + Spaces(pad) + Literal(items[0], pad, pad, width) + [0x2c] + Lines(items[1..], pad, width)
  }

  function Head(key: Text, pad: nat): Text {
    Spaces(pad) + PyStr(key) + [0x3a, 0x20]
  }

  function EntryLine(e: Entry, pad: nat, width: int): Text
    decreases e, 2
  {
    PyStr(e.key) + [0x3a, 0x20] + Literal(e.value, pad, |Head(e.key, pad)|, width)
  }

  function EntryLines(entries: seq<Entry>, pad: nat, width: int): Text
    decreases entries, 0
  {
    if entries == [] then []
    else [0x0a] + Spaces(pad) + EntryLine(entries[0], pad, width) + [0x2c] + EntryLines(entries[1..], pad, width)
  }

  // ---------------------------------------------------------------- how Python reads a literal

  predicate Blank(p: Point) {
    p == 0x20 || p == 0x0a
  }

  function SkipBlanks(s: Text): (r: Text)
    ensures |r| <= |s|
  {
    if s != [] && Blank(s[0]) then SkipBlanks(s[1..]) else s
  }

  predicate HexRun(s: Text, n: nat) {
    |s| >= n && forall i :: 0 <= i < n ==> IsHexDigit(s[i])
  }

  /** What follows a backslash. */
  function ReadEscape(s: Text): (r: Option<(Point, Text)>)
    ensures r.Some? ==> |r.value.1| < |s|
  {
    if s == [] then None
    else if s[0] == BACKSLASH || s[0] == QUOTE then Some((s[0], s[1..]))
    else if s[0] == 0x6e then Some((0x0a, s[1..]))
    else if s[0] == 0x72 then Some((0x0d, s[1..]))
    else if s[0] == 0x74 then Some((0x09, s[1..]))
    else
      var n := if s[0] == 0x78 then 2 else if s[0] == 0x75 then 4 else if s[0] == 0x55 then 8 else 0;
      if n > 0 && HexRun(s[1..], n) && Unhex(s[1..1 + n]) < 0x11_0000 then Some((Unhex(s[1..1 + n]), s[1 + n..])) else None
  }

  /** A string after its opening quote. */
  function ReadString(s: Text): (r: Option<(Text, Text)>)
    ensures r.Some? ==> |r.value.1| < |s|
    decreases |s|
  {
    if s == [] || s[0] == 0x0a || s[0] == 0x0d then None
    else if s[0] == QUOTE then Some(([], s[1..]))
    else if s[0] == BACKSLASH then
      var first := ReadEscape(s[1..]);
      if first.None? then None
      else
        var rest := ReadString(first.value.1);
        if rest.None? then None else Some(([first.value.0] + rest.value.0, rest.value.1))
    else
      var rest := ReadString(s[1..]);
      if rest.None? then None else Some(([s[0]] + rest.value.0, rest.value.1))
  }

  function DigitRun(s: Text): (n: nat)
    ensures n <= |s| && forall i :: 0 <= i < n ==> IsDigit(s[i])
    ensures n < |s| ==> !IsDigit(s[n])
  {
    if s != [] && IsDigit(s[0]) then 1 + DigitRun(s[1..]) else 0
  }

  function ReadNat(s: Text): (r: Option<(nat, Text)>)
    ensures r.Some? ==> |r.value.1| < |s|
  {
    var n := DigitRun(s);
    if n == 0 then None else Some((Undecimal(s[..n]), s[n..]))
  }

  function ReadWord(s: Text): (r: Option<(Data, Text)>)
    ensures r.Some? ==> |r.value.1| < |s|
  {
    if NONE <= s then Some((NoneValue, s[4..]))
    else if TRUE <= s then Some((Boolean(true), s[4..]))
    else if FALSE <= s then Some((Boolean(false), s[5..]))
    else None
  }

  function ReadValue(s: Text): (r: Option<(Data, Text)>)
    ensures r.Some? ==> |r.value.1| < |s|
    decreases |s|, 0
  {
    if s == [] then None
    else if s[0] == QUOTE then
      var t := ReadString(s[1..]);
      if t.None? then None else Some((String(t.value.0), t.value.1))
    else if s[0] == 0x5b then
      var t := ReadItems(s[1..]);
      if t.None? then None else Some((Array(t.value.0), t.value.1))
    else if s[0] == 0x7b then
      var t := ReadEntries(s[1..]);
      if t.None? then None else Some((Object(t.value.0), t.value.1))
    else if s[0] == 0x2d then
      var t := ReadNat(s[1..]);
      if t.None? then None else Some((Integer(-(t.value.0 as int)), t.value.1))
    else if IsDigit(s[0]) then
      var t := ReadNat(s);
      if t.None? then None else Some((Integer(t.value.0), t.value.1))
    else
      ReadWord(s)
  }

  /** The items of a list after its bracket; a comma may follow the last one. */
  function ReadItems(s: Text): (r: Option<(seq<Data>, Text)>)
    ensures r.Some? ==> |r.value.1| < |s|
    decreases |s|, 1
  {
    var t := SkipBlanks(s);
    if t == [] then None
    else if t[0] == 0x5d then Some(([], t[1..]))
    else
      var v := ReadValue(t);
      if v.None? then None
      else
        var u := SkipBlanks(v.value.1);
        if u == [] then None
        else if u[0] == 0x5d then Some(([v.value.0], u[1..]))
        else if u[0] != 0x2c then None
        else
          var more := ReadItems(u[1..]);
          if more.None? then None else Some(([v.value.0] + more.value.0, more.value.1))
  }

  function ReadEntry(s: Text): (r: Option<(Entry, Text)>)
    ensures r.Some? ==> |r.value.1| < |s|
    decreases |s|, 1
  {
    if s == [] || s[0] != QUOTE then None
    else
      var key := ReadString(s[1..]);
      if key.None? then None
      else
        var t := SkipBlanks(key.value.1);
        if t == [] || t[0] != 0x3a then None
        else
          var v := ReadValue(SkipBlanks(t[1..]));
          if v.None? then None else Some((Entry(key.value.0, v.value.0), v.value.1))
  }

  function ReadEntries(s: Text): (r: Option<(seq<Entry>, Text)>)
    ensures r.Some? ==> |r.value.1| < |s|
    decreases |s|, 2
  {
    var t := SkipBlanks(s);
    if t == [] then None
    else if t[0] == 0x7d then Some(([], t[1..]))
    else
      var e := ReadEntry(t);
      if e.None? then None
      else
        var u := SkipBlanks(e.value.1);
        if u == [] then None
        else if u[0] == 0x7d then Some(([e.value.0], u[1..]))
        else if u[0] != 0x2c then None
        else
          var more := ReadEntries(u[1..]);
          if more.None? then None else Some(([e.value.0] + more.value.0, more.value.1))
  }

  // ---------------------------------------------------------------- scalars come back

  lemma HexEscapeBack(letter: Point, width: nat, p: Point, s: Text)
    requires (letter == 0x78 && width == 2) || (letter == 0x75 && width == 4) || (letter == 0x55 && width == 8)
    requires p < Power16(width)
    ensures ReadEscape([letter] + Hex(p, width) + s) == Some((p, s))
  {
    HexBack(p, width);
    InTheMiddle(letter, Hex(p, width), s);
    var t := [letter] + Hex(p, width) + s;
    assert HexRun(t[1..], width);
  }

  lemma InTheMiddle(c: Point, h: Text, s: Text)
    ensures var t := [c] + h + s;
      t[0] == c && |t| == 1 + |h| + |s| && t[1..1 + |h|] == h && t[1 + |h|..] == s
  {
  }

  lemma Powers()
    ensures Power16(2) == 0x100 && Power16(4) == 0x1_0000 && Power16(8) == 0x1_0000_0000
  {
    assert Power16(2) == 0x100;
    assert Power16(3) == 0x1000;
    assert Power16(4) == 0x1_0000;
    assert Power16(5) == 0x10_0000;
    assert Power16(6) == 0x100_0000;
    assert Power16(7) == 0x1000_0000;
  }

  lemma EscapeBack(p: Point, s: Text)
    ensures Escape(p)[0] == BACKSLASH && |Escape(p)| >= 2
    ensures ReadEscape(Escape(p)[1..] + s) == Some((p, s))
  {
    Powers();
    if p == BACKSLASH || p == 0x0a || p == 0x0d || p == 0x09 {
      assert (Escape(p)[1..] + s)[1..] == s;
    } else {
      var width := if p <= 0xff then 2 else if p <= 0xffff then 4 else 8;
      var letter := if p <= 0xff then 0x78 else if p <= 0xffff then 0x75 else 0x55;
      HexEscapeBack(letter, width, p, s);
      assert Escape(p)[1..] == [letter] + Hex(p, width);
    }
  }

  lemma QuotedBack(p: Point, s: Text, t: Text, rest: Text)
    requires ReadString(s) == Some((t, rest))
    ensures ReadString(Quoted(p) + s) == Some(([p] + t, rest))
  {
    var q := Quoted(p) + s;
    if p == QUOTE {
      assert q[1..] == [QUOTE] + s;
      assert ([QUOTE] + s)[1..] == s;
    } else if p == BACKSLASH || p == 0x0a || p == 0x0d || p == 0x09 || NeedsEscape(p) {
      EscapeBack(p, s);
      assert q[1..] == Escape(p)[1..] + s;
    } else {
      assert q[1..] == s;
    }
  }

  /** Every escape inverts. */
  lemma {:induction false} StringBack(t: Text, rest: Text)
    ensures ReadString(Body(t) + [QUOTE] + rest) == Some((t, rest))
  {
    hide Quoted, ReadEscape;
    if t == [] {
      assert ([QUOTE] + rest)[1..] == rest;
      assert Body(t) + [QUOTE] + rest == [QUOTE] + rest;
    } else {
      StringBack(t[1..], rest);
      QuotedBack(t[0], Body(t[1..]) + [QUOTE] + rest, t[1..], rest);
      assert Body(t) + [QUOTE] + rest == Quoted(t[0]) + (Body(t[1..]) + [QUOTE] + rest);
      assert [t[0]] + t[1..] == t;
    }
  }

  predicate NoDigit(rest: Text) {
    rest == [] || !IsDigit(rest[0])
  }

  lemma {:induction false} DigitRunIs(a: Text, rest: Text)
    requires NoDigit(rest) && forall i :: 0 <= i < |a| ==> IsDigit(a[i])
    ensures DigitRun(a + rest) == |a|
  {
    if a == [] {
      assert a + rest == rest;
    } else {
      assert (a + rest)[1..] == a[1..] + rest;
      DigitRunIs(a[1..], rest);
    }
  }

  lemma NatBack(n: nat, rest: Text)
    requires NoDigit(rest)
    ensures ReadNat(Decimal(n) + rest) == Some((n, rest))
  {
    var t := Decimal(n);
    DigitRunIs(t, rest);
    DecimalBack(n);
    assert (t + rest)[..|t|] == t && (t + rest)[|t|..] == rest;
  }

  lemma ReadsNat(s: Text, n: nat, rest: Text)
    requires s != [] && IsDigit(s[0]) && ReadNat(s) == Some((n, rest))
    ensures ReadValue(s) == Some((Integer(n), rest))
  {
  }

  lemma ReadsMinus(s: Text, n: nat, rest: Text)
    requires ReadNat(s) == Some((n, rest))
    ensures ReadValue([0x2d] + s) == Some((Integer(-(n as int)), rest))
  {
    assert ([0x2d] + s)[1..] == s;
  }

  lemma IntBack(n: int, rest: Text)
    requires NoDigit(rest)
    ensures ReadValue(PyInt(n) + rest) == Some((Integer(n), rest))
  {
    if n < 0 {
      NatBack(-n, rest);
      ReadsMinus(Decimal(-n) + rest, -n, rest);
      assert PyInt(n) + rest == [0x2d] + (Decimal(-n) + rest);
    } else {
      NatBack(n, rest);
      ReadsNat(Decimal(n) + rest, n, rest);
    }
  }

  lemma WordBack(word: Text, rest: Text)
    requires word == NONE || word == TRUE || word == FALSE
    ensures ReadValue(word + rest) ==
      Some((if word == NONE then NoneValue else Boolean(word == TRUE), rest))
  {
    var s := word + rest;
    assert s[..|word|] == word && s[|word|..] == rest;
    assert NONE[0] == 0x4e && TRUE[0] == 0x54 && FALSE[0] == 0x46;
    assert s[0] == word[0];
  }

  lemma TextBack(t: Text, rest: Text)
    ensures ReadValue(PyStr(t) + rest) == Some((String(t), rest))
  {
    hide ReadString, Body, ReadEntries, ReadItems, ReadWord, ReadNat;
    StringBack(t, rest);
    assert (PyStr(t) + rest)[1..] == Body(t) + [QUOTE] + rest;
  }

  // ---------------------------------------------------------------- blanks

  lemma SkipOne(p: Point, s: Text)
    requires Blank(p)
    ensures SkipBlanks([p] + s) == SkipBlanks(s)
  {
    assert ([p] + s)[1..] == s;
  }

  lemma {:induction false} SkipSpaces(n: nat, s: Text)
    ensures SkipBlanks(Spaces(n) + s) == SkipBlanks(s)
  {
    if n == 0 {
      assert Spaces(0) + s == s;
    } else {
      assert Spaces(n) + s == [0x20] + (Spaces(n - 1) + s);
      SkipOne(0x20, Spaces(n - 1) + s);
      SkipSpaces(n - 1, s);
    }
  }

  lemma SkipLine(n: nat, s: Text)
    ensures SkipBlanks([0x0a] + Spaces(n) + s) == SkipBlanks(s)
  {
    assert [0x0a] + Spaces(n) + s == [0x0a] + (Spaces(n) + s);
    SkipOne(0x0a, Spaces(n) + s);
    SkipSpaces(n, s);
  }

  /** How a value's text begins. */
  predicate Opens(t: Text) {
    t != [] && !Blank(t[0]) && t[0] != 0x5d && t[0] != 0x7d
  }

  lemma InlineOpens(v: Data)
    ensures Opens(Inline(v))
  {
    assert NONE[0] == 0x4e && TRUE[0] == 0x54 && FALSE[0] == 0x46;
    match v
    case Integer(n) =>
      assert n >= 0 ==> IsDigit(Decimal(n)[0]);
    case _ =>
  }

  lemma LiteralOpens(v: Data, indent: nat, column: nat, width: int)
    ensures Opens(Literal(v, indent, column, width))
  {
    InlineOpens(v);
  }

  // ---------------------------------------------------------------- lists and dictionaries

  /** What Python makes of `v`: tuples were written as lists. */
  function Plain(v: Data): Data
    decreases v, 1
  {
    match v
    case Array(items) => Array(PlainItems(items))
    case Tuple(items) => Array(PlainItems(items))
    case Object(entries) => Object(PlainEntries(entries))
    case _ => v
  }

  function PlainItems(items: seq<Data>): seq<Data>
    decreases items, 0
  {
    if items == [] then [] else [Plain(items[0])] + PlainItems(items[1..])
  }

  function PlainEntries(entries: seq<Entry>): seq<Entry>
    decreases entries, 0
  {
    if entries == [] then [] else [Entry(entries[0].key, Plain(entries[0].value))] + PlainEntries(entries[1..])
  }

  // The four readers, guarded, so that the proofs below only pass their results on.

  ghost predicate ReadsValue(s: Text, v: Data, rest: Text) {
    forall k {:trigger Look(k)} :: Look(k) && k == 0 ==> ReadValue(s) == Some((v, rest))
  }

  ghost predicate ReadsItems(s: Text, vs: seq<Data>, rest: Text) {
    forall k {:trigger Look(k)} :: Look(k) && k == 1 ==> ReadItems(s) == Some((vs, rest))
  }

  ghost predicate ReadsEntry(s: Text, e: Entry, rest: Text) {
    forall k {:trigger Look(k)} :: Look(k) && k == 2 ==> ReadEntry(s) == Some((e, rest))
  }

  ghost predicate ReadsEntries(s: Text, es: seq<Entry>, rest: Text) {
    forall k {:trigger Look(k)} :: Look(k) && k == 3 ==> ReadEntries(s) == Some((es, rest))
  }

  lemma LastItem(text: Text, v: Data, close: Text, rest: Text)
    requires Opens(text) && SkipBlanks(close) == [0x5d] + rest && ReadsValue(text + close, v, close)
    ensures ReadsItems(text + close, [v], rest)
  {
    assert Look(0) && Look(1);
    assert ([0x5d] + rest)[1..] == rest;
  }

  lemma OneMoreItem(text: Text, v: Data, more: Text, vs: seq<Data>, rest: Text)
    requires Opens(text) && ReadsValue(text + ([0x2c] + more), v, [0x2c] + more)
    requires ReadsItems(more, vs, rest)
    ensures ReadsItems(text + ([0x2c] + more), [v] + vs, rest)
  {
    assert Look(0) && Look(1);
    assert ([0x2c] + more)[1..] == more;
  }

  lemma NoItems(close: Text, rest: Text)
    requires SkipBlanks(close) == [0x5d] + rest
    ensures ReadsItems(close, [], rest)
  {
    assert Look(1);
    assert ([0x5d] + rest)[1..] == rest;
  }

  lemma ItemsSkip(s: Text, t: Text)
    requires SkipBlanks(s) == SkipBlanks(t)
    ensures forall vs, rest :: ReadsItems(t, vs, rest) ==> ReadsItems(s, vs, rest)
  {
    assert Look(1);
  }

  lemma LastEntry(text: Text, e: Entry, close: Text, rest: Text)
    requires Opens(text) && SkipBlanks(close) == [0x7d] + rest && ReadsEntry(text + close, e, close)
    ensures ReadsEntries(text + close, [e], rest)
  {
    assert Look(2) && Look(3);
    assert ([0x7d] + rest)[1..] == rest;
  }

  lemma OneMoreEntry(text: Text, e: Entry, more: Text, es: seq<Entry>, rest: Text)
    requires Opens(text) && ReadsEntry(text + ([0x2c] + more), e, [0x2c] + more)
    requires ReadsEntries(more, es, rest)
    ensures ReadsEntries(text + ([0x2c] + more), [e] + es, rest)
  {
    assert Look(2) && Look(3);
    assert ([0x2c] + more)[1..] == more;
  }

  lemma NoEntries(close: Text, rest: Text)
    requires SkipBlanks(close) == [0x7d] + rest
    ensures ReadsEntries(close, [], rest)
  {
    assert Look(3);
    assert ([0x7d] + rest)[1..] == rest;
  }

  lemma EntriesSkip(s: Text, t: Text)
    requires SkipBlanks(s) == SkipBlanks(t)
    ensures forall es, rest :: ReadsEntries(t, es, rest) ==> ReadsEntries(s, es, rest)
  {
    assert Look(3);
  }

  lemma EntryReads(s: Text, key: Text, after: Text, value: Text, v: Data, rest: Text)
    requires s != [] && s[0] == QUOTE && ReadString(s[1..]) == Some((key, after))
    requires after != [] && after[0] == 0x3a && SkipBlanks(after[1..]) == value && ReadsValue(value, v, rest)
    ensures ReadsEntry(s, Entry(key, v), rest)
  {
    assert Look(0) && Look(2);
  }

  /** A key, a colon, and a value that comes back. */
  lemma EntryBack(key: Text, text: Text, v: Data, rest: Text)
    requires Opens(text) && ReadsValue(text + rest, v, rest)
    ensures ReadsEntry(PyStr(key) + [0x3a, 0x20] + text + rest, Entry(key, v), rest)
  {
    var s := PyStr(key) + [0x3a, 0x20] + text + rest;
    var after := [0x3a, 0x20] + text + rest;
    StringBack(key, after);
    KeySplits(key, text, rest);
    SkipOne(0x20, text + rest);
    EntryReads(s, key, after, text + rest, v, rest);
  }

  lemma KeySplits(key: Text, text: Text, rest: Text)
    ensures var s := PyStr(key) + [0x3a, 0x20] + text + rest; var after := [0x3a, 0x20] + text + rest;
      s != [] && s[0] == QUOTE && s[1..] == Body(key) + [QUOTE] + after && after[1..] == [0x20] + (text + rest)
  {
  }

  lemma ListBack(s: Text, items: seq<Data>, rest: Text)
    requires ReadsItems(s, items, rest)
    ensures ReadsValue([0x5b] + s, Array(items), rest)
  {
    assert Look(0) && Look(1);
    assert ([0x5b] + s)[1..] == s;
  }

  lemma ObjectBack(s: Text, entries: seq<Entry>, rest: Text)
    requires ReadsEntries(s, entries, rest)
    ensures ReadsValue([0x7b] + s, Object(entries), rest)
  {
    assert Look(0) && Look(3);
    assert ([0x7b] + s)[1..] == s;
  }

  // ---------------------------------------------------------------- one line comes back

  lemma {:induction false} InlineBack(v: Data, rest: Text)
    requires NoDigit(rest)
    ensures ReadsValue(Inline(v) + rest, Plain(v), rest)
    decreases v, 1
  {
    match v
    case NoneValue => NoneBack(rest);
    case Boolean(b) => BooleanBack(b, rest);
    case Integer(n) => IntegerBack(n, rest);
    case String(text) => QuotedTextBack(text, rest);
    case Array(items) => InlineListBack(items, Inline(v), rest);
    case Tuple(items) => InlineListBack(items, Inline(v), rest);
    case Object(entries) =>
      InlineEntriesBack(entries, rest);
      ObjectBack(InlineEntries(entries) + [0x7d] + rest, PlainEntries(entries), rest);
      assert Inline(v) + rest == [0x7b] + (InlineEntries(entries) + [0x7d] + rest);
  }

  lemma NoneBack(rest: Text)
    ensures ReadsValue(NONE + rest, NoneValue, rest)
  {
    assert Look(0);
    WordBack(NONE, rest);
  }

  lemma IntegerBack(n: int, rest: Text)
    requires NoDigit(rest)
    ensures ReadsValue(PyInt(n) + rest, Integer(n), rest)
  {
    assert Look(0);
    IntBack(n, rest);
  }

  lemma QuotedTextBack(t: Text, rest: Text)
    ensures ReadsValue(PyStr(t) + rest, String(t), rest)
  {
    assert Look(0);
    TextBack(t, rest);
  }

  lemma BooleanBack(b: bool, rest: Text)
    ensures ReadsValue((if b then TRUE else FALSE) + rest, Boolean(b), rest)
  {
    assert Look(0);
    WordBack(if b then TRUE else FALSE, rest);
    assert NONE[0] == 0x4e && TRUE[0] == 0x54 && FALSE[0] == 0x46;
  }

  lemma {:induction false} InlineListBack(items: seq<Data>, text: Text, rest: Text)
    requires NoDigit(rest) && text == [0x5b] + InlineItems(items) + [0x5d]
    ensures ReadsValue(text + rest, Array(PlainItems(items)), rest)
    decreases items, 2
  {
    InlineItemsBack(items, rest);
    ListBack(InlineItems(items) + [0x5d] + rest, PlainItems(items), rest);
    assert text + rest == [0x5b] + (InlineItems(items) + [0x5d] + rest);
  }

  lemma {:induction false} InlineItemsBack(items: seq<Data>, rest: Text)
    ensures ReadsItems(InlineItems(items) + [0x5d] + rest, PlainItems(items), rest)
    decreases items, 1
  {
    var close := [0x5d] + rest;
    if items == [] {
      NoItems(close, rest);
      assert InlineItems(items) + [0x5d] + rest == close;
    } else {
      InlineOpens(items[0]);
      if |items| == 1 {
        InlineBack(items[0], close);
        LastItem(Inline(items[0]), Plain(items[0]), close, rest);
        assert InlineItems(items) + [0x5d] + rest == Inline(items[0]) + close;
        assert PlainItems(items) == [Plain(items[0])];
      } else {
        var tail := InlineItems(items[1..]) + [0x5d] + rest;
        InlineItemsBack(items[1..], rest);
        SkipOne(0x20, tail);
        ItemsSkip([0x20] + tail, tail);
        InlineBack(items[0], [0x2c] + ([0x20] + tail));
        OneMoreItem(Inline(items[0]), Plain(items[0]), [0x20] + tail, PlainItems(items[1..]), rest);
        Joined(Inline(items[0]), InlineItems(items[1..]), [0x5d], rest);
      }
    }
  }

  lemma {:induction false} InlineEntryBack(e: Entry, rest: Text)
    requires NoDigit(rest)
    ensures ReadsEntry(InlineEntry(e) + rest, Entry(e.key, Plain(e.value)), rest)
    decreases e, 2
  {
    InlineOpens(e.value);
    InlineBack(e.value, rest);
    EntryBack(e.key, Inline(e.value), Plain(e.value), rest);
  }

  lemma Joined(a: Text, b: Text, close: Text, rest: Text)
    ensures a + [0x2c, 0x20] + b + close + rest == a + ([0x2c] + ([0x20] + (b + close + rest)))
  {
  }

  lemma OnLines(pad: Text, a: Text, b: Text, close: Text)
    ensures [0x0a] + pad + a + [0x2c] + b + close == [0x0a] + pad + (a + ([0x2c] + (b + close)))
  {
  }

  lemma {:induction false} InlineEntriesBack(entries: seq<Entry>, rest: Text)
    ensures ReadsEntries(InlineEntries(entries) + [0x7d] + rest, PlainEntries(entries), rest)
    decreases entries, 1
  {
    var close := [0x7d] + rest;
    if entries == [] {
      NoEntries(close, rest);
      assert InlineEntries(entries) + [0x7d] + rest == close;
    } else {
      var first := Entry(entries[0].key, Plain(entries[0].value));
      if |entries| == 1 {
        InlineEntryBack(entries[0], close);
        LastEntry(InlineEntry(entries[0]), first, close, rest);
        assert InlineEntries(entries) + [0x7d] + rest == InlineEntry(entries[0]) + close;
        assert PlainEntries(entries) == [first];
      } else {
        var tail := InlineEntries(entries[1..]) + [0x7d] + rest;
        InlineEntriesBack(entries[1..], rest);
        SkipOne(0x20, tail);
        EntriesSkip([0x20] + tail, tail);
        InlineEntryBack(entries[0], [0x2c] + ([0x20] + tail));
        OneMoreEntry(InlineEntry(entries[0]), first, [0x20] + tail, PlainEntries(entries[1..]), rest);
        Joined(InlineEntry(entries[0]), InlineEntries(entries[1..]), [0x7d], rest);
      }
    }
  }

  // ---------------------------------------------------------------- and so does every layout

  /** The end of a list that has one entry per line. */
  function Close(indent: nat, bracket: Point, rest: Text): Text {
    [0x0a] + Spaces(indent) + ([bracket] + rest)
  }

  lemma CloseSkips(indent: nat, bracket: Point, rest: Text)
    requires !Blank(bracket)
    ensures SkipBlanks(Close(indent, bracket, rest)) == [bracket] + rest
  {
    SkipLine(indent, [bracket] + rest);
  }

  /** Reading the text of `py_literal` gives the value back, for every nesting, indentation, column and
      width: both layouts mean the same. */
  lemma {:induction false} LiteralBack(v: Data, indent: nat, column: nat, width: int, rest: Text)
    requires NoDigit(rest)
    ensures ReadsValue(Literal(v, indent, column, width) + rest, Plain(v), rest)
    decreases v, 1
  {
    if column + |Inline(v)| <= width || !HasEntries(v) {
      InlineBack(v, rest);
    } else {
      match v
      case Array(items) => LinesListBack(items, indent, width, Literal(v, indent, column, width), rest);
      case Tuple(items) => LinesListBack(items, indent, width, Literal(v, indent, column, width), rest);
      case Object(entries) =>
        EntryLinesBack(entries, indent + 4, width - 1, indent, rest);
        var inner := EntryLines(entries, indent + 4, width - 1) + Close(indent, 0x7d, rest);
        ObjectBack(inner, PlainEntries(entries), rest);
        assert Literal(v, indent, column, width) + rest == [0x7b] + inner;
    }
  }

  lemma {:induction false} LinesListBack(items: seq<Data>, indent: nat, width: int, text: Text, rest: Text)
    requires text == [0x5b] + Lines(items, indent + 4, width - 1) + [0x0a] + Spaces(indent) + [0x5d]
    ensures ReadsValue(text + rest, Array(PlainItems(items)), rest)
    decreases items, 2
  {
    LinesBack(items, indent + 4, width - 1, indent, rest);
    var inner := Lines(items, indent + 4, width - 1) + Close(indent, 0x5d, rest);
    ListBack(inner, PlainItems(items), rest);
    assert text + rest == [0x5b] + inner;
  }

  lemma {:induction false} LinesBack(items: seq<Data>, pad: nat, width: int, indent: nat, rest: Text)
    ensures ReadsItems(Lines(items, pad, width) + Close(indent, 0x5d, rest), PlainItems(items), rest)
    decreases items, 1
  {
    var close := Close(indent, 0x5d, rest);
    if items == [] {
      CloseSkips(indent, 0x5d, rest);
      NoItems(close, rest);
      assert Lines(items, pad, width) + close == close;
    } else {
      var text := Literal(items[0], pad, pad, width);
      var tail := Lines(items[1..], pad, width) + close;
      LinesBack(items[1..], pad, width, indent, rest);
      LiteralOpens(items[0], pad, pad, width);
      LiteralBack(items[0], pad, pad, width, [0x2c] + tail);
      OneMoreItem(text, Plain(items[0]), tail, PlainItems(items[1..]), rest);
      SkipLine(pad, text + ([0x2c] + tail));
      ItemsSkip([0x0a] + Spaces(pad) + (text + ([0x2c] + tail)), text + ([0x2c] + tail));
      OnLines(Spaces(pad), text, Lines(items[1..], pad, width), close);
    }
  }

  lemma {:induction false} EntryLineBack(e: Entry, pad: nat, width: int, rest: Text)
    requires NoDigit(rest)
    ensures ReadsEntry(EntryLine(e, pad, width) + rest, Entry(e.key, Plain(e.value)), rest)
    decreases e, 2
  {
    var column := |Head(e.key, pad)|;
    LiteralOpens(e.value, pad, column, width);
    LiteralBack(e.value, pad, column, width, rest);
    EntryBack(e.key, Literal(e.value, pad, column, width), Plain(e.value), rest);
  }

  lemma {:induction false} EntryLinesBack(entries: seq<Entry>, pad: nat, width: int, indent: nat, rest: Text)
    ensures ReadsEntries(EntryLines(entries, pad, width) + Close(indent, 0x7d, rest), PlainEntries(entries), rest)
    decreases entries, 1
  {
    var close := Close(indent, 0x7d, rest);
    if entries == [] {
      CloseSkips(indent, 0x7d, rest);
      NoEntries(close, rest);
      assert EntryLines(entries, pad, width) + close == close;
    } else {
      var first := Entry(entries[0].key, Plain(entries[0].value));
      var text := EntryLine(entries[0], pad, width);
      var tail := EntryLines(entries[1..], pad, width) + close;
      EntryLinesBack(entries[1..], pad, width, indent, rest);
      EntryLineBack(entries[0], pad, width, [0x2c] + tail);
      OneMoreEntry(text, first, tail, PlainEntries(entries[1..]), rest);
      SkipLine(pad, text + ([0x2c] + tail));
      EntriesSkip([0x0a] + Spaces(pad) + (text + ([0x2c] + tail)), text + ([0x2c] + tail));
      OnLines(Spaces(pad), text, EntryLines(entries[1..], pad, width), close);
    }
  }

  /** Evaluating the text of `py_literal(v)` gives `v`, tuples as lists, whatever the layout. */
  lemma EvaluatesBack(v: Data, indent: nat, column: nat, width: int)
    ensures ReadValue(Literal(v, indent, column, width)) == Some((Plain(v), []))
  {
    LiteralBack(v, indent, column, width, []);
    assert Look(0);
    assert Literal(v, indent, column, width) + [] == Literal(v, indent, column, width);
  }
}
