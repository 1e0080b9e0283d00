/** How Python literals are laid out (`src/logos_bridge/codegen/text.py`). */
module PyLayout {
  import opened PyLiteral
  import opened PyLines

  // ---------------------------------------------------------------- escapes

  /** Any other string is quoted as it is. */
  lemma {:induction false} PlainBody(t: Text)
    requires forall i :: 0 <= i < |t| ==> !InRanges(t[i]) && t[i] != QUOTE && t[i] != BACKSLASH
    ensures Body(t) == t
  {
    if t != [] {
      QuotedForm(t[0]);
      assert InRanges(0x0a) && InRanges(0x0d) && InRanges(0x09) by {
        assert RANGES[0].0 <= 0x0a <= RANGES[0].1;
      }
      PlainBody(t[1..]);
    }
  }

  // ---------------------------------------------------------------- one line or several

  /** Only what has entries and does not fit on its line is broken; everything else is its one-line form. */
  lemma WrapsOnlyWhatDoesNotFit(v: Data, indent: nat, column: nat, width: int)
    ensures OneLine(Literal(v, indent, column, width)) <==> column + |Inline(v)| <= width || !HasEntries(v)
    ensures OneLine(Literal(v, indent, column, width)) ==> Literal(v, indent, column, width) == Inline(v)
  {
    InlineOneLine(v);
    if column + |Inline(v)| > width && HasEntries(v) {
      match v
      case Array(items) => assert Literal(v, indent, column, width)[1] == 0x0a;
      case Tuple(items) => assert Literal(v, indent, column, width)[1] == 0x0a;
      case Object(entries) => assert Literal(v, indent, column, width)[1] == 0x0a;
      case _ =>
    }
  }

  // ---------------------------------------------------------------- the lines of a broken value

  /** Each line of a broken value holds one of its entries and a comma, four columns further in than the value, and
      the closing bracket stands under the line that opened it. */
  lemma BrokenLines(v: Data, indent: nat, column: nat, width: int)
    requires HasEntries(v) && column + |Inline(v)| > width
    ensures Literal(v, indent, column, width) == Broken(v, indent, width)
  {
    hide Lines, EntryLines, Inline, Flatten, ItemLine, KeyLine;
    Brackets();
    match v
    case Array(items) => ItemLines(items, indent + 4, width - 1);
    case Tuple(items) => ItemLines(items, indent + 4, width - 1);
    case Object(entries) => KeyLines(entries, indent + 4, width - 1);
    case _ =>
  }

  // ---------------------------------------------------------------- the one-line form

  /** On one line: words, decimal numbers, quoted strings, and entries between brackets with a comma and a space. */
  lemma InlineForm(v: Data)
    ensures match v
      case NoneValue => Inline(v) == Ascii("None")
      case Boolean(b) => Inline(v) == Ascii(if b then "True" else "False")
      case Integer(n) => Inline(v) == if n < 0 then Ascii("-") + Decimal(-n) else Decimal(n)
      case String(text) => Inline(v) == Ascii("\"") + Body(text) + Ascii("\"")
      case Array(items) => Inline(v) == Ascii("[") + Join(ItemTexts(items)) + Ascii("]")
      case Tuple(items) => Inline(v) == Ascii("[") + Join(ItemTexts(items)) + Ascii("]")
      case Object(entries) => Inline(v) == Ascii("{") + Join(KeyTexts(entries)) + Ascii("}")
  {
    hide Decimal, Body, Join, ItemTexts, KeyTexts, InlineItems, InlineEntries;
    Brackets();
    match v
    case Array(items) => JoinItems(items);
    case Tuple(items) => JoinItems(items);
    case Object(entries) => JoinEntries(entries);
    case Integer(n) => assert [0x2d] == Ascii("-");
    case String(text) => assert [QUOTE] == Ascii("\"");
    case _ =>
  }

  // ---------------------------------------------------------------- digits

  /** The text of a number read as a number in base ten, with no leading zero. */
  lemma {:induction false} DecimalIs(n: nat)
    ensures forall i :: 0 <= i < |Decimal(n)| ==> IsHexDigit(Decimal(n)[i])
    ensures Number(Decimal(n), 10) == n && (n > 0 ==> Decimal(n)[0] != '0' as int)
  {
    if n >= 10 {
      DecimalIs(n / 10);
      var t := Decimal(n);
      assert t[..|t| - 1] == Decimal(n / 10);
      HexDigitIs(n % 10);
    } else {
      HexDigitIs(n);
      assert Decimal(n)[..0] == [];
    }
  }

  /** The digits of an escape are the character's code. */
  lemma EscapeCode(p: Point)
    requires InRanges(p) && p != 0x0a && p != 0x0d && p != 0x09
    ensures var q := Quoted(p);
      |q| > 2 && (forall i :: 2 <= i < |q| ==> IsHexDigit(q[i])) && Number(q[2..], 16) == p
  {
    NeedsEscapeIs(p);
    Powers();
    if p <= 0xff {
      HexIs(p, 2);
      assert Quoted(p)[2..] == Hex(p, 2);
    } else {
      HexIs(p, 4);
      assert Quoted(p)[2..] == Hex(p, 4);
    }
  }

  // ---------------------------------------------------------------- how wide the lines are

  /** No line is wider than the width unless a scalar, a key with its scalar or a bracket does not fit on its own line. */
  lemma {:induction false} NoLineTooWide(v: Data, indent: nat, column: nat, width: int)
    requires HasRoom(v, indent, column, width)
    ensures Widest(Literal(v, indent, column, width), column) <= width
    decreases v, 1
  {
    hide Widest, Flatten;
    InlineOneLine(v);
    WidestOneLine(Inline(v), column);
    if column + |Inline(v)| > width {
      match v
      case Array(items) => ItemsNotTooWide(items, indent + 4, column + 1, width); BrokenNotTooWide(v, indent, column, width);
      case Tuple(items) => ItemsNotTooWide(items, indent + 4, column + 1, width); BrokenNotTooWide(v, indent, column, width);
      case Object(entries) => EntriesNotTooWide(entries, indent + 4, column + 1, width); BrokenNotTooWide(v, indent, column, width);
      case _ =>
    }
  }

  lemma {:induction false} ItemsNotTooWide(items: seq<Data>, pad: nat, column: nat, width: int)
    requires ItemsHaveRoom(items, pad, width - 1) && column <= width
    ensures Widest(Lines(items, pad, width - 1), column) <= width
    decreases items, 0
  {
    hide Widest, EndColumn, HasRoom, Literal;
    if items == [] {
      WidestEmpty(column);
    } else {
      var text := Literal(items[0], pad, pad, width - 1);
      NoLineTooWide(items[0], pad, pad, width - 1);
      LineNotTooWide(column, pad, [], text, width);
      var line := [0x0a] + Spaces(pad) + [] + text + [0x2c];
      assert line == [0x0a] + Spaces(pad) + text + [0x2c];
      WidestAppend(line, Lines(items[1..], pad, width - 1), column);
      ItemsNotTooWide(items[1..], pad, EndColumn(line, column), width);
    }
  }

  lemma {:induction false} EntriesNotTooWide(entries: seq<Entry>, pad: nat, column: nat, width: int)
    requires EntriesHaveRoom(entries, pad, width - 1) && column <= width
    ensures Widest(EntryLines(entries, pad, width - 1), column) <= width
    decreases entries, 0
  {
    hide Widest, EndColumn, HasRoom, Literal;
    if entries == [] {
      WidestEmpty(column);
    } else {
      var e := entries[0];
      var head := PyStr(e.key) + [0x3a, 0x20];
      var text := Literal(e.value, pad, pad + |head|, width - 1);
      NoLineTooWide(e.value, pad, pad + |head|, width - 1);
      PyStrOneLine(e.key);
      LineNotTooWide(column, pad, head, text, width);
      var line := [0x0a] + Spaces(pad) + head + text + [0x2c];
      EntryLineSplits(e, pad, width - 1);
      WidestAppend(line, EntryLines(entries[1..], pad, width - 1), column);
      EntriesNotTooWide(entries[1..], pad, EndColumn(line, column), width);
    }
  }
}
