/** The characters and the lines of Python literals (`src/logos_bridge/codegen/text.py`, `py_str`, `_escape_char`,
`_inline`, `py_literal`): which characters are escaped and how, what a line of a broken value holds, and how wide a
text is when its first line starts at some column. */
module PyLines {
  import opened PyLiteral

  // ---------------------------------------------------------------- escapes

  /** `_ESCAPED_RANGES`: controls, invisible formatting, separators, surrogates. */
  const RANGES: seq<(int, int)> := [
    (0x0000, 0x001f), (0x007f, 0x009f), (0x00ad, 0x00ad), (0x200b, 0x200f), (0x2028, 0x202e),
    (0x2060, 0x206f), (0xfeff, 0xfeff), (0xd800, 0xdfff), (0xfff9, 0xfffb)]

  predicate InRanges(p: Point) {
    exists i :: 0 <= i < |RANGES| && RANGES[i].0 <= p <= RANGES[i].1
  }

  lemma NeedsEscapeIs(p: Point)
    ensures NeedsEscape(p) <==> InRanges(p)
  {
    if NeedsEscape(p) {
      var i := if p <= 0x1f then 0 else if p <= 0x9f then 1 else if p <= 0xad then 2 else if p <= 0x200f then 3
               else if p <= 0x202e then 4 else if p <= 0x206f then 5 else if p <= 0xdfff then 7 else if p == 0xfeff then 6 else 8;
      assert RANGES[i].0 <= p <= RANGES[i].1;
    }
  }

  /** What stands for one character: itself, or a backslash with one character, with `x` and two digits, or with `u`
      and four. */
  lemma QuotedForm(p: Point)
    ensures var q := Quoted(p);
      if p == QUOTE || p == BACKSLASH then q == [BACKSLASH, p]
      else if p == 0x0a then q == Ascii("\\n")
      else if p == 0x0d then q == Ascii("\\r")
      else if p == 0x09 then q == Ascii("\\t")
      else if !InRanges(p) then q == [p]
      else if p <= 0xff then |q| == 4 && q[..2] == Ascii("\\x") && forall i :: 2 <= i < 4 ==> IsHexDigit(q[i])
      else |q| == 6 && q[..2] == Ascii("\\u") && forall i :: 2 <= i < 6 ==> IsHexDigit(q[i])
  {
    NeedsEscapeIs(p);
  }

  lemma QuotedPrintable(p: Point)
    ensures forall i :: 0 <= i < |Quoted(p)| ==> !InRanges(Quoted(p)[i])
  {
    QuotedForm(p);
    var q := Quoted(p);
    forall i | 0 <= i < |q|
      ensures !InRanges(q[i])
    {
      NeedsEscapeIs(q[i]);
      if !InRanges(p) || p <= 0xff || i < 2 {
      } else {
        assert IsHexDigit(q[i]);
      }
    }
  }

  /** A quoted string has none of the escaped characters in it: no control, no line break, nothing invisible. */
  lemma {:induction false} BodyPrintable(t: Text)
    ensures forall i :: 0 <= i < |Body(t)| ==> !InRanges(Body(t)[i])
  {
    if t != [] {
      QuotedPrintable(t[0]);
      BodyPrintable(t[1..]);
    }
  }

  // ---------------------------------------------------------------- one line or several

  predicate OneLine(t: Text) {
    forall i :: 0 <= i < |t| ==> t[i] != 0x0a
  }

  lemma PyStrOneLine(t: Text)
    ensures OneLine(PyStr(t))
  {
    BodyPrintable(t);
    assert InRanges(0x0a) by {
      assert RANGES[0].0 <= 0x0a <= RANGES[0].1;
    }
  }

  lemma OneLineAppend(a: Text, b: Text, c: Text)
    requires OneLine(a) && OneLine(b) && OneLine(c)
    ensures OneLine(a + b + c)
  {
  }

  lemma {:induction false} InlineOneLine(v: Data)
    ensures OneLine(Inline(v))
    decreases v, 1
  {
    match v
    case NoneValue =>
    case Boolean(b) =>
    case Integer(n) =>
    case String(text) => PyStrOneLine(text);
    case Array(items) =>
      InlineItemsOneLine(items);
      OneLineAppend([0x5b], InlineItems(items), [0x5d]);
    case Tuple(items) =>
      InlineItemsOneLine(items);
      OneLineAppend([0x5b], InlineItems(items), [0x5d]);
    case Object(entries) =>
      InlineEntriesOneLine(entries);
      OneLineAppend([0x7b], InlineEntries(entries), [0x7d]);
  }

  lemma {:induction false} InlineItemsOneLine(items: seq<Data>)
    ensures OneLine(InlineItems(items))
    decreases items, 0
  {
    if items != [] {
      InlineOneLine(items[0]);
      InlineItemsOneLine(items[1..]);
      OneLineAppend(Inline(items[0]), [0x2c, 0x20], InlineItems(items[1..]));
    }
  }

  lemma {:induction false} InlineEntriesOneLine(entries: seq<Entry>)
    ensures OneLine(InlineEntries(entries))
    decreases entries, 0
  {
    if entries != [] {
      InlineOneLine(entries[0].value);
      PyStrOneLine(entries[0].key);
      OneLineAppend(PyStr(entries[0].key), [0x3a, 0x20], Inline(entries[0].value));
      InlineEntriesOneLine(entries[1..]);
      OneLineAppend(InlineEntry(entries[0]), [0x2c, 0x20], InlineEntries(entries[1..]));
    }
  }

  // ---------------------------------------------------------------- the lines of a broken value

  lemma Brackets()
    ensures [0x5b] == Ascii("[") && [0x5d] == Ascii("]") && [0x7b] == Ascii("{") && [0x7d] == Ascii("}") && [0x0a] == Ascii("\n")
  {
  }

  /** The lines put together. */
  function Broken(v: Data, indent: nat, width: int): Text
    requires HasEntries(v)
  {
    var open := if v.Object? then Ascii("{") else Ascii("[");
    var close := if v.Object? then Ascii("}") else Ascii("]");
    open + Flatten(LinesOf(v, indent + 4, width - 1)) + Ascii("\n") + Spaces(indent) + close
  }

  function Flatten(lines: seq<Text>): Text {
    if lines == [] then [] else Ascii("\n") + lines[0] + Flatten(lines[1..])
  }

  function LinesOf(v: Data, pad: nat, width: int): seq<Text>
    requires HasEntries(v)
  {
    match v
    case Array(items) => seq(|items|, i requires 0 <= i < |items| => ItemLine(items[i], pad, width))
    case Tuple(items) => seq(|items|, i requires 0 <= i < |items| => ItemLine(items[i], pad, width))
    case Object(entries) => seq(|entries|, i requires 0 <= i < |entries| => KeyLine(entries[i], pad, width))
  }

  function ItemLine(item: Data, pad: nat, width: int): Text {
    Spaces(pad) + Literal(item, pad, pad, width) + Ascii(",")
  }

  function KeyLine(e: Entry, pad: nat, width: int): Text {
    var head := Spaces(pad) + PyStr(e.key) + Ascii(": ");
    head + Literal(e.value, pad, |head|, width) + Ascii(",")
  }

  lemma {:induction false} ItemLines(items: seq<Data>, pad: nat, width: int)
    ensures Lines(items, pad, width) == Flatten(seq(|items|, i requires 0 <= i < |items| => ItemLine(items[i], pad, width)))
  {
    hide ItemLine, Literal, Spaces, Ascii;
    var lines := seq(|items|, i requires 0 <= i < |items| => ItemLine(items[i], pad, width));
    if items != [] {
      var rest := items[1..];
      ItemLines(rest, pad, width);
      assert lines[1..] == seq(|rest|, i requires 0 <= i < |rest| => ItemLine(rest[i], pad, width));
      ItemLineIs(items[0], pad, width);
    }
  }

  lemma ItemLineIs(item: Data, pad: nat, width: int)
    ensures [0x0a] + Spaces(pad) + Literal(item, pad, pad, width) + [0x2c] == Ascii("\n") + ItemLine(item, pad, width)
  {
    hide Literal, Spaces;
    OneItem(Spaces(pad), Literal(item, pad, pad, width));
  }

  lemma OneItem(pad: Text, text: Text)
    ensures [0x0a] + pad + text + [0x2c] == Ascii("\n") + (pad + text + Ascii(","))
  {
  }

  lemma {:induction false} KeyLines(entries: seq<Entry>, pad: nat, width: int)
    ensures EntryLines(entries, pad, width) == Flatten(seq(|entries|, i requires 0 <= i < |entries| => KeyLine(entries[i], pad, width)))
  {
    hide KeyLine, EntryLine, Spaces, Ascii;
    var lines := seq(|entries|, i requires 0 <= i < |entries| => KeyLine(entries[i], pad, width));
    if entries != [] {
      var rest := entries[1..];
      KeyLines(rest, pad, width);
      assert lines[1..] == seq(|rest|, i requires 0 <= i < |rest| => KeyLine(rest[i], pad, width));
      KeyLineIs(entries[0], pad, width);
    }
  }

  lemma KeyLineIs(e: Entry, pad: nat, width: int)
    ensures [0x0a] + Spaces(pad) + EntryLine(e, pad, width) + [0x2c] == Ascii("\n") + KeyLine(e, pad, width)
  {
    hide Literal, PyStr, Spaces;
    var text := Literal(e.value, pad, |Head(e.key, pad)|, width);
    assert [0x3a, 0x20] == Ascii(": ");
    assert Head(e.key, pad) == Spaces(pad) + PyStr(e.key) + Ascii(": ");
    Regroup(Spaces(pad), PyStr(e.key), Ascii(": "), text);
  }

  lemma Regroup(pad: Text, key: Text, colon: Text, text: Text)
    ensures [0x0a] + pad + (key + colon + text) + [0x2c] == Ascii("\n") + ((pad + key + colon) + text + Ascii(","))
  {
  }

  // ---------------------------------------------------------------- the one-line form

  function Join(parts: seq<Text>): Text {
    if parts == [] then [] else if |parts| == 1 then parts[0] else parts[0] + Ascii(", ") + Join(parts[1..])
  }

  function KeyText(e: Entry): Text {
    PyStr(e.key) + Ascii(": ") + Inline(e.value)
  }

  function ItemTexts(items: seq<Data>): seq<Text> {
    seq(|items|, i requires 0 <= i < |items| => Inline(items[i]))
  }

  function KeyTexts(entries: seq<Entry>): seq<Text> {
    seq(|entries|, i requires 0 <= i < |entries| => KeyText(entries[i]))
  }

  lemma {:induction false} JoinItems(items: seq<Data>)
    ensures InlineItems(items) == Join(ItemTexts(items))
  {
    if items != [] {
      JoinItems(items[1..]);
      assert ItemTexts(items)[1..] == ItemTexts(items[1..]);
      assert [0x2c, 0x20] == Ascii(", ");
    }
  }

  lemma {:induction false} JoinEntries(entries: seq<Entry>)
    ensures InlineEntries(entries) == Join(KeyTexts(entries))
  {
    if entries != [] {
      JoinEntries(entries[1..]);
      assert KeyTexts(entries)[1..] == KeyTexts(entries[1..]);
      assert [0x2c, 0x20] == Ascii(", ");
      assert [0x3a, 0x20] == Ascii(": ");
      assert InlineEntry(entries[0]) == KeyText(entries[0]);
    }
  }

  // ---------------------------------------------------------------- digits

  const DIGITS: string := "0123456789abcdef"

  lemma HexDigitIs(d: nat)
    requires d < 16
    ensures HexDigit(d) == DIGITS[d] as int && IsHexDigit(DIGITS[d] as int) && HexValue(DIGITS[d] as int) == d
  {
    if d < 10 {
      assert DIGITS[d] == '0' + d as char;
    } else {
      assert DIGITS[d] == 'a' + (d - 10) as char;
    }
  }

  /** A number in some base, most significant digit first. */
  function Number(t: Text, base: nat): nat
    requires forall i :: 0 <= i < |t| ==> IsHexDigit(t[i])
  {
    if t == [] then 0 else Number(t[..|t| - 1], base) * base + HexValue(t[|t| - 1])
  }

  /** The digits of an escape read as a number in base sixteen. */
  lemma {:induction false} HexIs(n: nat, width: nat)
    requires n < Power16(width)
    ensures Number(Hex(n, width), 16) == n
  {
    if width > 0 {
      HexIs(n / 16, width - 1);
      var t := Hex(n, width);
      assert t[..width - 1] == Hex(n / 16, width - 1);
      HexDigitIs(n % 16);
    }
  }

  // ---------------------------------------------------------------- how wide the lines are

  /** The column after `t`, and the widest line of `t`, when its first line starts at `column`. */
  function EndColumn(t: Text, column: nat): nat {
    if t == [] then column else EndColumn(t[1..], if t[0] == 0x0a then 0 else column + 1)
  }

  function Widest(t: Text, column: nat): (w: nat)
    ensures w >= EndColumn(t, column)
  {
    if t == [] then column
    else if t[0] == 0x0a then Max(column, Widest(t[1..], 0))
    else Widest(t[1..], column + 1)
  }

  function Max(a: nat, b: nat): nat {
    if a < b then b else a
  }

  lemma {:induction false} WidestAppend(a: Text, b: Text, column: nat)
    ensures EndColumn(a + b, column) == EndColumn(b, EndColumn(a, column))
    ensures Widest(a + b, column) == Max(Widest(a, column), Widest(b, EndColumn(a, column)))
  {
    if a == [] {
      assert a + b == b;
      WidestStart(b, column);
    } else {
      assert (a + b)[1..] == a[1..] + b;
      WidestAppend(a[1..], b, if a[0] == 0x0a then 0 else column + 1);
    }
  }

  lemma {:induction false} WidestStart(t: Text, column: nat)
    ensures Widest(t, column) >= column
  {
    if t != [] && t[0] != 0x0a {
      WidestStart(t[1..], column + 1);
    }
  }

  lemma {:induction false} WidestOneLine(t: Text, column: nat)
    requires OneLine(t)
    ensures EndColumn(t, column) == Widest(t, column) == column + |t|
  {
    if t != [] {
      WidestOneLine(t[1..], column + 1);
    }
  }

  /** Every scalar and every bracket of `v` finds room where its line puts it. */
  predicate HasRoom(v: Data, indent: nat, column: nat, width: int)
    decreases v, 1
  {
    || column + |Inline(v)| <= width
    || (HasEntries(v) && column < width && indent < width &&
        match v
        case Array(items) => ItemsHaveRoom(items, indent + 4, width - 1)
        case Tuple(items) => ItemsHaveRoom(items, indent + 4, width - 1)
        case Object(entries) => EntriesHaveRoom(entries, indent + 4, width - 1)
        case _ => false)
  }

  predicate ItemsHaveRoom(items: seq<Data>, pad: nat, width: int)
    decreases items, 0
  {
    items != [] ==> HasRoom(items[0], pad, pad, width) && ItemsHaveRoom(items[1..], pad, width)
  }

  predicate EntriesHaveRoom(entries: seq<Entry>, pad: nat, width: int)
    decreases entries, 0
  {
    entries != [] ==>
      HasRoom(entries[0].value, pad, pad + |PyStr(entries[0].key)| + 2, width) && EntriesHaveRoom(entries[1..], pad, width)
  }

  lemma BrokenNotTooWide(v: Data, indent: nat, column: nat, width: int)
    requires HasEntries(v) && column + |Inline(v)| > width && column < width && indent < width
    requires Widest(match v case Array(items) => Lines(items, indent + 4, width - 1)
                            case Tuple(items) => Lines(items, indent + 4, width - 1)
                            case Object(entries) => EntryLines(entries, indent + 4, width - 1)
                            case _ => [], column + 1) <= width
    ensures Widest(Literal(v, indent, column, width), column) <= width
  {
    hide Widest, EndColumn, Lines, EntryLines;
    var open, close := if v.Object? then [0x7b] else [0x5b], if v.Object? then [0x7d] else [0x5d];
    var lines := match v case Array(items) => Lines(items, indent + 4, width - 1)
                         case Tuple(items) => Lines(items, indent + 4, width - 1)
                         case Object(entries) => EntryLines(entries, indent + 4, width - 1)
                         case _ => [];
    assert Literal(v, indent, column, width) == open + lines + [0x0a] + Spaces(indent) + close;
    WidestOneLine(open, column);
    WidestAppend(open, lines, column);
    NextLine(open + lines, column, indent, close, width);
  }

  /** A line break and the closing bracket after a text that is not too wide. */
  lemma NextLine(t: Text, column: nat, pad: nat, close: Text, width: int)
    requires Widest(t, column) <= width && pad + |close| <= width && OneLine(close)
    ensures var all := t + [0x0a] + Spaces(pad) + close; Widest(all, column) <= width && EndColumn(all, column) == pad + |close|
  {
    hide Widest, EndColumn;
    WidestAppend(t, [0x0a], column);
    LineBreak(EndColumn(t, column));
    WidestAppend(t + [0x0a], Spaces(pad), column);
    WidestOneLine(Spaces(pad), 0);
    WidestAppend(t + [0x0a] + Spaces(pad), close, column);
    WidestOneLine(close, pad);
    EndWithin(t, column);
  }

  lemma EndWithin(t: Text, column: nat)
    ensures EndColumn(t, column) <= Widest(t, column)
  {
  }

  lemma LineBreak(column: nat)
    ensures EndColumn([0x0a], column) == 0 && Widest([0x0a], column) == column
  {
    assert [0x0a][1..] == [];
  }

  /** One line: a line break, blanks, a head, a value that fits one column less, and a comma. */
  lemma LineNotTooWide(column: nat, pad: nat, head: Text, text: Text, width: int)
    requires column <= width && OneLine(head) && Widest(text, pad + |head|) <= width - 1
    ensures var line := [0x0a] + Spaces(pad) + head + text + [0x2c];
      Widest(line, column) <= width && EndColumn(line, column) <= width
  {
    hide Widest, EndColumn;
    var start := [0x0a] + Spaces(pad) + head;
    WidestStart(text, pad + |head|);
    LineBreak(column);
    assert [0x0a] + Spaces(pad) + head == [] + [0x0a] + Spaces(pad) + head;
    WidestEmpty(column);
    NextLine([], column, pad, head, width);
    WidestAppend(start, text, column);
    EndWithin(text, pad + |head|);
    WidestAppend(start + text, [0x2c], column);
    WidestOneLine([0x2c], EndColumn(start + text, column));
  }

  lemma WidestEmpty(column: nat)
    ensures Widest([], column) == column
  {
  }

  lemma EntryLineSplits(e: Entry, pad: nat, width: int)
    ensures var head := PyStr(e.key) + [0x3a, 0x20];
      [0x0a] + Spaces(pad) + EntryLine(e, pad, width) + [0x2c]
      == [0x0a] + Spaces(pad) + head + Literal(e.value, pad, pad + |head|, width) + [0x2c]
  {
    hide Literal, PyStr, Spaces;
    var text := Literal(e.value, pad, |Head(e.key, pad)|, width);
    SpacesLength(pad);
    assert |Head(e.key, pad)| == pad + |PyStr(e.key) + [0x3a, 0x20]|;
    Regrouped(Spaces(pad), PyStr(e.key), text);
  }

  lemma SpacesLength(n: nat)
    ensures |Spaces(n)| == n
  {
  }

  lemma Regrouped(pad: Text, key: Text, text: Text)
    ensures [0x0a] + pad + (key + [0x3a, 0x20] + text) + [0x2c] == [0x0a] + pad + (key + [0x3a, 0x20]) + text + [0x2c]
  {
  }
}
