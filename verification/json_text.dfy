/** JSON as a program writes it, without blanks (RFC 8259), and its length. */
module JsonText {
  import opened Common
  import opened VaultEscape
  import Utf8

  /** A value; a record keeps the order of its fields. A token is a number or a literal name, written as is. */
  datatype Json = Text(s: string) | Token(s: string) | List(items: seq<Json>) | Record(fields: seq<Field>)

  datatype Field = Field(name: string, value: Json)

  function Quoted(s: string): string {
    ['"'] + Escape(s) + ['"']
  }

  function Print(j: Json): string
    decreases j
  {
    match j
    case Text(s) => Quoted(s)
    case Token(s) => s
    case List(items) => ['['] + PrintItems(items) + [']']
    case Record(fields) => ['{'] + PrintFields(fields) + ['}']
  }

  function PrintItems(items: seq<Json>): string
    decreases items
  {
    if items == [] then ""
    else if |items| == 1 then Print(items[0])
    else Print(items[0]) + [','] + PrintItems(items[1..])
  }

  function PrintFields(fields: seq<Field>): string
    decreases fields
  {
    if fields == [] then ""
    else
      var first := Quoted(fields[0].name) + [':'] + Print(fields[0].value);
      if |fields| == 1 then first else first + [','] + PrintFields(fields[1..])
  }

  // ---- Lengths ----------------------------------------------------------------------------------

  /** Bytes of a string as JSON writes it between quotes. */
  function Width(s: string): nat {
    Utf8.ByteLen(Escape(s))
  }

  function Size(j: Json): nat
    decreases j
  {
    match j
    case Text(s) => Width(s) + 2
    case Token(s) => Utf8.ByteLen(s)
    case List(items) => if items == [] then 2 else 1 + ItemsSize(items)
    case Record(fields) => if fields == [] then 2 else 1 + FieldsSize(fields)
  }

  /** Each item with the comma or bracket after it. */
  function ItemsSize(items: seq<Json>): nat
    decreases items
  {
    if items == [] then 0 else Size(items[0]) + 1 + ItemsSize(items[1..])
  }

  function FieldSize(name: string, value: Json): nat
    decreases value, 1
  {
    Width(name) + 3 + Size(value) + 1
  }

  function FieldsSize(fields: seq<Field>): nat
    decreases fields
  {
    if fields == [] then 0 else Width(fields[0].name) + 3 + Size(fields[0].value) + 1 + FieldsSize(fields[1..])
  }

  lemma OneByte(c: char)
    requires c as int < 0x80
    ensures Utf8.ByteLen([c]) == 1
  {
    assert [c][1..] == "";
  }

  lemma QuotedSize(s: string)
    ensures Utf8.ByteLen(Quoted(s)) == Width(s) + 2
  {
    QuotedLength(s);
  }

  /** The size is the length of the text in bytes. */
  lemma {:induction false} PrintSize(j: Json)
    ensures Utf8.ByteLen(Print(j)) == Size(j)
    decreases j
  {
    hide Quoted, Width;
    match j
    case Text(s) => QuotedSize(s);
    case Token(s) =>
    case List(items) =>
      PrintItemsSize(items);
      Bracketed('[', PrintItems(items), ']');
    case Record(fields) =>
      PrintFieldsSize(fields);
      Bracketed('{', PrintFields(fields), '}');
  }

  lemma Bracketed(a: char, s: string, b: char)
    requires a as int < 0x80 && b as int < 0x80
    ensures Utf8.ByteLen([a] + s + [b]) == Utf8.ByteLen(s) + 2
  {
    OneByte(a);
    OneByte(b);
    BytesAdd([a] + s, [b]);
    BytesAdd([a], s);
  }

  lemma {:induction false} PrintItemsSize(items: seq<Json>)
    ensures Utf8.ByteLen(PrintItems(items)) == if items == [] then 0 else ItemsSize(items) - 1
    decreases items
  {
    if items != [] {
      PrintSize(items[0]);
      if |items| == 1 {
        assert items[1..] == [];
      } else {
        PrintItemsSize(items[1..]);
        OneByte(',');
        BytesAdd(Print(items[0]) + [','], PrintItems(items[1..]));
        BytesAdd(Print(items[0]), [',']);
      }
    }
  }

  lemma {:induction false} PrintFieldsSize(fields: seq<Field>)
    ensures Utf8.ByteLen(PrintFields(fields)) == if fields == [] then 0 else FieldsSize(fields) - 1
    decreases fields
  {
    hide Quoted, Width;
    if fields != [] {
      var name, value := fields[0].name, fields[0].value;
      PrintSize(value);
      QuotedSize(name);
      OneByte(':');
      BytesAdd(Quoted(name) + [':'], Print(value));
      BytesAdd(Quoted(name), [':']);
      var first := Quoted(name) + [':'] + Print(value);
      if |fields| == 1 {
        assert fields[1..] == [];
      } else {
        PrintFieldsSize(fields[1..]);
        OneByte(',');
        BytesAdd(first + [','], PrintFields(fields[1..]));
        BytesAdd(first, [',']);
      }
    }
  }

  lemma {:induction false} FieldsAdd(a: seq<Field>, b: seq<Field>)
    ensures FieldsSize(a + b) == FieldsSize(a) + FieldsSize(b)
    decreases |a|
  {
    hide Width;
    if a == [] {
      assert a + b == b;
    } else {
      FieldsAdd(a[1..], b);
      assert (a + b)[1..] == a[1..] + b;
    }
  }

  lemma OneField(name: string, value: Json)
    ensures FieldsSize([Field(name, value)]) == FieldSize(name, value)
  {
    assert [Field(name, value)][1..] == [];
  }

  // ---- Widths -----------------------------------------------------------------------------------

  /** Written as one byte. */
  predicate Bare(c: char) {
    ' ' <= c && c as int < 0x80 && c != '"' && c != '\\'
  }

  lemma {:induction false} WidthIs(s: string)
    ensures s != "" ==> Width(s) == Width(s[..|s| - 1]) + EscapedCharLen(s[|s| - 1])
    ensures s == "" ==> Width(s) == 0
  {
    if s != "" {
      BytesAdd(Escape(s[..|s| - 1]), EscapeChar(s[|s| - 1]));
      EscapedCharIsExact(s[|s| - 1]);
    }
  }

  lemma {:induction false} BareWidth(s: string)
    requires forall i :: 0 <= i < |s| ==> Bare(s[i])
    ensures Width(s) == |s|
    decreases |s|
  {
    hide Width;
    WidthIs(s);
    if s != "" {
      BareWidth(s[..|s| - 1]);
    }
  }

  /** Text without control characters takes at most four bytes for a character. */
  lemma {:induction false} WidthBound(s: string)
    requires forall i :: 0 <= i < |s| ==> s[i] >= ' '
    ensures Width(s) <= 4 * |s|
    decreases |s|
  {
    hide Width;
    WidthIs(s);
    if s != "" {
      WidthBound(s[..|s| - 1]);
    }
  }

  lemma {:induction false} WideWidth(s: string)
    requires forall i :: 0 <= i < |s| ==> s[i] as int >= 0x1_0000
    ensures Width(s) == 4 * |s|
    decreases |s|
  {
    hide Width;
    WidthIs(s);
    if s != "" {
      WideWidth(s[..|s| - 1]);
    }
  }
}
