/** The text that JSON.stringify makes of a parsed body, and what a cut of it can be: the
    audit insert stores the first 60000 characters (src/services/crm.service.ts). */
module JsonText {

  // ------------------------------------------------------------------------- values

  predicate IsNumberChar(c: char) {
    '0' <= c <= '9' || c == '-' || c == '+' || c == '.' || c == 'e'
  }

  /** null, true, false, or the shape of a number. */
  predicate IsAtom(t: string) {
    || t == "null" || t == "true" || t == "false"
    || (t != [] && forall i :: 0 <= i < |t| ==> IsNumberChar(t[i]))
  }

  type AtomText = t: string | IsAtom(t) witness "null"

  datatype Json = Atom(text: AtomText) | Str(chars: string) | Arr(items: Items) | Obj(fields: Fields)
  datatype Items = NoItems | Item(value: Json, rest: Items)
  datatype Fields = NoFields | Field(name: string, value: Json, rest: Fields)

  function Max(a: int, b: int): int { if a < b then b else a }

  /** Nesting of arrays and objects. */
  function Depth(j: Json): nat {
    match j
    case Atom(_) => 0
    case Str(_) => 0
    case Arr(items) => 1 + ItemsDepth(items)
    case Obj(fields) => 1 + FieldsDepth(fields)
  }

  function ItemsDepth(items: Items): nat {
    match items
    case NoItems => 0
    case Item(v, rest) => Max(Depth(v), ItemsDepth(rest))
  }

  function FieldsDepth(fields: Fields): nat {
    match fields
    case NoFields => 0
    case Field(_, v, rest) => Max(Depth(v), FieldsDepth(rest))
  }

  // --------------------------------------------------------------------------- text

  function Hex(n: nat): char
    requires n < 16
  {
    "0123456789abcdef"[n]
  }

  function Escaped(c: char): string {
    if c == '"' || c == '\\' then ['\\', c]
    else if c == 8 as char then "\\b"
    else if c == 9 as char then "\\t"
    else if c == 10 as char then "\\n"
    else if c == 12 as char then "\\f"
    else if c == 13 as char then "\\r"
    else if c < ' ' then "\\u00" + [Hex(c as int / 16), Hex(c as int % 16)]
    else [c]
  }

  function Escapes(s: string): string {
    if s == [] then [] else Escaped(s[0]) + Escapes(s[1..])
  }

  function Quoted(s: string): string { ['"'] + Escapes(s) + ['"'] }

  function Text(j: Json): string {
    match j
    case Atom(t) => t
    case Str(s) => Quoted(s)
    case Arr(items) => ['['] + ItemsText(items) + [']']
    case Obj(fields) => ['{'] + FieldsText(fields) + ['}']
  }

  function ItemsText(items: Items): string {
    match items
    case NoItems => []
    case Item(v, rest) => Text(v) + (if rest.NoItems? then [] else [','] + ItemsText(rest))
  }

  function FieldsText(fields: Fields): string {
    match fields
    case NoFields => []
    case Field(name, v, rest) =>
      Quoted(name) + [':'] + Text(v) + (if rest.NoFields? then [] else [','] + FieldsText(rest))
  }

  ghost predicate IsJson(text: string) { exists j: Json :: Text(j) == text }

  // ----------------------------------------------------------------- a bracket count

  /** A scanner that knows strings and escapes, and counts open brackets. */
  datatype Scan = Scan(depth: int, quoted: bool, escaped: bool, deepest: int)

  const START := Scan(0, false, false, 0)

  function Step(s: Scan, c: char): Scan {
    if s.escaped then s.(escaped := false)
    else if s.quoted then
      if c == '\\' then s.(escaped := true) else if c == '"' then s.(quoted := false) else s
    else if c == '"' then s.(quoted := true)
    else if c == '[' || c == '{' then s.(depth := s.depth + 1, deepest := Max(s.deepest, s.depth + 1))
    else if c == ']' || c == '}' then s.(depth := s.depth - 1)
    else s
  }

  function Scanned(s: Scan, text: string): Scan
    decreases |text|
  {
    if text == [] then s else Scanned(Step(s, text[0]), text[1..])
  }

  /** How deep brackets are nested in a text. */
  function Nesting(text: string): int { Scanned(START, text).deepest }

  /** The count never falls below d on the way through the text. */
  predicate Stays(s: Scan, text: string, d: int)
    decreases |text|
  {
    s.depth >= d && (text != [] ==> Stays(Step(s, text[0]), text[1..], d))
  }

  lemma {:induction false} ScannedAppend(s: Scan, a: string, b: string, d: int)
    ensures Scanned(s, a + b) == Scanned(Scanned(s, a), b)
    ensures Stays(s, a, d) && Stays(Scanned(s, a), b, d) ==> Stays(s, a + b, d)
    decreases |a|
  {
    if a == [] {
      assert a + b == b;
    } else {
      assert (a + b)[1..] == a[1..] + b;
      ScannedAppend(Step(s, a[0]), a[1..], b, d);
    }
  }

  lemma {:induction false} StaysPrefix(s: Scan, text: string, d: int, n: nat)
    requires Stays(s, text, d) && n <= |text|
    ensures Scanned(s, text[..n]).depth >= d
    decreases n
  {
    if n > 0 {
      assert text[..n][1..] == text[1..][..n - 1];
      StaysPrefix(Step(s, text[0]), text[1..], d, n - 1);
    }
  }

  predicate Plain(s: Scan) { !s.quoted && !s.escaped && s.depth <= s.deepest }

  /** What scanning a piece of JSON text does: nothing but to note its depth. */
  predicate Neutral(s: Scan, text: string, depth: nat) {
    Scanned(s, text) == s.(deepest := Max(s.deepest, s.depth + depth)) && Stays(s, text, s.depth)
  }

  lemma {:induction false} AtomNeutral(s: Scan, t: string)
    requires Plain(s)
    requires forall i :: 0 <= i < |t| ==> t[i] != '"' && t[i] != '[' && t[i] != '{' && t[i] != ']' && t[i] != '}'
    ensures Neutral(s, t, 0)
    decreases |t|
  {
    if t != [] { AtomNeutral(s, t[1..]); }
  }

  lemma EscapedNeutral(s: Scan, c: char)
    requires s.quoted && !s.escaped
    ensures Scanned(s, Escaped(c)) == s && Stays(s, Escaped(c), s.depth)
  {
    var e := Escaped(c);
    if |e| == 1 {
      QuotedPlain(s, e);
    } else {
      BackslashPair(s, e[1]);
      assert e == ['\\', e[1]] + e[2..];
      if |e| > 2 {
        HexPlain(c as int / 16);
        HexPlain(c as int % 16);
      }
      QuotedPlain(s, e[2..]);
      ScannedAppend(s, ['\\', e[1]], e[2..], s.depth);
    }
  }

  lemma {:induction false} QuotedPlain(s: Scan, t: string)
    requires s.quoted && !s.escaped && forall i :: 0 <= i < |t| ==> t[i] != '"' && t[i] != '\\'
    ensures Scanned(s, t) == s && Stays(s, t, s.depth)
    decreases |t|
  {
    if t != [] { QuotedPlain(s, t[1..]); }
  }

  lemma BackslashPair(s: Scan, c: char)
    requires s.quoted && !s.escaped
    ensures Scanned(s, ['\\', c]) == s && Stays(s, ['\\', c], s.depth)
  {
    var t := Step(s, '\\');
    SingleScan(t, c);
    assert ['\\', c][1..] == [c] && ['\\', c][0] == '\\';
    assert Scanned(s, ['\\', c]) == Scanned(t, [c]);
  }

  lemma HexPlain(n: nat)
    requires n < 16
    ensures Hex(n) != '"' && Hex(n) != '\\'
  {}

  lemma {:induction false} EscapesNeutral(s: Scan, chars: string)
    requires s.quoted && !s.escaped
    ensures Scanned(s, Escapes(chars)) == s && Stays(s, Escapes(chars), s.depth)
  {
    if chars != [] {
      EscapedNeutral(s, chars[0]);
      EscapesNeutral(s, chars[1..]);
      ScannedAppend(s, Escaped(chars[0]), Escapes(chars[1..]), s.depth);
    }
  }

  lemma QuotedNeutral(s: Scan, chars: string)
    requires Plain(s)
    ensures Neutral(s, Quoted(chars), 0)
  {
    var q := s.(quoted := true);
    EscapesNeutral(q, chars);
    ScannedAppend(q, Escapes(chars), ['"'], s.depth);
    SingleScan(q, '"');
    assert Quoted(chars)[1..] == Escapes(chars) + ['"'];
  }

  lemma SingleScan(s: Scan, c: char)
    ensures Scanned(s, [c]) == Step(s, c)
    ensures Stays(s, [c], s.depth) <==> Step(s, c).depth >= s.depth
  {
    assert [c][1..] == [];
  }

  lemma NeutralAppend(s: Scan, a: string, m: nat, b: string, n: nat)
    requires Plain(s) && Neutral(s, a, m) && Neutral(Scanned(s, a), b, n)
    ensures Neutral(s, a + b, if m < n then n else m)
  {
    ScannedAppend(s, a, b, s.depth);
  }

  /** A bracketed piece: one level deeper throughout, and back at its end. */
  lemma BracketsNeutral(s: Scan, open: char, inner: string, close: char, m: nat)
    requires Plain(s) && (open == '[' || open == '{') && (close == ']' || close == '}')
    requires Neutral(Step(s, open), inner, m)
    ensures Neutral(s, [open] + inner + [close], 1 + m)
    ensures forall n :: 0 < n <= 1 + |inner| ==> Scanned(s, ([open] + inner + [close])[..n]).depth > s.depth
  {
    var t, text := Step(s, open), [open] + inner + [close];
    assert text[1..] == inner + [close];
    ScannedAppend(t, inner, [close], s.depth);
    StaysLower(t, inner, t.depth, s.depth);
    assert [close][1..] == [];
    assert Stays(Scanned(t, inner), [close], s.depth);
    forall n | 0 < n <= 1 + |inner| ensures Scanned(s, text[..n]).depth > s.depth {
      assert text[..n][1..] == inner[..n - 1] && text[..n][0] == open;
      StaysPrefix(t, inner, t.depth, n - 1);
    }
  }

  lemma {:induction false} StaysLower(s: Scan, text: string, d: int, e: int)
    requires Stays(s, text, d) && e <= d
    ensures Stays(s, text, e)
    decreases |text|
  {
    if text != [] { StaysLower(Step(s, text[0]), text[1..], d, e); }
  }

  lemma {:induction false} TextNeutral(s: Scan, j: Json)
    requires Plain(s)
    ensures Neutral(s, Text(j), Depth(j))
    decreases j
  {
    match j {
      case Atom(t) => AtomNeutral(s, t);
      case Str(chars) => QuotedNeutral(s, chars);
      case Arr(items) =>
        ItemsNeutral(Step(s, '['), items);
        BracketsNeutral(s, '[', ItemsText(items), ']', ItemsDepth(items));
      case Obj(fields) =>
        FieldsNeutral(Step(s, '{'), fields);
        BracketsNeutral(s, '{', FieldsText(fields), '}', FieldsDepth(fields));
    }
  }

  lemma {:induction false} ItemsNeutral(s: Scan, items: Items)
    requires Plain(s)
    ensures Neutral(s, ItemsText(items), ItemsDepth(items))
    decreases items
  {
    if items.Item? {
      hide Neutral, Text;
      var v := Text(items.value);
      TextNeutral(s, items.value);
      var s1 := AfterNeutral(s, v, Depth(items.value));
      if items.rest.NoItems? {
        assert v + [] == v;
      } else {
        AtomNeutral(s1, [',']);
        var s2 := AfterNeutral(s1, [','], 0);
        ItemsNeutral(s2, items.rest);
        NeutralAppend(s1, [','], 0, ItemsText(items.rest), ItemsDepth(items.rest));
        NeutralAppend(s, v, Depth(items.value), [','] + ItemsText(items.rest), ItemsDepth(items.rest));
      }
    } else {
      assert ItemsText(items) == [];
    }
  }

  lemma AfterNeutral(s: Scan, text: string, d: nat) returns (t: Scan)
    requires Plain(s) && Neutral(s, text, d)
    ensures t == Scanned(s, text) && Plain(t)
  {
    t := Scanned(s, text);
  }

  lemma {:induction false} FieldsNeutral(s: Scan, fields: Fields)
    requires Plain(s)
    ensures Neutral(s, FieldsText(fields), FieldsDepth(fields))
    decreases fields
  {
    if fields.Field? {
      hide Neutral, Text, Quoted;
      var head, v, d := Quoted(fields.name) + [':'], Text(fields.value), Depth(fields.value);
      NameNeutral(s, fields.name);
      var s1 := AfterNeutral(s, head, 0);
      TextNeutral(s1, fields.value);
      NeutralAppend(s, head, 0, v, d);
      var s2 := AfterNeutral(s, head + v, d);
      if fields.rest.NoFields? {
        assert head + v + [] == head + v;
      } else {
        AtomNeutral(s2, [',']);
        var s3 := AfterNeutral(s2, [','], 0);
        FieldsNeutral(s3, fields.rest);
        NeutralAppend(s2, [','], 0, FieldsText(fields.rest), FieldsDepth(fields.rest));
        NeutralAppend(s, head + v, d, [','] + FieldsText(fields.rest), FieldsDepth(fields.rest));
      }
    } else {
      assert FieldsText(fields) == [];
    }
  }

  lemma NameNeutral(s: Scan, name: string)
    requires Plain(s)
    ensures Neutral(s, Quoted(name) + [':'], 0)
  {
    QuotedNeutral(s, name);
    AtomNeutral(Scanned(s, Quoted(name)), [':']);
    NeutralAppend(s, Quoted(name), 0, [':'], 0);
  }

  // ------------------------------------------------------------------- main results

  /** The bracket nesting of a text is the depth of the value it was made of. */
  lemma NestingIsDepth(j: Json)
    ensures Nesting(Text(j)) == Depth(j)
  {
    TextNeutral(START, j);
  }

  /** No proper part of an object's text, from its start on, is the text of any JSON
      value. */
  lemma CutIsNotJson(fields: Fields, n: nat)
    requires 0 < n < |Text(Obj(fields))|
    ensures !IsJson(Text(Obj(fields))[..n])
  {
    var text := Text(Obj(fields));
    FieldsNeutral(Step(START, '{'), fields);
    BracketsNeutral(START, '{', FieldsText(fields), '}', FieldsDepth(fields));
    assert Scanned(START, text[..n]).depth > 0;
    if IsJson(text[..n]) {
      var j: Json :| Text(j) == text[..n];
      TextNeutral(START, j);
      assert false;
    }
  }

  // ----------------------------------------------------------------------- examples

  /** n + 1 empty arrays inside each other. */
  function Nested(n: nat): Json {
    if n == 0 then Arr(NoItems) else Arr(Item(Nested(n - 1), NoItems))
  }

  lemma {:induction false} NestedShape(n: nat)
    ensures Depth(Nested(n)) == n + 1 && |Text(Nested(n))| == 2 * (n + 1)
  {
    if n > 0 {
      NestedShape(n - 1);
      assert ItemsText(Item(Nested(n - 1), NoItems)) == Text(Nested(n - 1));
    }
  }

  lemma {:induction false} EscapesLong(s: string)
    ensures |Escapes(s)| >= |s|
  {
    if s != [] { EscapesLong(s[1..]); }
  }
}
