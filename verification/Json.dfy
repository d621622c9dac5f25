/** JSON as the state block is written in it, strings, lists and objects, and as it is read. */
module Json {
  import opened Text

  datatype Value =
    | Text(text: string) | List(items: Values) | Object(fields: Fields)
    | Null | True | False | Number(digits: string)
  datatype Values = NoValues | Values(head: Value, tail: Values)
  datatype Fields = NoFields | Fields(name: string, value: Value, tail: Fields)

  /* ---- strings ---- */

  function HexDigit(d: nat): char
    requires d < 16
  {
    ['0', '1', '2', '3', '4', '5', '6', '7', '8', '9', 'a', 'b', 'c', 'd', 'e', 'f'][d]
  }

  function HexValue(c: char): int {
    if '0' <= c <= '9' then c as int - '0' as int
    else if 'a' <= c <= 'f' then c as int - 'a' as int + 10
    else if 'A' <= c <= 'F' then c as int - 'A' as int + 10
    else -1
  }

  /** A byte written as it is. */
  predicate Plain(c: char) {
    ' ' <= c && c != '\"' && c != '\\' && c != '<' && c != '>' && c != '&'
  }

  /** A byte in a string: as it is, by a short escape, or by its code. */
  function Escape(c: char): (e: string)
    ensures e != ""
    ensures Plain(c) ==> e == [c]
    ensures !Plain(c) ==> e[0] == '\\'
  {
    if Plain(c) then [c]
    else if c == '\"' || c == '\\' then ['\\', c]
    else if c == '\n' then ['\\', 'n']
    else if c == '\r' then ['\\', 'r']
    else if c == '\t' then ['\\', 't']
    else if c == '\U{08}' then ['\\', 'b']
    else if c == '\U{0C}' then ['\\', 'f']
    else ['\\', 'u', '0', '0', HexDigit(c as int / 16), HexDigit(c as int % 16)]
  }

  function Escaped(s: string): string {
    if s == "" then "" else Escape(s[0]) + Escaped(s[1..])
  }

  function Quoted(s: string): string {
    ['\"'] + Escaped(s) + ['\"']
  }

  /** The number four hexadecimal digits write, or -1. */
  function HexCode(text: string): (code: int)
    ensures -1 <= code < 0x10000
  {
    if |text| < 4 || HexValue(text[0]) < 0 || HexValue(text[1]) < 0 || HexValue(text[2]) < 0 || HexValue(text[3]) < 0 then -1
    else 4096 * HexValue(text[0]) + 256 * HexValue(text[1]) + 16 * HexValue(text[2]) + HexValue(text[3])
  }

  /** The UTF-8 bytes of a code point. */
  function Utf8(code: int): string
    requires 0 <= code < 0x110000
  {
    if code < 0x80 then [code as char]
    else if code < 0x800 then [(0xC0 + code / 64) as char, (0x80 + code % 64) as char]
    else if code < 0x10000 then [(0xE0 + code / 4096) as char, (0x80 + code / 64 % 64) as char, (0x80 + code % 64) as char]
    else [(0xF0 + code / 262144) as char, (0x80 + code / 4096 % 64) as char,
          (0x80 + code / 64 % 64) as char, (0x80 + code % 64) as char]
  }

  const REPLACEMENT := 0xFFFD

  /** What a `\\u` escape stands for, after the `u`: two halves of a pair are one code point,
      and a half without its other is replaced. */
  function ReadCode(text: string): (r: Option<(string, string)>)
    ensures r.Some? ==> |r.value.1| < |text|
  {
    var code := HexCode(text);
    if code < 0 then None
    else if code < 0xD800 || code >= 0xE000 then Some((Utf8(code), text[4..]))
    else
      var low := if |text| >= 6 && text[4] == '\\' && text[5] == 'u' then HexCode(text[6..]) else -1;
      if code < 0xDC00 && 0xDC00 <= low < 0xE000
      then Some((Utf8(0x10000 + 1024 * (code - 0xD800) + (low - 0xDC00)), text[10..]))
      else Some((Utf8(REPLACEMENT), text[4..]))
  }

  /** One character of a string by its bytes, and what follows it. */
  function ReadCharacter(text: string): (r: Option<(string, string)>)
    ensures r.Some? ==> |r.value.1| < |text|
  {
    if text == "" || text[0] == '\"' || text[0] < ' ' then None
    else if text[0] != '\\' then Some(([text[0]], text[1..]))
    else if |text| < 2 then None
    else if text[1] == '\"' || text[1] == '\\' || text[1] == '/' then Some(([text[1]], text[2..]))
    else if text[1] == 'n' then Some(("\n", text[2..]))
    else if text[1] == 'r' then Some(("\r", text[2..]))
    else if text[1] == 't' then Some(("\t", text[2..]))
    else if text[1] == 'b' then Some((['\U{08}'], text[2..]))
    else if text[1] == 'f' then Some((['\U{0C}'], text[2..]))
    else if text[1] == 'u' then ReadCode(text[2..])
    else None
  }

  /** A string after its opening quote, and what follows its closing one. */
  function ReadString(text: string): (r: Option<(string, string)>)
    ensures r.Some? ==> |r.value.1| < |text|
    decreases |text|
  {
    if text != "" && text[0] == '\"' then Some(("", text[1..]))
    else
      var first := ReadCharacter(text);
      if first.None? then None
      else
        var rest := ReadString(first.value.1);
        if rest.None? then None else Some((first.value.0 + rest.value.0, rest.value.1))
  }

  predicate ByCode(c: char) {
    !Plain(c) && c !in ['\"', '\\', '\n', '\r', '\t', '\U{08}', '\U{0C}']
  }

  lemma ReadsEscape(c: char, rest: string)
    ensures ReadCharacter(Escape(c) + rest) == Some(([c], rest))
    ensures (Escape(c) + rest)[0] != '\"'
  {
    hide HexDigit, HexValue, HexCode, ReadCode;
    var text := Escape(c) + rest;
    assert text[|Escape(c)|..] == rest;
    if ByCode(c) {
      ReadsCode(c);
      ReadsHex(c, rest);
      assert text[2..] == ['0', '0', HexDigit(c as int / 16), HexDigit(c as int % 16)] + rest;
    }
  }

  lemma ReadsHex(c: char, rest: string)
    requires ByCode(c) && c as int < 128
    ensures ReadCode(['0', '0', HexDigit(c as int / 16), HexDigit(c as int % 16)] + rest) == Some(([c], rest))
  {
    hide HexDigit, HexValue;
    ReadsCode(c);
    ZeroIsRead();
    var text := ['0', '0', HexDigit(c as int / 16), HexDigit(c as int % 16)] + rest;
    assert text[4..] == rest;
    assert HexCode(text) == c as int;
  }

  lemma ZeroIsRead()
    ensures HexValue('0') == 0
  {
  }

  lemma ReadsCode(c: char)
    requires ByCode(c)
    ensures c as int < 128 && Escape(c) == ['\\', 'u', '0', '0', HexDigit(c as int / 16), HexDigit(c as int % 16)]
    ensures HexValue(HexDigit(c as int / 16)) == c as int / 16 && HexValue(HexDigit(c as int % 16)) == c as int % 16
  {
    HexIsRead(c as int / 16);
    HexIsRead(c as int % 16);
  }

  lemma HexIsRead(d: nat)
    requires d < 16
    ensures HexValue(HexDigit(d)) == d
  {
  }

  lemma ReadsNext(c: char, more: string)
    ensures ReadString(Escape(c) + more) ==
      if ReadString(more).None? then None else Some(([c] + ReadString(more).value.0, ReadString(more).value.1))
  {
    hide ReadCharacter, Escape;
    ReadsEscape(c, more);
  }

  lemma {:induction false} ReadsString(s: string, rest: string)
    ensures ReadString(Escaped(s) + ['\"'] + rest) == Some((s, rest))
  {
    hide ReadCharacter, Escape;
    if s == "" {
      assert (Escaped(s) + ['\"'] + rest)[1..] == rest;
    } else {
      hide ReadString;
      var more := Escaped(s[1..]) + ['\"'] + rest;
      assert Escaped(s) + ['\"'] + rest == Escape(s[0]) + more;
      ReadsNext(s[0], more);
      ReadsString(s[1..], rest);
      assert [s[0]] + s[1..] == s;
    }
  }

  /* ---- values ---- */

  /** No number and no literal: what a state is written with. */
  predicate Written(v: Value) {
    match v
    case Text(_) => true
    case List(items) => AllWritten(items)
    case Object(fields) => FieldsWritten(fields)
    case _ => false
  }

  predicate AllWritten(vs: Values) {
    vs.Values? ==> Written(vs.head) && AllWritten(vs.tail)
  }

  predicate FieldsWritten(fs: Fields) {
    fs.Fields? ==> Written(fs.value) && FieldsWritten(fs.tail)
  }

  function Encode(v: Value): (text: string)
    ensures Written(v) ==>
      && text != ""
      && text[0] == (match v case Text(_) => '\"' case List(_) => '[' case _ => '{')
      && text[|text| - 1] == match v case Text(_) => '\"' case List(_) => ']' case _ => '}'
  {
    match v
    case Text(s) => Quoted(s)
    case List(items) => ['['] + EncodeItems(items)
    case Object(fields) => ['{'] + EncodeFields(fields)
    case Null => "null"
    case True => "true"
    case False => "false"
    case Number(digits) => digits
  }

  function Comma(more: bool): string {
    if more then [','] else ""
  }

  /** The items and the closing bracket. */
  function EncodeItems(vs: Values): (text: string)
    ensures text != "" && text[|text| - 1] == ']'
  {
    match vs
    case NoValues => [']']
    case Values(v, tail) => Encode(v) + Comma(tail.Values?) + EncodeItems(tail)
  }

  function EncodeFields(fs: Fields): (text: string)
    ensures text != "" && text[|text| - 1] == '}'
  {
    match fs
    case NoFields => ['}']
    case Fields(name, v, tail) => Quoted(name) + [':'] + Encode(v) + Comma(tail.Fields?) + EncodeFields(tail)
  }

  predicate JsonSpace(c: char) {
    c == ' ' || c == '\t' || c == '\n' || c == '\r'
  }

  function Skip(text: string): (rest: string)
    ensures |rest| <= |text| && (rest != "" ==> !JsonSpace(rest[0]))
    ensures text != "" && !JsonSpace(text[0]) ==> rest == text
  {
    if text != "" && JsonSpace(text[0]) then Skip(text[1..]) else text
  }

  function LeadingDigits(text: string): (n: nat)
    ensures n <= |text|
  {
    if text != "" && '0' <= text[0] <= '9' then 1 + LeadingDigits(text[1..]) else 0
  }

  /** The length of the number a text opens with, or 0. */
  function NumberLength(text: string): (n: nat)
    ensures n <= |text|
  {
    var sign := if text != "" && text[0] == '-' then 1 else 0;
    var whole := LeadingDigits(text[sign..]);
    if whole == 0 || (whole > 1 && text[sign] == '0') then 0
    else
      var a := sign + whole;
      var fraction := if a < |text| && text[a] == '.' then 1 + LeadingDigits(text[a + 1..]) else 0;
      if fraction == 1 then 0
      else
        var b := a + fraction;
        if b < |text| && (text[b] == 'e' || text[b] == 'E') then
          var c := if b + 1 < |text| && (text[b + 1] == '+' || text[b + 1] == '-') then b + 2 else b + 1;
          var power := LeadingDigits(text[c..]);
          if power == 0 then 0 else c + power
        else b
  }

  /** A literal or a number, and what follows it. */
  function ReadScalar(text: string): (r: Option<(Value, string)>)
    ensures r.Some? ==> |r.value.1| < |text| && !r.value.0.Object?
  {
    if "null" <= text then Some((Null, text[4..]))
    else if "true" <= text then Some((True, text[4..]))
    else if "false" <= text then Some((False, text[5..]))
    else if NumberLength(text) > 0 then Some((Number(text[..NumberLength(text)]), text[NumberLength(text)..]))
    else None
  }

  /** A value after any white space, and what follows it. */
  function Parse(text: string): (r: Option<(Value, string)>)
    ensures r.Some? ==> |r.value.1| < |text|
    decreases |text|, 0
  {
    var t := Skip(text);
    if t == "" then None
    else if t[0] == '\"' then
      var s := ReadString(t[1..]);
      if s.None? then None else Some((Text(s.value.0), s.value.1))
    else if t[0] == '[' then
      var items := ParseItems(t[1..]);
      if items.None? then None else Some((List(items.value.0), items.value.1))
    else if t[0] == '{' then
      var fields := ParseFields(t[1..]);
      if fields.None? then None else Some((Object(fields.value.0), fields.value.1))
    else ReadScalar(t)
  }

  /** The items after an opening bracket. */
  function ParseItems(text: string): (r: Option<(Values, string)>)
    ensures r.Some? ==> |r.value.1| < |text|
    decreases |text|, 2
  {
    var t := Skip(text);
    if t != "" && t[0] == ']' then Some((NoValues, t[1..])) else ParseSomeItems(text)
  }

  function ParseSomeItems(text: string): (r: Option<(Values, string)>)
    ensures r.Some? ==> |r.value.1| < |text|
    decreases |text|, 1
  {
    var v := Parse(text);
    if v.None? then None
    else
      var t := Skip(v.value.1);
      if t != "" && t[0] == ']' then Some((Values(v.value.0, NoValues), t[1..]))
      else if t == "" || t[0] != ',' then None
      else
        var tail := ParseSomeItems(t[1..]);
        if tail.None? then None else Some((Values(v.value.0, tail.value.0), tail.value.1))
  }

  /** The fields after an opening brace. */
  function ParseFields(text: string): (r: Option<(Fields, string)>)
    ensures r.Some? ==> |r.value.1| < |text|
    decreases |text|, 2
  {
    var t := Skip(text);
    if t != "" && t[0] == '}' then Some((NoFields, t[1..])) else ParseSomeFields(text)
  }

  function ParseSomeFields(text: string): (r: Option<(Fields, string)>)
    ensures r.Some? ==> |r.value.1| < |text|
    decreases |text|, 1
  {
    var t := Skip(text);
    if t == "" || t[0] != '\"' then None
    else
      var name := ReadString(t[1..]);
      if name.None? then None
      else
        var colon := Skip(name.value.1);
        if colon == "" || colon[0] != ':' then None
        else
          var v := Parse(colon[1..]);
          if v.None? then None
          else
            var u := Skip(v.value.1);
            if u != "" && u[0] == '}' then Some((Fields(name.value.0, v.value.0, NoFields), u[1..]))
            else if u == "" || u[0] != ',' then None
            else
              var tail := ParseSomeFields(u[1..]);
              if tail.None? then None else Some((Fields(name.value.0, v.value.0, tail.value.0), tail.value.1))
  }

  lemma Drops(c: char, rest: string)
    ensures ([c] + rest)[0] == c && ([c] + rest)[1..] == rest
  {
  }

  lemma ReadsQuoted(s: string, rest: string)
    ensures (Quoted(s) + rest)[0] == '\"'
    ensures ReadString((Quoted(s) + rest)[1..]) == Some((s, rest))
  {
    hide Escaped, ReadString;
    ReadsString(s, rest);
    assert (Quoted(s) + rest)[1..] == Escaped(s) + ['\"'] + rest;
  }

  /** Parsing what was encoded gives the value back, whatever follows it. */
  lemma {:induction false} ParsesEncoding(v: Value, rest: string)
    requires Written(v)
    ensures Parse(Encode(v) + rest) == Some((v, rest))
    decreases v
  {
    hide Quoted, ReadString, ParseItems, ParseFields, EncodeItems, EncodeFields, ReadScalar;
    match v {
      case Text(s) => ReadsQuoted(s, rest);
      case List(items) =>
        ParsesItems(items, rest);
        assert (Encode(v) + rest)[1..] == EncodeItems(items) + rest;
      case Object(fields) =>
        ParsesFields(fields, rest);
        assert (Encode(v) + rest)[1..] == EncodeFields(fields) + rest;
    }
  }

  lemma ParsesAfterSpace(text: string)
    ensures Parse([' '] + text) == Parse(text)
  {
    assert ([' '] + text)[1..] == text;
  }

  /** An encoding taken apart at its first item, or its first field. */
  lemma ItemsText(vs: Values, more: string)
    requires vs.Values?
    ensures EncodeItems(vs) + more == Encode(vs.head) + (Comma(vs.tail.Values?) + (EncodeItems(vs.tail) + more))
  {
    hide Encode, Comma;
    var a, b, c := Encode(vs.head), Comma(vs.tail.Values?), EncodeItems(vs.tail);
    assert EncodeItems(vs) == a + b + c;
    hide EncodeItems;
    assert a + b + c + more == a + (b + (c + more));
  }

  lemma FieldsText(fs: Fields, more: string)
    requires fs.Fields?
    ensures EncodeFields(fs) + more
         == Quoted(fs.name) + ([':'] + (Encode(fs.value) + (Comma(fs.tail.Fields?) + (EncodeFields(fs.tail) + more))))
  {
    hide Encode, Comma, Quoted;
    var q, a, b, c := Quoted(fs.name), Encode(fs.value), Comma(fs.tail.Fields?), EncodeFields(fs.tail);
    assert EncodeFields(fs) == q + [':'] + a + b + c;
    hide EncodeFields;
    assert q + [':'] + a + b + c + more == q + ([':'] + (a + (b + (c + more))));
  }

  lemma ObjectText(fields: Fields, more: string)
    ensures Encode(Object(fields)) + more == ['{'] + (EncodeFields(fields) + more)
  {
    hide EncodeFields;
  }

  lemma NoItemsText(more: string)
    ensures EncodeItems(NoValues) + more == [']'] + more && EncodeFields(NoFields) + more == ['}'] + more
  {
  }

  /** One item, and what its delimiter says about the rest. */
  lemma ItemIsRead(text: string, v: Value, more: string, tail: Values, rest: string)
    requires Parse(text) == Some((v, more)) && more != ""
    requires if tail == NoValues then more == [']'] + rest
             else more[0] == ',' && ParseSomeItems(more[1..]) == Some((tail, rest))
    ensures ParseSomeItems(text) == Some((Values(v, tail), rest))
  {
    hide Parse;
    Drops(']', rest);
  }

  lemma {:induction false} ParsesItems(vs: Values, rest: string)
    requires AllWritten(vs)
    ensures ParseItems(EncodeItems(vs) + rest) == Some((vs, rest))
    ensures vs.Values? ==> ParseSomeItems(EncodeItems(vs) + rest) == Some((vs, rest))
    decreases vs
  {
    hide Parse, Encode, ParseSomeItems;
    match vs {
      case NoValues => Drops(']', rest);
      case Values(v, tail) =>
        var more := Comma(tail.Values?) + (EncodeItems(tail) + rest);
        ItemsText(vs, rest);
        ParsesEncoding(v, more);
        ParsesItems(tail, rest);
        Drops(',', EncodeItems(tail) + rest);
        ItemIsRead(Encode(v) + more, v, more, tail, rest);
    }
  }

  lemma FieldIsRead(name: string, value: string, v: Value, more: string, tail: Fields, rest: string)
    requires Parse(value) == Some((v, more)) && more != ""
    requires if tail == NoFields then more == ['}'] + rest
             else more[0] == ',' && ParseSomeFields(more[1..]) == Some((tail, rest))
    ensures ParseSomeFields(Quoted(name) + ([':'] + value)) == Some((Fields(name, v, tail), rest))
  {
    hide Parse, Quoted, ReadString;
    ReadsQuoted(name, [':'] + value);
    Drops(':', value);
    Drops('}', rest);
  }

  lemma {:induction false} ParsesFields(fs: Fields, rest: string)
    requires FieldsWritten(fs)
    ensures ParseFields(EncodeFields(fs) + rest) == Some((fs, rest))
    ensures fs.Fields? ==> ParseSomeFields(EncodeFields(fs) + rest) == Some((fs, rest))
    decreases fs
  {
    hide Parse, Encode, Quoted, ParseSomeFields;
    match fs {
      case NoFields => Drops('}', rest);
      case Fields(name, v, tail) =>
        var more := Comma(tail.Fields?) + (EncodeFields(tail) + rest);
        var value := Encode(v) + more;
        FieldsText(fs, rest);
        ParsesEncoding(v, more);
        ParsesFields(tail, rest);
        Drops(',', EncodeFields(tail) + rest);
        FieldIsRead(name, value, v, more, tail, rest);
        ReadsQuoted(name, [':'] + value);
    }
  }

  /* ---- one line ---- */

  lemma EscapeHasNoNewline(c: char)
    ensures '\n' !in Escape(c)
  {
    hide HexDigit;
    if ByCode(c) {
      ReadsCode(c);
    }
  }

  lemma {:induction false} EscapedHasNoNewline(s: string)
    ensures '\n' !in Escaped(s)
  {
    hide Escape;
    if s != "" {
      EscapeHasNoNewline(s[0]);
      EscapedHasNoNewline(s[1..]);
    }
  }

  lemma {:induction false} EncodedHasNoNewline(v: Value)
    requires Written(v)
    ensures '\n' !in Encode(v)
    decreases v
  {
    match v {
      case Text(s) => EscapedHasNoNewline(s);
      case List(items) => ItemsHaveNoNewline(items);
      case Object(fields) => FieldsHaveNoNewline(fields);
    }
  }

  lemma {:induction false} ItemsHaveNoNewline(vs: Values)
    requires AllWritten(vs)
    ensures '\n' !in EncodeItems(vs)
    decreases vs
  {
    if vs.Values? {
      EncodedHasNoNewline(vs.head);
      ItemsHaveNoNewline(vs.tail);
    }
  }

  lemma {:induction false} FieldsHaveNoNewline(fs: Fields)
    requires FieldsWritten(fs)
    ensures '\n' !in EncodeFields(fs)
    decreases fs
  {
    if fs.Fields? {
      EscapedHasNoNewline(fs.name);
      EncodedHasNoNewline(fs.value);
      FieldsHaveNoNewline(fs.tail);
    }
  }

  /* ---- where a mark occurs in an encoding ---- */

  /** A mark of plain bytes without JSON punctuation, whose first byte is in no escape. */
  predicate Inert(mark: string) {
    && mark != "" && HexValue(mark[0]) < 0 && mark[0] != 'n' && mark[0] != 'r' && mark[0] != 't' && mark[0] != 'u'
    && InertText(mark)
  }

  predicate InertText(s: string) {
    forall k :: 0 <= k < |s| ==> Plain(s[k]) && s[k] !in ",:[]{}"
  }

  lemma Located(s: string, mark: string, i: int)
    requires OccursAt(s, mark, i)
    ensures Contains(s, mark)
  {
  }

  lemma ByteOf(s: string, mark: string, i: int, k: nat)
    requires OccursAt(s, mark, i) && k < |mark|
    ensures s[i + k] == mark[k]
  {
    assert s[i..i + |mark|][k] == s[i + k];
  }

  lemma OccursInPart(a: string, s: string, b: string, mark: string, i: int)
    requires 0 <= i && i + |mark| <= |s|
    ensures OccursAt(a + s + b, mark, |a| + i) <==> OccursAt(s, mark, i)
  {
    assert (a + s + b)[|a| + i..|a| + i + |mark|] == s[i..i + |mark|];
  }

  lemma ContainedInPart(a: string, s: string, b: string, mark: string)
    requires Contains(s, mark)
    ensures Contains(a + s + b, mark)
  {
    var i :| 0 <= i <= |s| && OccursAt(s, mark, i);
    OccursInPart(a, s, b, mark, i);
    Located(a + s + b, mark, |a| + i);
  }

  /** A byte the mark does not hold separates the text. */
  lemma Separated(a: string, c: char, b: string, mark: string)
    requires c !in mark && mark != ""
    ensures Contains(a + [c] + b, mark) <==> Contains(a, mark) || Contains(b, mark)
  {
    var s := a + [c] + b;
    assert s[|a|] == c;
    if Contains(s, mark) {
      var i :| 0 <= i <= |s| && OccursAt(s, mark, i);
      if i <= |a| < i + |mark| {
        ByteOf(s, mark, i, |a| - i);
        assert false;
      } else if i + |mark| <= |a| {
        OccursInPart("", a, [c] + b, mark, i);
        assert "" + a + ([c] + b) == s;
        Located(a, mark, i);
      } else {
        OccursInPart(a + [c], b, "", mark, i - |a| - 1);
        assert a + [c] + b + "" == s;
        Located(b, mark, i - |a| - 1);
      }
    }
    if Contains(a, mark) {
      ContainedInPart("", a, [c] + b, mark);
      assert "" + a + ([c] + b) == s;
    }
    if Contains(b, mark) {
      ContainedInPart(a + [c], b, "", mark);
      assert a + [c] + b + "" == s;
    }
  }

  /** A byte the mark does not start with can go from the front. */
  lemma SkipByte(c: char, b: string, mark: string)
    requires mark != "" && mark[0] != c
    ensures Contains([c] + b, mark) <==> Contains(b, mark)
  {
    var s := [c] + b;
    if Contains(s, mark) {
      var i :| 0 <= i <= |s| && OccursAt(s, mark, i);
      ByteOf(s, mark, i, 0);
      OccursInPart([c], b, "", mark, i - 1);
      assert [c] + b + "" == s;
      Located(b, mark, i - 1);
    }
    if Contains(b, mark) {
      ContainedInPart([c], b, "", mark);
      assert [c] + b + "" == s;
    }
  }

  lemma {:induction false} SkipBytes(e: string, b: string, mark: string)
    requires mark != "" && mark[0] !in e
    ensures Contains(e + b, mark) <==> Contains(b, mark)
  {
    if e == "" {
      assert e + b == b;
    } else {
      SkipBytes(e[1..], b, mark);
      SkipByte(e[0], e[1..] + b, mark);
      assert e + b == [e[0]] + (e[1..] + b);
    }
  }

  lemma HoldsNothing(mark: string)
    requires mark != ""
    ensures !Contains("", mark)
  {
  }

  lemma InertBytes(mark: string, c: char)
    requires Inert(mark)
    ensures !Plain(c) || c in ",:[]{}" ==> c !in mark
  {
  }

  /** The bytes after the backslash of an escape are none the mark starts with. */
  lemma EscapeTail(mark: string, c: char)
    requires Inert(mark) && !Plain(c)
    ensures mark[0] !in Escape(c)[1..]
  {
    assert Plain(mark[0]);
    if ByCode(c) {
      hide HexDigit, HexValue;
      ReadsCode(c);
      assert Escape(c)[1..] == ['u', '0', '0', HexDigit(c as int / 16), HexDigit(c as int % 16)];
    }
  }

  /** `head` is a stretch of plain bytes already read. */
  lemma {:induction false} EscapedAfter(head: string, s: string, mark: string)
    requires Inert(mark)
    ensures Contains(head + Escaped(s), mark) <==> Contains(head + s, mark)
    decreases |s|
  {
    hide Contains, Escape, Inert;
    if s == "" {
      assert Escaped(s) == s;
    } else {
      var c, rest := s[0], s[1..];
      assert s == [c] + rest;
      if Plain(c) {
        EscapedAfter(head + [c], rest, mark);
        assert head + Escaped(s) == head + [c] + Escaped(rest);
        assert head + s == head + [c] + rest;
      } else {
        EscapedAfter("", rest, mark);
        assert "" + Escaped(rest) == Escaped(rest) && "" + rest == rest;
        var e := Escape(c)[1..];
        assert head + Escaped(s) == head + ['\\'] + (e + Escaped(rest));
        assert head + s == head + [c] + rest;
        InertBytes(mark, '\\');
        InertBytes(mark, c);
        MarkStarts(mark);
        EscapeTail(mark, c);
        Separated(head, '\\', e + Escaped(rest), mark);
        SkipBytes(e, Escaped(rest), mark);
        Separated(head, c, rest, mark);
      }
    }
  }

  lemma MarkStarts(mark: string)
    requires Inert(mark)
    ensures mark != ""
  {
  }

  /** A mark occurs in a quoted string exactly when it occurs in the string. */
  lemma QuotedHolds(s: string, more: string, mark: string)
    requires Inert(mark)
    ensures Contains(Quoted(s) + more, mark) <==> Contains(s, mark) || Contains(more, mark)
  {
    hide Contains, Escaped, Inert;
    MarkStarts(mark);
    InertBytes(mark, '\"');
    EscapedAfter("", s, mark);
    assert "" + Escaped(s) == Escaped(s) && "" + s == s;
    Separated("", '\"', Escaped(s) + ['\"'] + more, mark);
    Separated(Escaped(s), '\"', more, mark);
    HoldsNothing(mark);
    assert Quoted(s) + more == "" + ['\"'] + (Escaped(s) + ['\"'] + more);
  }

  /** Some string or field name of the value holds the mark. */
  predicate Holds(v: Value, mark: string) {
    match v
    case Text(s) => Contains(s, mark)
    case List(items) => ItemsHold(items, mark)
    case Object(fields) => FieldsHold(fields, mark)
    case _ => false
  }

  predicate ItemsHold(vs: Values, mark: string) {
    vs.Values? && (Holds(vs.head, mark) || ItemsHold(vs.tail, mark))
  }

  predicate FieldsHold(fs: Fields, mark: string) {
    fs.Fields? && (Contains(fs.name, mark) || Holds(fs.value, mark) || FieldsHold(fs.tail, mark))
  }

  lemma PunctuationSkipped(c: char, more: string, mark: string)
    requires Inert(mark) && c in ",:[]{}"
    ensures Contains([c] + more, mark) <==> Contains(more, mark)
  {
    assert mark[0] != c;
    SkipByte(c, more, mark);
  }

  lemma CommaSkipped(comma: bool, more: string, mark: string)
    requires Inert(mark)
    ensures Contains(Comma(comma) + more, mark) <==> Contains(more, mark)
  {
    hide Contains;
    if comma {
      PunctuationSkipped(',', more, mark);
    } else {
      assert Comma(comma) + more == more;
    }
  }

  /** A mark occurs in an encoding exactly when a string of the value holds it. */
  lemma {:induction false} EncodingHolds(v: Value, more: string, mark: string)
    requires Inert(mark) && Written(v)
    ensures Contains(Encode(v) + more, mark) <==> Holds(v, mark) || Contains(more, mark)
    decreases v
  {
    hide Contains, Inert, Quoted, EncodeItems, EncodeFields;
    match v {
      case Text(s) => QuotedHolds(s, more, mark);
      case List(items) =>
        ItemsAreHeld(items, more, mark);
        PunctuationSkipped('[', EncodeItems(items) + more, mark);
        assert Encode(v) + more == ['['] + (EncodeItems(items) + more);
      case Object(fields) =>
        FieldsAreHeld(fields, more, mark);
        PunctuationSkipped('{', EncodeFields(fields) + more, mark);
        assert Encode(v) + more == ['{'] + (EncodeFields(fields) + more);
    }
  }

  lemma {:induction false} ItemsAreHeld(vs: Values, more: string, mark: string)
    requires Inert(mark) && AllWritten(vs)
    ensures Contains(EncodeItems(vs) + more, mark) <==> ItemsHold(vs, mark) || Contains(more, mark)
    decreases vs
  {
    hide Contains, Inert, Encode;
    match vs {
      case NoValues => PunctuationSkipped(']', more, mark);
      case Values(v, tail) =>
        var rest := EncodeItems(tail) + more;
        assert EncodeItems(vs) + more == Encode(v) + (Comma(tail.Values?) + rest);
        EncodingHolds(v, Comma(tail.Values?) + rest, mark);
        CommaSkipped(tail.Values?, rest, mark);
        ItemsAreHeld(tail, more, mark);
    }
  }

  lemma {:induction false} FieldsAreHeld(fs: Fields, more: string, mark: string)
    requires Inert(mark) && FieldsWritten(fs)
    ensures Contains(EncodeFields(fs) + more, mark) <==> FieldsHold(fs, mark) || Contains(more, mark)
    decreases fs
  {
    hide Contains, Inert, Encode, Quoted;
    match fs {
      case NoFields => PunctuationSkipped('}', more, mark);
      case Fields(name, v, tail) =>
        var rest := EncodeFields(tail) + more;
        var value := Encode(v) + (Comma(tail.Fields?) + rest);
        assert EncodeFields(fs) + more == Quoted(name) + ([':'] + value);
        QuotedHolds(name, [':'] + value, mark);
        PunctuationSkipped(':', value, mark);
        EncodingHolds(v, Comma(tail.Fields?) + rest, mark);
        CommaSkipped(tail.Fields?, rest, mark);
        FieldsAreHeld(tail, more, mark);
    }
  }

  /* ---- no part of an encoding reads as an object ---- */

  /** The text is one object, with nothing but white space around it. */
  predicate WholeObject(text: string) {
    var v := Parse(text);
    v.Some? && v.value.0.Object? && Skip(v.value.1) == ""
  }

  /** No suffix of the text, without its leading white space, is one object. */
  ghost predicate Closed(text: string) {
    forall k :: 0 <= k <= |text| ==> !WholeObject(TrimLeft(text[k..]))
  }

  predicate KeyByte(c: char) {
    'a' <= c <= 'z' || c == '_'
  }

  predicate KeyName(name: string) {
    name != "" && forall k :: 0 <= k < |name| ==> KeyByte(name[k])
  }

  /** Objects with lower-case keys that hold texts, such objects, and lists of them. */
  predicate Shaped(v: Value) {
    match v
    case Text(_) => true
    case List(items) => ItemsShaped(items)
    case Object(fields) => FieldsShaped(fields)
    case _ => false
  }

  predicate ItemsShaped(vs: Values) {
    vs.Values? ==> vs.head.Object? && Shaped(vs.head) && ItemsShaped(vs.tail)
  }

  predicate FieldsShaped(fs: Fields) {
    fs.Fields? ==> KeyName(fs.name) && Shaped(fs.value) && FieldsShaped(fs.tail)
  }

  lemma {:induction false} ShapedIsWritten(v: Value)
    requires Shaped(v)
    ensures Written(v)
    decreases v
  {
    match v {
      case Text(_) =>
      case List(items) => ShapedItemsAreWritten(items);
      case Object(fields) => ShapedFieldsAreWritten(fields);
    }
  }

  lemma {:induction false} ShapedItemsAreWritten(vs: Values)
    requires ItemsShaped(vs)
    ensures AllWritten(vs)
    decreases vs
  {
    if vs.Values? {
      ShapedIsWritten(vs.head);
      ShapedItemsAreWritten(vs.tail);
    }
  }

  lemma {:induction false} ShapedFieldsAreWritten(fs: Fields)
    requires FieldsShaped(fs)
    ensures FieldsWritten(fs)
    decreases fs
  {
    if fs.Fields? {
      ShapedIsWritten(fs.value);
      ShapedFieldsAreWritten(fs.tail);
    }
  }

  /** What follows the closing quote of a text: the next quote, if any, opens a key. */
  predicate KeyNext(text: string) {
    if text == "" then true
    else if text[0] == '\"' then |text| > 1 && KeyByte(text[1])
    else text[0] >= ' ' && text[0] != '\\' && KeyNext(text[1..])
  }

  /** Read as a string from there, the text ends early or is followed by a letter, no colon. */
  lemma {:induction false} KeyNextIsNoKey(text: string)
    requires KeyNext(text)
    ensures ReadString(text).Some? ==>
      ReadString(text).value.1 != "" && KeyByte(ReadString(text).value.1[0])
  {
    if text != "" && text[0] != '\"' {
      KeyNextIsNoKey(text[1..]);
    }
  }

  lemma {:induction false} EscapeGuardsQuotes(s: string)
    ensures forall i :: 0 <= i < |Escaped(s)| && Escaped(s)[i] == '\"' ==> i > 0 && Escaped(s)[i - 1] == '\\'
  {
    hide Escape;
    if s != "" {
      EscapeGuardsQuotes(s[1..]);
      QuoteInEscape(s[0]);
      var e, rest := Escape(s[0]), Escaped(s[1..]);
      forall i | 0 <= i < |e + rest| && (e + rest)[i] == '\"' ensures i > 0 && (e + rest)[i - 1] == '\\' {
        if i >= |e| {
          assert rest[i - |e|] == '\"';
        }
      }
    }
  }

  lemma QuoteInEscape(c: char)
    ensures forall i :: 0 <= i < |Escape(c)| && Escape(c)[i] == '\"' ==> i > 0 && Escape(c)[i - 1] == '\\'
  {
    hide HexDigit, HexValue;
    if ByCode(c) {
      ReadsCode(c);
      HexIsNoQuote(c as int / 16);
      HexIsNoQuote(c as int % 16);
    }
  }

  lemma HexIsNoQuote(d: nat)
    requires d < 16
    ensures HexDigit(d) != '\"'
  {
  }

  lemma FieldsAfterSpace(text: string)
    requires text != "" && JsonSpace(text[0])
    ensures ParseFields(text) == ParseFields(text[1..])
  {
  }

  lemma {:induction false} QuoteIsNotSkipped(a: string, b: string)
    ensures Skip(a + ['\"'] + b) != ""
    decreases |a|
  {
    var text := a + ['\"'] + b;
    if a != "" && JsonSpace(a[0]) {
      QuoteIsNotSkipped(a[1..], b);
      assert text[1..] == a[1..] + ['\"'] + b;
    }
  }

  /** A brace in a text, read as the start of an object: what follows it is no list of fields
      that the end of the encoding completes. */
  lemma {:induction false} BraceInText(e: string, m: nat, more: string)
    requires forall i :: 0 <= i < |e| && e[i] == '\"' ==> i > 0 && e[i - 1] == '\\'
    requires 0 < m <= |e| && e[m - 1] != '\\' && KeyNext(more)
    ensures var r := ParseFields(e[m..] + ['\"'] + more); r.None? || Skip(r.value.1) != ""
    decreases |e| - m
  {
    hide Parse, ReadString, KeyNext;
    var text := e[m..] + ['\"'] + more;
    if m == |e| {
      KeyNextIsNoKey(more);
      Drops('\"', more);
      assert text == ['\"'] + more;
    } else if JsonSpace(e[m]) {
      BraceInText(e, m + 1, more);
      FieldsAfterSpace(text);
      assert text[1..] == e[m + 1..] + ['\"'] + more;
    } else {
      assert text[0] == e[m];
      QuoteIsNotSkipped(e[m + 1..], more);
      assert text[1..] == e[m + 1..] + ['\"'] + more;
    }
  }

  lemma OtherOpening(text: string)
    requires text != "" ==> !JsonSpace(text[0]) && text[0] != '{'
    ensures !WholeObject(text)
  {
    hide ReadString, ParseItems, ParseFields, ReadScalar;
    if text != "" {
      assert Skip(text) == text;
      ScalarIsNoObject(text);
    } else {
      assert Skip(text) == "";
    }
  }

  lemma ScalarIsNoObject(text: string)
    ensures ReadScalar(text).Some? ==> !ReadScalar(text).value.0.Object?
  {
  }

  lemma NotOpened(c: char, rest: string)
    requires c != '{' && !WholeObject(TrimLeft(rest))
    ensures !WholeObject(TrimLeft([c] + rest))
  {
    hide WholeObject;
    assert ([c] + rest)[1..] == rest;
    if !IsSpace(c) {
      OtherOpening([c] + rest);
    }
  }

  lemma ClosedCons(c: char, rest: string)
    requires Closed(rest) && !WholeObject(TrimLeft([c] + rest))
    ensures Closed([c] + rest)
  {
    hide WholeObject, TrimLeft;
    var text := [c] + rest;
    forall k | 0 <= k <= |text| ensures !WholeObject(TrimLeft(text[k..])) {
      if k == 0 {
        assert text[0..] == text;
      } else {
        assert text[k..] == rest[k - 1..];
      }
    }
  }

  lemma ClosedHere(text: string)
    requires Closed(text)
    ensures !WholeObject(TrimLeft(text))
  {
    hide WholeObject, TrimLeft;
    assert text[0..] == text;
  }

  lemma {:induction false} ClosedPrefix(p: string, rest: string)
    requires Closed(rest) && forall k :: 0 <= k < |p| ==> p[k] != '{'
    ensures Closed(p + rest)
  {
    hide Closed, WholeObject, TrimLeft;
    if p == "" {
      assert p + rest == rest;
    } else {
      ClosedPrefix(p[1..], rest);
      ClosedHere(p[1..] + rest);
      NotOpened(p[0], p[1..] + rest);
      ClosedCons(p[0], p[1..] + rest);
      assert p + rest == [p[0]] + (p[1..] + rest);
    }
  }

  lemma BraceOpens(rest: string)
    requires var r := ParseFields(rest); r.None? || Skip(r.value.1) != ""
    ensures !WholeObject(TrimLeft(['{'] + rest))
  {
    hide ParseFields;
    var text := ['{'] + rest;
    assert text[1..] == rest && Skip(text) == text;
    assert TrimLeft(text) == text;
  }

  /** From any byte of a text on, what is left of the encoding is no object. */
  lemma {:induction false} TextIsClosed(e: string, m: nat, more: string)
    requires forall i :: 0 <= i < |e| && e[i] == '\"' ==> i > 0 && e[i - 1] == '\\'
    requires m <= |e| && Closed(more) && KeyNext(more)
    ensures Closed(e[m..] + ['\"'] + more)
    decreases |e| - m
  {
    hide Closed, WholeObject, TrimLeft, KeyNext, ParseFields, Skip;
    if m == |e| {
      ClosedPrefix(['\"'], more);
      assert e[m..] + ['\"'] + more == ['\"'] + more;
    } else {
      TextIsClosed(e, m + 1, more);
      var rest := e[m + 1..] + ['\"'] + more;
      assert e[m..] + ['\"'] + more == [e[m]] + rest;
      if e[m] == '{' {
        BraceInText(e, m + 1, more);
        BraceOpens(rest);
      } else {
        ClosedHere(rest);
        NotOpened(e[m], rest);
      }
      ClosedCons(e[m], rest);
    }
  }

  lemma QuotedIsClosed(s: string, more: string)
    requires Closed(more) && KeyNext(more)
    ensures Closed(Quoted(s) + more)
  {
    hide Closed, KeyNext, Escaped;
    EscapeGuardsQuotes(s);
    TextIsClosed(Escaped(s), 0, more);
    assert Escaped(s)[0..] == Escaped(s);
    ClosedPrefix(['\"'], Escaped(s) + ['\"'] + more);
    assert Quoted(s) + more == ['\"'] + (Escaped(s) + ['\"'] + more);
  }

  lemma {:induction false} KeyIsPlain(name: string)
    requires forall k :: 0 <= k < |name| ==> KeyByte(name[k])
    ensures Escaped(name) == name
  {
    if name != "" {
      KeyIsPlain(name[1..]);
    }
  }

  lemma KeyIsClosed(name: string, rest: string)
    requires KeyName(name) && Closed(rest)
    ensures Closed(Quoted(name) + rest)
    ensures KeyNext(Quoted(name) + rest)
  {
    hide Closed, Escaped;
    KeyIsPlain(name);
    ClosedPrefix(Quoted(name), rest);
  }

  lemma {:induction false} FieldsNextKey(fs: Fields, more: string)
    requires FieldsShaped(fs) && KeyNext(more)
    ensures KeyNext(EncodeFields(fs) + more)
  {
    hide Encode, Escaped;
    if fs.Fields? {
      KeyIsPlain(fs.name);
      assert (EncodeFields(fs) + more)[1] == fs.name[0];
    } else {
      Drops('}', more);
    }
  }

  lemma PunctuationBeforeKey(c: char, rest: string)
    requires c in ",:[]{}" && KeyNext(rest)
    ensures KeyNext([c] + rest)
  {
    Drops(c, rest);
  }

  lemma CommaBeforeKey(more: bool, rest: string)
    requires KeyNext(rest)
    ensures KeyNext(Comma(more) + rest)
  {
    hide KeyNext;
    if more {
      PunctuationBeforeKey(',', rest);
    } else {
      assert Comma(more) + rest == rest;
    }
  }

  lemma {:induction false} ItemsNextKey(vs: Values, more: string)
    requires ItemsShaped(vs) && KeyNext(more)
    ensures KeyNext(EncodeItems(vs) + more)
    decreases vs
  {
    hide KeyNext, EncodeFields, EncodeItems, Encode, Comma, Shaped;
    match vs {
      case NoValues =>
        NoItemsText(more);
        PunctuationBeforeKey(']', more);
      case Values(v, tail) =>
        ItemsNextKey(tail, more);
        var rest := Comma(tail.Values?) + (EncodeItems(tail) + more);
        CommaBeforeKey(tail.Values?, EncodeItems(tail) + more);
        ShapedFields(v);
        FieldsNextKey(v.fields, rest);
        PunctuationBeforeKey('{', EncodeFields(v.fields) + rest);
        ObjectText(v.fields, rest);
        ItemsText(vs, more);
    }
  }

  lemma ShapedFields(v: Value)
    requires Shaped(v) && v.Object?
    ensures FieldsShaped(v.fields)
  {
  }

  lemma CommaIsClosed(more: bool, rest: string)
    requires Closed(rest)
    ensures Closed(Comma(more) + rest)
  {
    hide Closed;
    ClosedPrefix(Comma(more), rest);
  }

  /** An encoded object followed by more than white space is not the whole. */
  lemma ObjectIsNotWhole(v: Value, more: string)
    requires v.Object? && Written(v) && Skip(more) != ""
    ensures !WholeObject(TrimLeft(Encode(v) + more))
  {
    hide Parse, EncodeFields, Skip;
    ParsesEncoding(v, more);
    assert (Encode(v) + more)[0] == '{';
    assert TrimLeft(Encode(v) + more) == Encode(v) + more;
  }

  lemma {:induction false} ValueIsClosed(v: Value, more: string)
    requires Shaped(v) && Closed(more) && KeyNext(more) && Skip(more) != ""
    ensures Closed(Encode(v) + more)
    decreases v
  {
    hide Closed, KeyNext, Skip, Quoted, EncodeFields, EncodeItems, WholeObject, TrimLeft;
    match v {
      case Text(s) => QuotedIsClosed(s, more);
      case List(items) =>
        ItemsAreClosed(items, more);
        ClosedPrefix(['['], EncodeItems(items) + more);
        assert Encode(v) + more == ['['] + (EncodeItems(items) + more);
      case Object(fields) =>
        FieldsAreClosed(fields, more);
        ShapedIsWritten(v);
        assert Encode(v) + more == ['{'] + (EncodeFields(fields) + more);
        ObjectIsNotWhole(v, more);
        ClosedCons('{', EncodeFields(fields) + more);
    }
  }

  lemma {:induction false} ItemsAreClosed(vs: Values, more: string)
    requires ItemsShaped(vs) && Closed(more) && KeyNext(more)
    ensures Closed(EncodeItems(vs) + more)
    decreases vs
  {
    hide Closed, KeyNext, Encode, EncodeItems, Comma, Skip, Shaped;
    match vs {
      case NoValues =>
        NoItemsText(more);
        ClosedPrefix([']'], more);
      case Values(v, tail) =>
        ItemsAreClosed(tail, more);
        ItemsNextKey(tail, more);
        var after := EncodeItems(tail) + more;
        CommaIsClosed(tail.Values?, after);
        CommaBeforeKey(tail.Values?, after);
        ItemsGoOn(tail, more);
        ValueIsClosed(v, Comma(tail.Values?) + after);
        ItemsText(vs, more);
    }
  }

  lemma ItemsGoOn(tail: Values, more: string)
    ensures Skip(Comma(tail.Values?) + (EncodeItems(tail) + more)) != ""
  {
    hide Encode;
    var text := Comma(tail.Values?) + (EncodeItems(tail) + more);
    assert text[0] == if tail.Values? then ',' else ']';
  }

  lemma FieldsGoOn(tail: Fields, more: string)
    ensures Skip(Comma(tail.Fields?) + (EncodeFields(tail) + more)) != ""
  {
    hide Encode;
    var text := Comma(tail.Fields?) + (EncodeFields(tail) + more);
    assert text[0] == if tail.Fields? then ',' else '}';
  }

  lemma {:induction false} FieldsAreClosed(fs: Fields, more: string)
    requires FieldsShaped(fs) && Closed(more) && KeyNext(more)
    ensures Closed(EncodeFields(fs) + more)
    decreases fs
  {
    hide Closed, KeyNext, Encode, Quoted, EncodeFields, Comma, Skip, Shaped, KeyName;
    match fs {
      case NoFields =>
        NoItemsText(more);
        ClosedPrefix(['}'], more);
      case Fields(name, v, tail) =>
        FieldsAreClosed(tail, more);
        FieldsNextKey(tail, more);
        var after := EncodeFields(tail) + more;
        CommaIsClosed(tail.Fields?, after);
        CommaBeforeKey(tail.Fields?, after);
        FieldsGoOn(tail, more);
        var value := Encode(v) + (Comma(tail.Fields?) + after);
        ValueIsClosed(v, Comma(tail.Fields?) + after);
        ClosedPrefix([':'], value);
        KeyIsClosed(name, [':'] + value);
        FieldsText(fs, more);
    }
  }

  /** No proper suffix of an encoded object is itself one object. */
  lemma SuffixIsNoObject(v: Value, k: nat)
    requires v.Object? && Shaped(v) && 0 < k <= |Encode(v)|
    ensures !WholeObject(TrimLeft(Encode(v)[k..]))
  {
    hide WholeObject, TrimLeft, EncodeFields;
    assert Closed("") by { NothingIsClosed(); }
    var text := EncodeFields(v.fields);
    FieldsAreClosed(v.fields, "");
    assert text + "" == text;
    assert Encode(v)[k..] == text[k - 1..];
  }

  lemma NothingIsClosed()
    ensures Closed("")
  {
    OtherOpening("");
    assert TrimLeft("") == "";
    hide WholeObject;
  }
}
