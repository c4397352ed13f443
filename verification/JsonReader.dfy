/**
 daemon.py: the parent's json.loads on the messages of the worker, for what json.dumps prints: any
 value reads back as itself, so the parent gets the very payload that the worker wrote.
 */
module JsonReader {
  import opened Wrappers
  import opened Text
  import opened Messages

  // ---------------------------------------------------------------- strings

  function HexValue(c: char): (d: Option<nat>)
    ensures d.Some? ==> d.value < 16
  {
    if '0' <= c <= '9' then Some(c as int - '0' as int)
    else if 'a' <= c <= 'f' then Some(c as int - 'a' as int + 10)
    else if 'A' <= c <= 'F' then Some(c as int - 'A' as int + 10)
    else None
  }

  /** Four hexadecimal digits. */
  function ReadHex(s: string): (code: Option<nat>)
    ensures code.Some? ==> |s| >= 4 && code.value < 0x1_0000
  {
    if |s| < 4 then None
    else
      var a :- HexValue(s[0]);
      var b :- HexValue(s[1]);
      var c :- HexValue(s[2]);
      var d :- HexValue(s[3]);
      Some(4096 * a + 256 * b + 16 * c + d)
  }

  /** A code unit, or two that make up one character. */
  function ReadCode(s: string): (r: Option<(char, string)>)
    ensures r.Some? ==> |r.value.1| < |s|
  {
    var code :- ReadHex(s);
    if 0xD800 <= code < 0xDC00 then
      if |s| >= 6 && s[4] == '\\' && s[5] == 'u' then
        var low :- ReadHex(s[6..]);
        if 0xDC00 <= low < 0xE000 then
          Some(((0x1_0000 + (code - 0xD800) * 1024 + (low - 0xDC00)) as char, s[10..]))
        else None
      else None
    else if 0xDC00 <= code < 0xE000 then None
    else Some((code as char, s[4..]))
  }

  /** What follows a backslash. */
  function ReadEscape(s: string): (r: Option<(char, string)>)
    ensures r.Some? ==> |r.value.1| < |s|
  {
    if s == [] then None
    else if s[0] == 'u' then ReadCode(s[1..])
    else if s[0] == '"' || s[0] == '\\' || s[0] == '/' then Some((s[0], s[1..]))
    else if s[0] == 'n' then Some(('\n', s[1..]))
    else if s[0] == 't' then Some(('\t', s[1..]))
    else if s[0] == 'r' then Some(('\r', s[1..]))
    else if s[0] == 'b' then Some((8 as char, s[1..]))
    else if s[0] == 'f' then Some((12 as char, s[1..]))
    else None
  }

  function Prepend(c: char, r: Option<(string, string)>): Option<(string, string)> {
    match r
    case None => None
    case Some((text, rest)) => Some(([c] + text, rest))
  }

  /** The characters up to the closing quote, and what follows it. */
  function ReadChars(s: string): (r: Option<(string, string)>)
    ensures r.Some? ==> |r.value.1| < |s|
    decreases |s|
  {
    if s == [] || s[0] < ' ' then None
    else if s[0] == '"' then Some(("", s[1..]))
    else if s[0] == '\\' then
      match ReadEscape(s[1..])
      case None => None
      case Some((c, rest)) => Prepend(c, ReadChars(rest))
    else Prepend(s[0], ReadChars(s[1..]))
  }

  lemma HexReads(d: nat)
    requires d < 16
    ensures HexValue(HexDigit(d)) == Some(d)
  {
  }

  function HexDigits(a: nat, b: nat, c: nat, d: nat): (s: string)
    requires a < 16 && b < 16 && c < 16 && d < 16
    ensures |s| == 4
  {
    [HexDigit(a), HexDigit(b), HexDigit(c), HexDigit(d)]
  }

  lemma HexOf(a: nat, b: nat, c: nat, d: nat, rest: string)
    requires a < 16 && b < 16 && c < 16 && d < 16
    ensures ReadHex(HexDigits(a, b, c, d) + rest) == Some(4096 * a + 256 * b + 16 * c + d)
    ensures (HexDigits(a, b, c, d) + rest)[4..] == rest
  {
    HexReads(a);
    HexReads(b);
    HexReads(c);
    HexReads(d);
  }

  /** The four digits after the backslash and the u. */
  function HexText(code: nat): (s: string)
    requires code < 0x1_0000
    ensures |s| == 4
  {
    var n := Nibbles(code);
    HexDigits(n.0, n.1, n.2, n.3)
  }

  lemma UnicodeIs(code: nat)
    requires code < 0x1_0000
    ensures Unicode(code) == "\\u" + HexText(code)
  {
  }

  lemma HexTextReads(code: nat, rest: string)
    requires code < 0x1_0000
    ensures ReadHex(HexText(code) + rest) == Some(code) && (HexText(code) + rest)[4..] == rest
  {
    var n := Nibbles(code);
    HexOf(n.0, n.1, n.2, n.3, rest);
  }

  lemma PlainCodeReads(c: char, rest: string)
    requires c as int < 0x1_0000
    ensures ReadCode(HexText(c as int) + rest) == Some((c, rest))
  {
    HexTextReads(c as int, rest);
  }

  lemma PairSlices(a: string, b: string, rest: string)
    requires |a| == 4 && |b| == 4
    ensures var s := a + ("\\u" + (b + rest));
      && |s| >= 10 && s[4] == '\\' && s[5] == 'u' && s[6..] == b + rest && s[10..] == rest
  {
    var s := a + ("\\u" + (b + rest));
    assert s == (a + "\\u") + (b + rest) && s == (a + "\\u" + b) + rest;
  }

  lemma PairOf(a: string, b: string, high: nat, low: nat, c: char, rest: string)
    requires |a| == 4 && |b| == 4 && 0xD800 <= high < 0xDC00 && 0xDC00 <= low < 0xE000
    requires c as int == 0x1_0000 + (high - 0xD800) * 1024 + (low - 0xDC00)
    requires ReadHex(a + ("\\u" + (b + rest))) == Some(high) && ReadHex(b + rest) == Some(low)
    ensures ReadCode(a + ("\\u" + (b + rest))) == Some((c, rest))
  {
    PairSlices(a, b, rest);
  }

  lemma PairReads(high: nat, low: nat, c: char, rest: string)
    requires 0xD800 <= high < 0xDC00 && 0xDC00 <= low < 0xE000
    requires c as int == 0x1_0000 + (high - 0xD800) * 1024 + (low - 0xDC00)
    ensures ReadCode(HexText(high) + ("\\u" + (HexText(low) + rest))) == Some((c, rest))
  {
    HexTextReads(high, "\\u" + (HexText(low) + rest));
    HexTextReads(low, rest);
    PairOf(HexText(high), HexText(low), high, low, c, rest);
  }

  /** An escape that begins with a backslash and reads as c. */
  lemma BackslashReads(c: char, body: string, rest: string)
    requires ReadEscape(body + rest) == Some((c, rest))
    ensures ReadChars("\\" + body + rest) == Prepend(c, ReadChars(rest))
  {
    var s := "\\" + body + rest;
    assert s[0] == '\\' && s[1..] == body + rest;
  }

  lemma OneUnitReads(c: char, rest: string)
    requires c as int < 0x1_0000
    ensures ReadChars(Unicode(c as int) + rest) == Prepend(c, ReadChars(rest))
  {
    var body := "u" + HexText(c as int);
    UnicodeIs(c as int);
    PlainCodeReads(c, rest);
    assert (body + rest)[1..] == HexText(c as int) + rest;
    BackslashReads(c, body, rest);
    assert Unicode(c as int) == "\\" + body;
  }

  /** Two units, the backslash in front taken away, and then the u. */
  lemma TwoUnitsAre(a: string, b: string, rest: string)
    ensures var body := "u" + a + ("\\u" + b);
      && "\\u" + a + ("\\u" + b) == "\\" + body
      && body + rest == "u" + (a + ("\\u" + (b + rest)))
  {
  }

  lemma TwoUnitsRead(high: nat, low: nat, c: char, rest: string)
    requires 0xD800 <= high < 0xDC00 && 0xDC00 <= low < 0xE000
    requires c as int == 0x1_0000 + (high - 0xD800) * 1024 + (low - 0xDC00)
    ensures ReadChars(Unicode(high) + Unicode(low) + rest) == Prepend(c, ReadChars(rest))
  {
    var a, b := HexText(high), HexText(low);
    UnicodeIs(high);
    UnicodeIs(low);
    PairReads(high, low, c, rest);
    TwoUnitsAre(a, b, rest);
    UnitIsEscape(a + ("\\u" + (b + rest)), c, rest);
    BackslashReads(c, "u" + a + ("\\u" + b), rest);
  }

  lemma UnitIsEscape(s: string, c: char, rest: string)
    requires ReadCode(s) == Some((c, rest))
    ensures ReadEscape("u" + s) == Some((c, rest))
  {
    assert ("u" + s)[1..] == s;
  }

  lemma CodeReads(c: char, rest: string)
    ensures ReadChars(EscapeCode(c as int) + rest) == Prepend(c, ReadChars(rest))
  {
    var code := c as int;
    if code < 0x1_0000 {
      OneUnitReads(c, rest);
    } else {
      var (high, low) := Surrogates(code);
      TwoUnitsRead(high, low, c, rest);
    }
  }

  lemma ShortEscapeReads(c: char, rest: string)
    requires HasEscape(c)
    ensures ReadChars(Escape(c) + rest) == Prepend(c, ReadChars(rest))
  {
    var escape := Escape(c);
    assert |escape| == 2 && escape == "\\" + [escape[1]];
    assert ([escape[1]] + rest)[1..] == rest;
    BackslashReads(c, [escape[1]], rest);
  }

  lemma EscapeReads(c: char, rest: string)
    ensures ReadChars(Escape(c) + rest) == Prepend(c, ReadChars(rest))
  {
    if HasEscape(c) {
      ShortEscapeReads(c, rest);
    } else if ' ' <= c <= '~' {
      assert ([c] + rest)[1..] == rest;
    } else {
      CodeReads(c, rest);
    }
  }

  lemma {:induction false} EscapedReads(s: string, rest: string)
    ensures ReadChars(Escaped(s) + "\"" + rest) == Some((s, rest))
  {
    if s == [] {
      assert (Escaped(s) + "\"" + rest)[1..] == rest;
    } else {
      EscapedReads(s[1..], rest);
      EscapeReads(s[0], Escaped(s[1..]) + "\"" + rest);
      assert Escaped(s) + "\"" + rest == Escape(s[0]) + (Escaped(s[1..]) + "\"" + rest);
      assert s == [s[0]] + s[1..];
    }
  }

  // ---------------------------------------------------------------- numbers

  /** How many digits the text begins with. */
  function Digits(s: string): (n: nat)
    ensures n <= |s| && IsDigits(s[..n])
    ensures n < |s| ==> !('0' <= s[n] <= '9')
  {
    if s == [] || !('0' <= s[0] <= '9') then 0
    else
      var n := Digits(s[1..]);
      assert s[..n + 1] == [s[0]] + s[1..][..n];
      n + 1
  }

  function ReadNumber(s: string): (r: Option<(Json, string)>)
    ensures r.Some? ==> |r.value.1| < |s|
  {
    var negative := s != [] && s[0] == '-';
    var digits := if negative then s[1..] else s;
    var n := Digits(digits);
    match ReadDecimal(digits[..n])
    case None => None
    case Some(value) =>
      var size: int := value;
      Some((Number(if negative then -size else size), digits[n..]))
  }

  /** Nothing follows that would belong to a number. */
  predicate EndsNumber(rest: string) {
    rest == [] || !('0' <= rest[0] <= '9')
  }

  lemma DigitsOf(n: nat, rest: string)
    requires EndsNumber(rest)
    ensures Digits(Decimal(n) + rest) == |Decimal(n)|
  {
    DigitsStop(Decimal(n), rest);
  }

  lemma {:induction false} DigitsStop(s: string, rest: string)
    requires IsDigits(s) && EndsNumber(rest)
    ensures Digits(s + rest) == |s|
  {
    if s == [] {
      assert s + rest == rest;
    } else {
      DigitsStop(s[1..], rest);
      assert (s + rest)[1..] == s[1..] + rest;
    }
  }

  lemma NumberReads(n: int, rest: string)
    requires EndsNumber(rest)
    ensures ReadNumber(Print(Number(n)) + rest) == Some((Number(n), rest))
  {
    var size: nat := if n < 0 then -n else n;
    var s := Decimal(size) + rest;
    DigitsOf(size, rest);
    ReadDecimalInvertsDecimal(size);
    assert s[..|Decimal(size)|] == Decimal(size) && s[|Decimal(size)|..] == rest;
    if n < 0 {
      assert (Print(Number(n)) + rest)[1..] == s;
    } else {
      assert '0' <= Decimal(size)[0] <= '9';
    }
  }

  // ---------------------------------------------------------------- values

  function Skip(s: string): (t: string)
    ensures |t| <= |s|
  {
    if s != [] && (s[0] == ' ' || s[0] == '\n' || s[0] == '\t' || s[0] == '\r') then Skip(s[1..]) else s
  }

  function ReadValue(s: string): (r: Option<(Json, string)>)
    ensures r.Some? ==> |r.value.1| < |s|
    decreases |s|, 1
  {
    if s == [] then None
    else if s[0] == '"' then
      match ReadChars(s[1..])
      case None => None
      case Some((text, rest)) => Some((Str(text), rest))
    else if s[0] == '[' then
      var t := Skip(s[1..]);
      if t != [] && t[0] == ']' then Some((List([]), t[1..]))
      else
        match ReadItems(t)
        case None => None
        case Some((items, rest)) => Some((List(items), rest))
    else if s[0] == '{' then
      var t := Skip(s[1..]);
      if t != [] && t[0] == '}' then Some((Object([]), t[1..]))
      else
        match ReadFields(t)
        case None => None
        case Some((fields, rest)) => Some((Object(fields), rest))
    else if "null" <= s then Some((Null, s[4..]))
    else if "true" <= s then Some((Bool(true), s[4..]))
    else if "false" <= s then Some((Bool(false), s[5..]))
    else ReadNumber(s)
  }

  /** The items of a list, after its bracket or a comma. */
  function ReadItems(s: string): (r: Option<(seq<Json>, string)>)
    ensures r.Some? ==> |r.value.1| < |s|
    decreases |s|, 2
  {
    match ReadValue(Skip(s))
    case None => None
    case Some((item, rest)) => MoreItems(item, rest)
  }

  /** What follows an item: the end of the list, or a comma and more of it. */
  function MoreItems(item: Json, s: string): (r: Option<(seq<Json>, string)>)
    ensures r.Some? ==> |r.value.1| < |s|
    decreases |s|, 3
  {
    var t := Skip(s);
    if t == [] then None
    else if t[0] == ']' then Some(([item], t[1..]))
    else if t[0] != ',' then None
    else
      match ReadItems(t[1..])
      case None => None
      case Some((items, rest)) => Some(([item] + items, rest))
  }

  /** One member of an object. */
  function ReadField(s: string): (r: Option<(Field, string)>)
    ensures r.Some? ==> |r.value.1| < |s|
    decreases |s|, 2
  {
    if s == [] || s[0] != '"' then None
    else
      match ReadChars(s[1..])
      case None => None
      case Some((key, rest)) => ReadMember(key, rest)
  }

  /** The colon and the value after a key. */
  function ReadMember(key: string, s: string): (r: Option<(Field, string)>)
    ensures r.Some? ==> |r.value.1| < |s|
    decreases |s|, 2
  {
    var t := Skip(s);
    if t == [] || t[0] != ':' then None
    else
      match ReadValue(Skip(t[1..]))
      case None => None
      case Some((value, rest)) => Some((Field(key, value), rest))
  }

  function ReadFields(s: string): (r: Option<(seq<Field>, string)>)
    ensures r.Some? ==> |r.value.1| < |s|
    decreases |s|, 3
  {
    match ReadField(Skip(s))
    case None => None
    case Some((field, rest)) => MoreFields(field, rest)
  }

  function MoreFields(field: Field, s: string): (r: Option<(seq<Field>, string)>)
    ensures r.Some? ==> |r.value.1| < |s|
    decreases |s|, 4
  {
    var t := Skip(s);
    if t == [] then None
    else if t[0] == '}' then Some(([field], t[1..]))
    else if t[0] != ',' then None
    else
      match ReadFields(t[1..])
      case None => None
      case Some((fields, rest)) => Some(([field] + fields, rest))
  }

  /** json.loads */
  function ReadJson(s: string): Option<Json> {
    match ReadValue(Skip(s))
    case None => None
    case Some((json, rest)) => if Skip(rest) == [] then Some(json) else None
  }

  // ---------------------------------------------------------------- what is printed reads back

  /** What a printed value begins with is no space and no closing bracket. */
  lemma PrintStarts(json: Json)
    ensures Print(json) != [] && Print(json)[0] !in " \n\t\r]},:"
  {
    match json
    case Number(n) => assert '0' <= Decimal(if n < 0 then -n else n)[0] <= '9';
    case _ =>
  }

  lemma StringReads(text: string, rest: string)
    ensures ReadValue(Quoted(text) + rest) == Some((Str(text), rest))
  {
    EscapedReads(text, rest);
    assert (Quoted(text) + rest)[1..] == Escaped(text) + "\"" + rest;
  }

  lemma NumberIsRead(n: int, rest: string)
    requires EndsNumber(rest)
    ensures ReadValue(Print(Number(n)) + rest) == Some((Number(n), rest))
  {
    NumberReads(n, rest);
    var s := Print(Number(n)) + rest;
    assert s[0] == '-' || '0' <= s[0] <= '9' by {
      assert '0' <= Decimal(if n < 0 then -n else n)[0] <= '9';
    }
  }

  /** The text begins something that is not skipped and ends no list or object. */
  predicate Starts(s: string) {
    s != [] && s[0] !in " \n\t\r]},:"
  }

  lemma StartsIsKept(s: string)
    requires Starts(s)
    ensures Skip(s) == s && Skip(" " + s) == s
  {
    assert (" " + s)[1..] == s;
  }

  lemma ListIsRead(body: string, items: seq<Json>, rest: string)
    requires Starts(body) && ReadItems(body + ("]" + rest)) == Some((items, rest))
    ensures ReadValue("[" + body + "]" + rest) == Some((List(items), rest))
  {
    var s := "[" + body + "]" + rest;
    assert s[1..] == body + ("]" + rest);
    StartsIsKept(body + ("]" + rest));
  }

  lemma ObjectIsRead(body: string, fields: seq<Field>, rest: string)
    requires Starts(body) && ReadFields(body + ("}" + rest)) == Some((fields, rest))
    ensures ReadValue("{" + body + "}" + rest) == Some((Object(fields), rest))
  {
    var s := "{" + body + "}" + rest;
    assert s[1..] == body + ("}" + rest);
    StartsIsKept(body + ("}" + rest));
  }

  lemma LastItemIsRead(text: string, item: Json, rest: string)
    requires Starts(text) && ReadValue(text + ("]" + rest)) == Some((item, "]" + rest))
    ensures ReadItems(text + ("]" + rest)) == Some(([item], rest))
  {
    StartsIsKept(text + ("]" + rest));
    assert ("]" + rest)[1..] == rest;
  }

  lemma CommaItems(item: Json, tail: string, items: seq<Json>, rest: string)
    requires Starts(tail) && ReadItems(tail) == Some((items, rest))
    ensures MoreItems(item, ", " + tail) == Some(([item] + items, rest))
  {
    StartsIsKept(tail);
    assert (", " + tail)[1..] == " " + tail;
    assert ReadItems(" " + tail) == ReadItems(tail);
  }

  lemma ItemIsRead(text: string, item: Json, tail: string, items: seq<Json>, rest: string)
    requires Starts(text) && ReadValue(text + (", " + tail)) == Some((item, ", " + tail))
    requires Starts(tail) && ReadItems(tail) == Some((items, rest))
    ensures ReadItems(text + (", " + tail)) == Some(([item] + items, rest))
  {
    StartsIsKept(text + (", " + tail));
    CommaItems(item, tail, items, rest);
  }

  lemma LastFieldIsRead(text: string, field: Field, rest: string)
    requires Starts(text) && ReadField(text + ("}" + rest)) == Some((field, "}" + rest))
    ensures ReadFields(text + ("}" + rest)) == Some(([field], rest))
  {
    StartsIsKept(text + ("}" + rest));
    assert ("}" + rest)[1..] == rest;
  }

  lemma CommaFields(field: Field, tail: string, fields: seq<Field>, rest: string)
    requires Starts(tail) && ReadFields(tail) == Some((fields, rest))
    ensures MoreFields(field, ", " + tail) == Some(([field] + fields, rest))
  {
    StartsIsKept(tail);
    assert (", " + tail)[1..] == " " + tail;
    assert ReadFields(" " + tail) == ReadFields(tail);
  }

  lemma FieldIsRead(text: string, field: Field, tail: string, fields: seq<Field>, rest: string)
    requires Starts(text) && ReadField(text + (", " + tail)) == Some((field, ", " + tail))
    requires Starts(tail) && ReadFields(tail) == Some((fields, rest))
    ensures ReadFields(text + (", " + tail)) == Some(([field] + fields, rest))
  {
    StartsIsKept(text + (", " + tail));
    CommaFields(field, tail, fields, rest);
  }

  lemma ColonIsRead(key: string, text: string, value: Json, rest: string)
    requires Starts(text) && ReadValue(text + rest) == Some((value, rest))
    ensures ReadMember(key, ": " + (text + rest)) == Some((Field(key, value), rest))
  {
    assert (": " + (text + rest))[1..] == " " + (text + rest);
    StartsIsKept(text + rest);
  }

  lemma KeyIsRead(s: string, key: string, after: string, field: Field, rest: string)
    requires s != [] && s[0] == '"' && ReadChars(s[1..]) == Some((key, after))
    requires ReadMember(key, after) == Some((field, rest))
    ensures ReadField(s) == Some((field, rest))
  {
  }

  lemma QuotedIs(key: string, after: string)
    ensures var s := Quoted(key) + after; s[0] == '"' && s[1..] == Escaped(key) + "\"" + after
  {
  }

  lemma MemberIsRead(key: string, text: string, value: Json, rest: string)
    requires Starts(text) && ReadValue(text + rest) == Some((value, rest))
    ensures ReadField(Quoted(key) + (": " + (text + rest))) == Some((Field(key, value), rest))
  {
    var after := ": " + (text + rest);
    ColonIsRead(key, text, value, rest);
    EscapedReads(key, after);
    QuotedIs(key, after);
    KeyIsRead(Quoted(key) + after, key, after, Field(key, value), rest);
  }

  lemma WordIsRead(json: Json, rest: string)
    requires json.Null? || json.Bool?
    ensures ReadValue(Print(json) + rest) == Some((json, rest))
  {
    var word, s := Print(json), Print(json) + rest;
    assert word == "null" || word == "true" || word == "false";
    assert s[..|word|] == word && s[|word|..] == rest;
  }

  lemma EmptyIsRead(rest: string)
    ensures ReadValue("[]" + rest) == Some((List([]), rest)) && ReadValue("{}" + rest) == Some((Object([]), rest))
  {
    assert ("[]" + rest)[1..] == "]" + rest && ("{}" + rest)[1..] == "}" + rest;
    assert ("]" + rest)[1..] == rest && ("}" + rest)[1..] == rest;
  }

  lemma ItemsCons(items: seq<Json>, rest: string)
    requires items != []
    ensures PrintItems(items) + rest
            == Print(items[0]) + if |items| == 1 then rest else ", " + (PrintItems(items[1..]) + rest)
  {
    var text := Print(items[0]);
    if |items| == 1 {
      assert PrintItems(items) == text + [] == text;
    } else {
      assert PrintItems(items) == text + (", " + PrintItems(items[1..]));
      SumIsFlat(text, ", ", PrintItems(items[1..]), rest);
    }
  }

  lemma FieldsCons(fields: seq<Field>, rest: string)
    requires fields != []
    ensures PrintFields(fields) + rest
            == PrintField(fields[0]) + if |fields| == 1 then rest else ", " + (PrintFields(fields[1..]) + rest)
  {
    var text := PrintField(fields[0]);
    if |fields| == 1 {
      assert PrintFields(fields) == text + [] == text;
    } else {
      assert PrintFields(fields) == text + (", " + PrintFields(fields[1..]));
      SumIsFlat(text, ", ", PrintFields(fields[1..]), rest);
    }
  }

  lemma SumIsFlat(a: string, b: string, c: string, d: string)
    ensures a + (b + c) + d == a + (b + (c + d))
  {
  }

  lemma ItemsStart(items: seq<Json>)
    requires items != []
    ensures Starts(PrintItems(items))
  {
    PrintStarts(items[0]);
  }

  lemma FieldsStart(fields: seq<Field>)
    requires fields != []
    ensures Starts(PrintField(fields[0])) && Starts(PrintFields(fields))
  {
    assert PrintField(fields[0])[0] == '"' && PrintFields(fields)[0] == '"';
  }

  /** Every value reads back as itself, whatever follows it. */
  lemma {:induction false} ReadsBack(json: Json, rest: string)
    requires EndsNumber(rest)
    ensures ReadValue(Print(json) + rest) == Some((json, rest))
    decreases json, 2
  {
    match json
    case Null => WordIsRead(json, rest);
    case Bool(_) => WordIsRead(json, rest);
    case Number(n) => NumberIsRead(n, rest);
    case Str(text) => StringReads(text, rest);
    case List(items) =>
      if items == [] {
        EmptyIsRead(rest);
      } else {
        ItemsStart(items);
        ItemsReadBack(items, rest);
        ListIsRead(PrintItems(items), items, rest);
      }
    case Object(fields) =>
      if fields == [] {
        EmptyIsRead(rest);
      } else {
        FieldsStart(fields);
        FieldsReadBack(fields, rest);
        ObjectIsRead(PrintFields(fields), fields, rest);
      }
  }

  lemma {:induction false} ItemsReadBack(items: seq<Json>, rest: string)
    requires items != []
    ensures ReadItems(PrintItems(items) + ("]" + rest)) == Some((items, rest))
    decreases items, 1
  {
    PrintStarts(items[0]);
    ItemsCons(items, "]" + rest);
    if |items| == 1 {
      ReadsBack(items[0], "]" + rest);
      LastItemIsRead(Print(items[0]), items[0], rest);
      assert items == [items[0]];
    } else {
      var tail := PrintItems(items[1..]) + ("]" + rest);
      ItemsStart(items[1..]);
      ReadsBack(items[0], ", " + tail);
      ItemsReadBack(items[1..], rest);
      ItemIsRead(Print(items[0]), items[0], tail, items[1..], rest);
      assert items == [items[0]] + items[1..];
    }
  }

  lemma {:induction false} FieldReadsBack(field: Field, rest: string)
    requires EndsNumber(rest)
    ensures ReadField(PrintField(field) + rest) == Some((field, rest))
    decreases field, 3
  {
    PrintStarts(field.value);
    ReadsBack(field.value, rest);
    MemberIsRead(field.key, Print(field.value), field.value, rest);
    FieldText(Quoted(field.key), Print(field.value), rest);
  }

  lemma FieldText(key: string, value: string, rest: string)
    ensures key + ": " + value + rest == key + (": " + (value + rest))
  {
  }

  lemma {:induction false} FieldsReadBack(fields: seq<Field>, rest: string)
    requires fields != []
    ensures ReadFields(PrintFields(fields) + ("}" + rest)) == Some((fields, rest))
    decreases fields, 1
  {
    FieldsStart(fields);
    FieldsCons(fields, "}" + rest);
    if |fields| == 1 {
      FieldReadsBack(fields[0], "}" + rest);
      LastFieldIsRead(PrintField(fields[0]), fields[0], rest);
      assert fields == [fields[0]];
    } else {
      var tail := PrintFields(fields[1..]) + ("}" + rest);
      FieldsStart(fields[1..]);
      FieldReadsBack(fields[0], ", " + tail);
      FieldsReadBack(fields[1..], rest);
      FieldIsRead(PrintField(fields[0]), fields[0], tail, fields[1..], rest);
      assert fields == [fields[0]] + fields[1..];
    }
  }

  lemma LineIsRead(text: string, json: Json)
    requires Starts(text) && ReadValue(text + "\n") == Some((json, "\n"))
    ensures ReadJson(text + "\n") == Some(json)
  {
    StartsIsKept(text + "\n");
    assert "\n"[1..] == "" && Skip("\n") == "";
  }

  /** Any value, printed as a line, reads back as itself. */
  lemma LineReadsBack(json: Json)
    ensures ReadJson(Print(json) + "\n") == Some(json)
  {
    PrintStarts(json);
    ReadsBack(json, "\n");
    LineIsRead(Print(json), json);
  }

  /** The parent reads the very message that the worker wrote. */
  lemma MessageReadsBack(kind: Kind, payload: Json)
    ensures ReadJson(Print(Message(kind, payload)) + "\n")
            == Some(Object([Field("kind", Str(KindText(kind))), Field("payload", payload)]))
  {
    LineReadsBack(Message(kind, payload));
  }
}
