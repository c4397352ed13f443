/**
 The messages between worker and parent as text: json.dumps of an object with its kind first, and a
 reader that, like json.loads, takes a whole object and nothing less. A part of a message is no
 message, because the braces of an object do not close before its end.
 */
module Messages {
  import opened Wrappers
  import opened Text

  datatype Json =
    | Null
    | Bool(b: bool)
    | Number(n: int)
    | Str(s: string)
    | List(items: seq<Json>)
    | Object(fields: seq<Field>)

  datatype Field = Field(key: string, value: Json)

  datatype Kind = Success | RequiredFailed | Active | DaemonFailed

  function KindText(kind: Kind): string {
    match kind
    case Success => "success"
    case RequiredFailed => "required_failure"
    case Active => "session_active"
    case DaemonFailed => "daemon_error"
  }

  // ---------------------------------------------------------------- the printer

  function HexDigit(d: nat): char
    requires d < 16
  {
    "0123456789abcdef"[d]
  }

  /** The four hexadecimal digits of a code unit, by value. */
  function Nibbles(code: nat): (n: (nat, nat, nat, nat))
    requires code < 0x1_0000
    ensures n.0 < 16 && n.1 < 16 && n.2 < 16 && n.3 < 16 && 4096 * n.0 + 256 * n.1 + 16 * n.2 + n.3 == code
  {
    assert code / 256 == 16 * (code / 4096) + code / 256 % 16;
    assert code / 16 == 16 * (code / 256) + code / 16 % 16;
    (code / 4096, code / 256 % 16, code / 16 % 16, code % 16)
  }

  function Unicode(code: nat): string
    requires code < 0x1_0000
  {
    var n := Nibbles(code);
    "\\u" + [HexDigit(n.0), HexDigit(n.1), HexDigit(n.2), HexDigit(n.3)]
  }

  /** The two code units of a character beyond the first plane. */
  function Surrogates(code: nat): (units: (nat, nat))
    requires 0x1_0000 <= code < 0x11_0000
    ensures 0xD800 <= units.0 < 0xDC00 && 0xDC00 <= units.1 < 0xE000
    ensures code == 0x1_0000 + (units.0 - 0xD800) * 1024 + (units.1 - 0xDC00)
  {
    (0xD800 + (code - 0x1_0000) / 1024, 0xDC00 + (code - 0x1_0000) % 1024)
  }

  /** One character within quotes; json.dumps writes ASCII only. */
  function Escape(c: char): string {
    if c == '"' then "\\\""
    else if c == '\\' then "\\\\"
    else if c == '\n' then "\\n"
    else if c == '\t' then "\\t"
    else if c == '\r' then "\\r"
    else if c as int == 8 then "\\b"
    else if c as int == 12 then "\\f"
    else if ' ' <= c <= '~' then [c]
    else EscapeCode(c as int)
  }

  /** A code unit, or two for what is beyond the first plane. */
  function EscapeCode(code: nat): string
    requires code < 0x11_0000
  {
    if code < 0x1_0000 then Unicode(code)
    else Unicode(Surrogates(code).0) + Unicode(Surrogates(code).1)
  }

  function Escaped(s: string): string {
    if s == [] then [] else Escape(s[0]) + Escaped(s[1..])
  }

  function Quoted(s: string): string {
    "\"" + Escaped(s) + "\""
  }

  function Print(json: Json): string
    decreases json, 1
  {
    match json
    case Null => "null"
    case Bool(b) => if b then "true" else "false"
    case Number(n) => if n < 0 then "-" + Decimal(-n) else Decimal(n)
    case Str(s) => Quoted(s)
    case List(items) => "[" + PrintItems(items) + "]"
    case Object(fields) => "{" + PrintFields(fields) + "}"
  }

  function PrintItems(items: seq<Json>): string
    decreases items, 0
  {
    if items == [] then []
    else Print(items[0]) + if |items| == 1 then [] else ", " + PrintItems(items[1..])
  }

  function PrintField(field: Field): string
    decreases field, 0
  {
    Quoted(field.key) + ": " + Print(field.value)
  }

  function PrintFields(fields: seq<Field>): string
    decreases fields, 0
  {
    if fields == [] then []
    else PrintField(fields[0]) + if |fields| == 1 then [] else ", " + PrintFields(fields[1..])
  }

  function Message(kind: Kind, payload: Json): Json {
    Object([Field("kind", Str(KindText(kind))), Field("payload", payload)])
  }

  // ---------------------------------------------------------------- the reader

  /** How many braces and brackets are open, and whether the next character is within quotes, and escaped. */
  datatype Scan = Scan(depth: int, quoted: bool, escaped: bool)

  function Next(scan: Scan, c: char): Scan {
    if scan.escaped then scan.(escaped := false)
    else if scan.quoted then
      if c == '\\' then scan.(escaped := true) else if c == '"' then scan.(quoted := false) else scan
    else if c == '"' then scan.(quoted := true)
    else if c == '{' || c == '[' then scan.(depth := scan.depth + 1)
    else if c == '}' || c == ']' then scan.(depth := scan.depth - 1)
    else scan
  }

  function ScanAll(scan: Scan, s: string): Scan
    decreases |s|
  {
    if s == [] then scan else ScanAll(Next(scan, s[0]), s[1..])
  }

  const START := Scan(0, false, false)

  /** Everything that was opened is closed again. */
  predicate IsClosed(s: string) {
    ScanAll(START, s) == START
  }

  function Opening(kind: Kind): string {
    "{\"kind\": \"" + KindText(kind) + "\", "
  }

  /** Begins as a message of this kind does. */
  predicate HasKind(s: string, kind: Kind) {
    Opening(kind) <= s
  }

  function KindOf(s: string): Option<Kind> {
    if HasKind(s, Success) then Some(Success)
    else if HasKind(s, RequiredFailed) then Some(RequiredFailed)
    else if HasKind(s, Active) then Some(Active)
    else if HasKind(s, DaemonFailed) then Some(DaemonFailed)
    else None
  }

  /** What the parent makes of the bytes on the pipe: they are no message unless they close what they open. */
  function Read(sent: string): Option<Kind> {
    if sent != [] && IsClosed(sent) then KindOf(sent) else None
  }

  // ---------------------------------------------------------------- printed text is balanced

  lemma {:induction false} ScanConcat(scan: Scan, s: string, t: string)
    ensures ScanAll(scan, s + t) == ScanAll(ScanAll(scan, s), t)
    decreases |s|
  {
    if s == [] {
      assert s + t == t;
    } else {
      assert (s + t)[1..] == s[1..] + t;
      ScanConcat(Next(scan, s[0]), s[1..], t);
    }
  }

  /** The text leaves the scan as it was and never goes below the depth it started at. */
  ghost predicate IsBalanced(s: string) {
    forall d | d >= 0 ::
      var scan := Scan(d, false, false);
      ScanAll(scan, s) == scan && forall n | 0 <= n <= |s| :: ScanAll(scan, s[..n]).depth >= d
  }

  lemma BalancedConcat(s: string, t: string)
    requires IsBalanced(s) && IsBalanced(t)
    ensures IsBalanced(s + t)
  {
    forall d | d >= 0
      ensures var scan := Scan(d, false, false);
        ScanAll(scan, s + t) == scan && forall n | 0 <= n <= |s + t| :: ScanAll(scan, (s + t)[..n]).depth >= d
    {
      var scan := Scan(d, false, false);
      ScanConcat(scan, s, t);
      forall n | 0 <= n <= |s + t|
        ensures ScanAll(scan, (s + t)[..n]).depth >= d
      {
        if n <= |s| {
          assert (s + t)[..n] == s[..n];
        } else {
          assert (s + t)[..n] == s + t[..n - |s|];
          ScanConcat(scan, s, t[..n - |s|]);
        }
      }
    }
  }

  /** Characters that open and close nothing. */
  predicate IsPlain(s: string) {
    forall i | 0 <= i < |s| :: s[i] !in "\"{}[]"
  }

  lemma {:induction false} PlainScans(scan: Scan, s: string)
    requires IsPlain(s) && !scan.quoted && !scan.escaped
    ensures ScanAll(scan, s) == scan
    decreases |s|
  {
    if s != [] {
      PlainScans(scan, s[1..]);
    }
  }

  lemma PlainIsBalanced(s: string)
    requires IsPlain(s)
    ensures IsBalanced(s)
  {
    forall d, n | d >= 0 && 0 <= n <= |s|
      ensures ScanAll(Scan(d, false, false), s[..n]) == Scan(d, false, false)
    {
      PlainScans(Scan(d, false, false), s[..n]);
    }
    assert s[..|s|] == s;
  }

  /** Within quotes, up to a quote or a backslash, the scan does not move. */
  lemma {:induction false} QuotedScans(scan: Scan, s: string)
    requires scan.quoted && !scan.escaped && '"' !in s && '\\' !in s
    ensures ScanAll(scan, s) == scan
    decreases |s|
  {
    if s != [] {
      QuotedScans(scan, s[1..]);
    }
  }

  /** This text within quotes leaves the scan in them, and at its depth all the way. */
  ghost predicate StaysQuoted(s: string) {
    forall d ::
      var scan := Scan(d, true, false);
      ScanAll(scan, s) == scan && forall n | 0 <= n <= |s| :: ScanAll(scan, s[..n]).depth == d
  }

  lemma QuotedConcat(s: string, t: string)
    requires StaysQuoted(s) && StaysQuoted(t)
    ensures StaysQuoted(s + t)
  {
    forall d
      ensures var scan := Scan(d, true, false);
        ScanAll(scan, s + t) == scan && forall n | 0 <= n <= |s + t| :: ScanAll(scan, (s + t)[..n]).depth == d
    {
      var scan := Scan(d, true, false);
      ScanConcat(scan, s, t);
      forall n | 0 <= n <= |s + t|
        ensures ScanAll(scan, (s + t)[..n]).depth == d
      {
        if n <= |s| {
          assert (s + t)[..n] == s[..n];
        } else {
          assert (s + t)[..n] == s + t[..n - |s|];
          ScanConcat(scan, s, t[..n - |s|]);
        }
      }
    }
  }

  /** A backslash takes the next character with it; what follows has no quote and no backslash. */
  lemma BackslashStays(s: string)
    requires |s| >= 2 && s[0] == '\\' && '"' !in s[2..] && '\\' !in s[2..]
    ensures StaysQuoted(s)
  {
    forall d, n | 0 <= n <= |s|
      ensures n == |s| ==> ScanAll(Scan(d, true, false), s[..n]) == Scan(d, true, false)
      ensures ScanAll(Scan(d, true, false), s[..n]).depth == d
    {
      var scan := Scan(d, true, false);
      if n >= 2 {
        assert s[..n][1..][1..] == s[2..][..n - 2];
        QuotedScans(scan, s[2..][..n - 2]);
        assert Next(Next(scan, s[0]), s[1]) == scan;
      } else if n == 1 {
        assert s[..1][1..] == [];
      }
    }
    assert s[..|s|] == s;
  }

  lemma UnicodeStays(code: nat)
    requires code < 0x1_0000
    ensures StaysQuoted(Unicode(code))
  {
    var (a, b, c, d) := Nibbles(code);
    HexIsPlain(a);
    HexIsPlain(b);
    HexIsPlain(c);
    HexIsPlain(d);
    BackslashStays(Unicode(code));
  }

  lemma HexIsPlain(d: nat)
    requires d < 16
    ensures HexDigit(d) != '"' && HexDigit(d) != '\\'
  {
  }

  lemma CodeStays(code: nat)
    requires code < 0x11_0000
    ensures StaysQuoted(EscapeCode(code))
  {
    if code < 0x1_0000 {
      UnicodeStays(code);
    } else {
      var (high, low) := Surrogates(code);
      UnicodeStays(high);
      UnicodeStays(low);
      QuotedConcat(Unicode(high), Unicode(low));
    }
  }

  /** The characters that have an escape of their own. */
  predicate HasEscape(c: char) {
    c == '"' || c == '\\' || c == '\n' || c == '\t' || c == '\r' || c as int == 8 || c as int == 12
  }

  lemma ShortEscapeStays(c: char)
    requires HasEscape(c)
    ensures StaysQuoted(Escape(c))
  {
    var escape := Escape(c);
    assert |escape| == 2 && escape[0] == '\\';
    assert escape[2..] == "";
    BackslashStays(escape);
  }

  lemma EscapeStays(c: char)
    ensures StaysQuoted(Escape(c))
  {
    if HasEscape(c) {
      ShortEscapeStays(c);
    } else if ' ' <= c <= '~' {
      SingleStays(c);
    } else {
      CodeStays(c as int);
    }
  }

  lemma SingleStays(c: char)
    requires c != '"' && c != '\\'
    ensures StaysQuoted([c])
  {
    forall d, n | 0 <= n <= 1
      ensures ScanAll(Scan(d, true, false), [c][..n]) == Scan(d, true, false)
    {
      QuotedScans(Scan(d, true, false), [c][..n]);
    }
    assert [c][..1] == [c];
  }

  lemma {:induction false} EscapedStays(s: string)
    ensures StaysQuoted(Escaped(s))
  {
    if s != [] {
      EscapeStays(s[0]);
      EscapedStays(s[1..]);
      QuotedConcat(Escape(s[0]), Escaped(s[1..]));
    }
  }

  /** A quoted string opens and closes nothing, whatever it holds. */
  lemma QuotedIsBalanced(s: string)
    ensures IsBalanced(Quoted(s))
  {
    var body, text := Escaped(s), Quoted(s);
    EscapedStays(s);
    forall d, n | d >= 0 && 0 <= n <= |text|
      ensures ScanAll(Scan(d, false, false), text[..n]).depth == d
      ensures n == |text| ==> ScanAll(Scan(d, false, false), text[..n]) == Scan(d, false, false)
    {
      var scan, within := Scan(d, false, false), Scan(d, true, false);
      if 0 < n < |text| {
        assert text[..n][0] == '"' && text[..n][1..] == body[..n - 1];
      } else if n == |text| {
        assert text[..n][1..] == body + "\"";
        ScanConcat(within, body, "\"");
        assert ScanAll(within, "\"") == scan;
      }
    }
    assert text[..|text|] == text;
  }

  lemma DecimalIsPlain(n: nat)
    ensures IsPlain(Decimal(n))
  {
    assert forall i | 0 <= i < |Decimal(n)| :: '0' <= Decimal(n)[i] <= '9';
  }

  /** Between the brackets the depth is one more than before them. */
  lemma EnclosedIsDeeper(d: int, open: char, body: string, close: char, n: nat)
    requires IsBalanced(body) && (open == '{' || open == '[') && d >= 0 && 1 <= n <= |body| + 1
    ensures ScanAll(Scan(d, false, false), ([open] + body + [close])[..n]).depth >= d + 1
  {
    var part := ([open] + body + [close])[..n];
    assert part[0] == open && part[1..] == body[..n - 1];
    assert Next(Scan(d, false, false), open) == Scan(d + 1, false, false);
  }

  lemma EnclosedReturns(d: int, open: char, body: string, close: char)
    requires IsBalanced(body) && (open == '{' || open == '[') && (close == '}' || close == ']') && d >= 0
    ensures ScanAll(Scan(d, false, false), [open] + body + [close]) == Scan(d, false, false)
  {
    var text, inner := [open] + body + [close], Scan(d + 1, false, false);
    assert text[0] == open && text[1..] == body + [close];
    ScanConcat(inner, body, [close]);
    assert [close][1..] == [] && Next(inner, close) == Scan(d, false, false);
  }

  /** What an opening and a closing bracket enclose. */
  lemma EnclosedIsBalanced(open: char, body: string, close: char)
    requires IsBalanced(body) && (open == '{' || open == '[') && (close == '}' || close == ']')
    ensures IsBalanced([open] + body + [close])
  {
    var text := [open] + body + [close];
    forall d, n | d >= 0 && 0 <= n <= |text|
      ensures ScanAll(Scan(d, false, false), text[..n]).depth >= d
    {
      EnclosedReturns(d, open, body, close);
      assert text[..|text|] == text && text[..0] == [];
      if 1 <= n <= |body| + 1 {
        EnclosedIsDeeper(d, open, body, close, n);
      }
    }
    forall d | d >= 0
      ensures ScanAll(Scan(d, false, false), text) == Scan(d, false, false)
    {
      EnclosedReturns(d, open, body, close);
    }
  }

  lemma {:induction false} PrintIsBalanced(json: Json)
    ensures IsBalanced(Print(json))
    decreases json, 1
  {
    match json
    case Null => PlainIsBalanced("null");
    case Bool(b) => PlainIsBalanced(Print(json));
    case Number(n) =>
      DecimalIsPlain(if n < 0 then -n else n);
      PlainIsBalanced(Print(json));
    case Str(s) => QuotedIsBalanced(s);
    case List(items) =>
      ItemsAreBalanced(items);
      EnclosedIsBalanced('[', PrintItems(items), ']');
    case Object(fields) =>
      FieldsAreBalanced(fields);
      EnclosedIsBalanced('{', PrintFields(fields), '}');
  }

  lemma {:induction false} ItemsAreBalanced(items: seq<Json>)
    ensures IsBalanced(PrintItems(items))
    decreases items, 0
  {
    PlainIsBalanced("");
    if items != [] {
      PrintIsBalanced(items[0]);
      if |items| > 1 {
        ItemsAreBalanced(items[1..]);
        PlainIsBalanced(", ");
        BalancedConcat(", ", PrintItems(items[1..]));
        BalancedConcat(Print(items[0]), ", " + PrintItems(items[1..]));
      } else {
        assert Print(items[0]) + [] == Print(items[0]);
      }
    }
  }

  lemma {:induction false} FieldIsBalanced(field: Field)
    ensures IsBalanced(PrintField(field))
    decreases field, 0
  {
    QuotedIsBalanced(field.key);
    PlainIsBalanced(": ");
    PrintIsBalanced(field.value);
    BalancedConcat(Quoted(field.key), ": ");
    BalancedConcat(Quoted(field.key) + ": ", Print(field.value));
  }

  lemma {:induction false} FieldsAreBalanced(fields: seq<Field>)
    ensures IsBalanced(PrintFields(fields))
    decreases fields, 0
  {
    PlainIsBalanced("");
    if fields != [] {
      FieldIsBalanced(fields[0]);
      if |fields| > 1 {
        FieldsAreBalanced(fields[1..]);
        PlainIsBalanced(", ");
        BalancedConcat(", ", PrintFields(fields[1..]));
        BalancedConcat(PrintField(fields[0]), ", " + PrintFields(fields[1..]));
      } else {
        assert PrintField(fields[0]) + [] == PrintField(fields[0]);
      }
    }
  }

  // ---------------------------------------------------------------- what is read of a message

  lemma {:induction false} EscapedPlainText(s: string)
    requires forall i | 0 <= i < |s| :: ' ' <= s[i] <= '~' && s[i] != '"' && s[i] != '\\'
    ensures Escaped(s) == s
  {
    if s != [] {
      EscapedPlainText(s[1..]);
    }
  }

  lemma KindTextIsPlain(kind: Kind)
    ensures forall i | 0 <= i < |KindText(kind)| ::
      ' ' <= KindText(kind)[i] <= '~' && KindText(kind)[i] != '"' && KindText(kind)[i] != '\\'
  {
  }

  lemma OpeningIsPrinted(kind: Kind)
    ensures Opening(kind) == "{" + Quoted("kind") + ": " + Quoted(KindText(kind)) + ", "
  {
    KindTextIsPlain(kind);
    EscapedPlainText("kind");
    EscapedPlainText(KindText(kind));
    OpeningParts(KindText(kind));
  }

  lemma OpeningParts(k: string)
    ensures "{\"kind\": \"" + k + "\", " == "{" + ("\"" + "kind" + "\"") + ": " + ("\"" + k + "\"") + ", "
  {
    assert "{\"kind\": \"" == "{" + ("\"" + "kind" + "\"") + ": " + "\"";
    assert "\", " == "\"" + ", ";
  }

  lemma Front(open: string, key: string, colon: string, value: string, comma: string, rest: string, close: string)
    ensures open + key + colon + value + comma <= open + (key + colon + value + (comma + rest)) + close
  {
    assert open + (key + colon + value + (comma + rest)) + close
        == (open + key + colon + value + comma) + (rest + close);
  }

  lemma MessageOpens(kind: Kind, payload: Json)
    ensures Opening(kind) <= Print(Message(kind, payload))
  {
    OpeningIsPrinted(kind);
    TextFirst("kind", KindText(kind), Field("payload", payload));
    Front("{", Quoted("kind"), ": ", Quoted(KindText(kind)), ", ", PrintField(Field("payload", payload)), "}");
  }

  lemma TwoFields(first: Field, last: Field)
    ensures PrintFields([first, last]) == PrintField(first) + (", " + PrintField(last))
  {
    assert [first, last][1..] == [last];
    assert PrintFields([last]) == PrintField(last) + [] == PrintField(last);
  }

  lemma TextField(key: string, text: string)
    ensures PrintField(Field(key, Str(text))) == Quoted(key) + ": " + Quoted(text)
  {
  }

  lemma TextFirst(key: string, text: string, last: Field)
    ensures Print(Object([Field(key, Str(text)), last]))
            == "{" + (Quoted(key) + ": " + Quoted(text) + (", " + PrintField(last))) + "}"
  {
    TwoFields(Field(key, Str(text)), last);
    TextField(key, text);
  }

  lemma OpeningsAre()
    ensures Opening(Success) == "{\"kind\": \"success\", "
    ensures Opening(RequiredFailed) == "{\"kind\": \"required_failure\", "
    ensures Opening(Active) == "{\"kind\": \"session_active\", "
    ensures Opening(DaemonFailed) == "{\"kind\": \"daemon_error\", "
  {
  }

  lemma MessageBegins(kind: Kind, payload: Json)
    ensures HasKind(Print(Message(kind, payload)), kind)
    ensures match kind
      case Success => "{\"kind\": \"success\", " <= Print(Message(kind, payload))
      case RequiredFailed => "{\"kind\": \"required_failure\", " <= Print(Message(kind, payload))
      case Active => "{\"kind\": \"session_active\", " <= Print(Message(kind, payload))
      case DaemonFailed => "{\"kind\": \"daemon_error\", " <= Print(Message(kind, payload))
  {
    MessageOpens(kind, payload);
    OpeningsAre();
  }

  lemma KindIsUnique(s: string, a: Kind, b: Kind)
    requires HasKind(s, a) && HasKind(s, b)
    ensures a == b
  {
    assert s[10] == KindText(a)[0] && s[11] == KindText(a)[1];
    assert s[10] == KindText(b)[0] && s[11] == KindText(b)[1];
  }

  lemma KindIsRead(s: string, kind: Kind)
    requires HasKind(s, kind)
    ensures KindOf(s) == Some(kind)
  {
    KindIsUnique(s, kind, KindOf(s).value);
  }

  lemma PartIsNotClosed(json: Json, n: nat)
    requires json.Object? && 0 < n < |Print(json)|
    ensures !IsClosed(Print(json)[..n])
  {
    FieldsAreBalanced(json.fields);
    EnclosedIsDeeper(0, '{', PrintFields(json.fields), '}', n);
  }

  lemma WholeIsClosed(json: Json, space: string)
    requires IsPlain(space)
    ensures IsClosed(Print(json) + space)
  {
    PrintIsBalanced(json);
    ScanConcat(START, Print(json), space);
    PlainScans(START, space);
  }

  /** Part of a message reads as nothing; the whole of it, with or without the newline, as its kind. */
  lemma PartsReadAsNothing(kind: Kind, payload: Json, sent: string)
    requires sent <= Print(Message(kind, payload)) + "\n"
    ensures Read(sent) == if |sent| < |Print(Message(kind, payload))| then None else Some(kind)
  {
    var message := Message(kind, payload);
    var text := Print(message);
    if |sent| < |text| {
      assert sent == text[..|sent|];
      if sent != [] {
        PartIsNotClosed(message, |sent|);
      }
    } else {
      var space := sent[|text|..];
      assert sent == text + space && IsPlain(space);
      WholeIsClosed(message, space);
      MessageBegins(kind, payload);
      assert Opening(kind) <= sent;
      KindIsRead(sent, kind);
    }
  }
}
