/**
 The two endpoint parsers: `USER@HOST[:PORT]` of cli_input.py and `host:port` of schemas.py, where
 they agree, where either refuses what the other takes, and what they read back. Python's int() is
 a parameter: any partial function from text to integers.
 */
module Endpoints {
  import opened Wrappers
  import opened Text

  type Reader = string -> Option<int>

  datatype EndpointError =
    | MissingUser
    | UnclosedBracket
    | NoPortAfterBracket
    | MissingHost
    | MissingColon
    | MustBracket
    | PortNotInteger
    | PortOutOfRange

  type HostPort = Result<(string, int), EndpointError>

  // ---------------------------------------------------------------- cli_input.py

  function ParsePort(read: Reader, raw: string): Result<int, EndpointError> {
    match read(raw)
    case None => Err(PortNotInteger)
    case Some(port) => if 1 <= port <= 65535 then Ok(port) else Err(PortOutOfRange)
  }

  function WithPort(read: Reader, host: string, raw: string): HostPort {
    match ParsePort(read, raw)
    case Err(error) => Err(error)
    case Ok(port) => Ok((host, port))
  }

  /** `_split_host_port` */
  function SplitHostPort(read: Reader, hostpart: string): HostPort {
    if hostpart != [] && hostpart[0] == '[' then
      match Find(hostpart, ']')
      case None => Err(UnclosedBracket)
      case Some(end) =>
        if end + 1 == |hostpart| then Ok((hostpart[1..end], 22))
        else if hostpart[end + 1] != ':' then Err(NoPortAfterBracket)
        else WithPort(read, hostpart[1..end], hostpart[end + 2..])
    else
      match FindLast(hostpart, ':')
      case Some(k) => if k == 0 then Err(MissingHost) else WithPort(read, hostpart[..k], hostpart[k + 1..])
      case None => if hostpart == [] then Err(MissingHost) else Ok((hostpart, 22))
  }

  /** `parse_endpoint` */
  function ParseEndpoint(read: Reader, endpoint: string): Result<(string, string, int), EndpointError> {
    match Find(endpoint, '@')
    case None => Err(MissingUser)
    case Some(k) =>
      if k == 0 then Err(MissingUser)
      else
        match SplitHostPort(read, endpoint[k + 1..])
        case Err(error) => Err(error)
        case Ok((host, port)) => Ok((endpoint[..k], host, port))
  }

  // ---------------------------------------------------------------- schemas.py

  predicate PairAt(s: string, a: char, b: char, k: int) {
    0 <= k < |s| - 1 && s[k] == a && s[k + 1] == b
  }

  ghost predicate HasPair(s: string, a: char, b: char) {
    exists k :: PairAt(s, a, b, k)
  }

  /** s.find of a two-character string */
  function FindPair(s: string, a: char, b: char): (k: Option<nat>)
    ensures k.Some? ==> PairAt(s, a, b, k.value) && forall i | PairAt(s, a, b, i) :: k.value <= i
    ensures k.None? <==> !HasPair(s, a, b)
  {
    if |s| < 2 then None
    else if s[0] == a && s[1] == b then
      assert PairAt(s, a, b, 0);
      Some(0)
    else
      assert forall i :: PairAt(s, a, b, i) <==> PairAt(s[1..], a, b, i - 1);
      match FindPair(s[1..], a, b)
      case None => None
      case Some(k) =>
        assert PairAt(s, a, b, k + 1);
        Some(k + 1)
  }

  /** `_parse_host_port` */
  function ParseHostPort(read: Reader, value: string): HostPort {
    if value != [] && value[0] == '[' then
      match FindPair(value, ']', ':')
      case None => Err(MustBracket)
      case Some(closing) => CheckedHost(read, value[1..closing], value[closing + 2..])
    else if FindPair(value, ':', ':').Some? then Err(MustBracket)
    else
      match FindLast(value, ':')
      case None => Err(MissingColon)
      case Some(k) => CheckedHost(read, value[..k], value[k + 1..])
  }

  function CheckedHost(read: Reader, host: string, raw: string): HostPort {
    if host == [] then Err(MissingHost) else WithPort(read, host, raw)
  }

  // ---------------------------------------------------------------- how they relate

  predicate IsBracketed(s: string) {
    s != [] && s[0] == '['
  }

  /** The text names its port, in the eyes of cli_input.py. */
  predicate NamesPort(s: string) {
    if IsBracketed(s) then Find(s, ']').Some? && Find(s, ']').value + 1 < |s| else ':' in s
  }

  /** Whatever integers are: a text that both parsers accept means the same to both. */
  lemma ParsersAgree(read: Reader, s: string)
    requires SplitHostPort(read, s).Ok? && ParseHostPort(read, s).Ok?
    ensures SplitHostPort(read, s) == ParseHostPort(read, s)
  {
    if IsBracketed(s) {
      var end, closing := Find(s, ']').value, FindPair(s, ']', ':').value;
      FindAtMost(s, ']', closing);
      if end + 1 < |s| {
        assert PairAt(s, ']', ':', end);
      }
    }
  }

  /** Of what the command line accepts, the schema refuses just texts without a port or a host, or with a bare "::". */
  lemma SchemaRefusesExactly(read: Reader, s: string)
    requires SplitHostPort(read, s).Ok?
    ensures ParseHostPort(read, s).Ok? <==>
      && NamesPort(s) && SplitHostPort(read, s).value.0 != []
      && (IsBracketed(s) || !HasPair(s, ':', ':'))
  {
    if IsBracketed(s) {
      var end := Find(s, ']').value;
      if HasPair(s, ']', ':') {
        FindAtMost(s, ']', FindPair(s, ']', ':').value);
      }
      if end + 1 < |s| {
        assert PairAt(s, ']', ':', end);
      }
    }
  }

  /** Of what the schema accepts, the command line refuses just the bracketed hosts with a closing bracket inside. */
  lemma CommandLineRefusesExactly(read: Reader, s: string)
    requires ParseHostPort(read, s).Ok?
    ensures SplitHostPort(read, s).Ok? <==> !(IsBracketed(s) && ']' in ParseHostPort(read, s).value.0)
  {
    if IsBracketed(s) {
      var closing := FindPair(s, ']', ':').value;
      FindAtMost(s, ']', closing);
      var end, host := Find(s, ']').value, s[1..closing];
      if end < closing {
        assert host[end - 1] == ']' && !PairAt(s, ']', ':', end);
      } else {
        assert forall i | 0 <= i < |host| :: host[i] == s[..end][i + 1];
      }
    }
  }

  // ---------------------------------------------------------------- what each of them reads

  /** The text is an integer in the range of ports. */
  predicate IsPort(read: Reader, raw: string, port: int) {
    read(raw) == Some(port) && 1 <= port <= 65535
  }

  lemma WithPortIs(read: Reader, host: string, raw: string, port: int)
    ensures WithPort(read, host, raw) == Ok((host, port)) <==> IsPort(read, raw, port)
  {
  }

  /**
   `[HOST]` or `[HOST]:PORT` up to the first closing bracket, or HOST or HOST:PORT from the last
   colon; a missing port is 22.
   */
  ghost predicate CommandLineReads(read: Reader, s: string, host: string, port: int) {
    || (s == "[" + host + "]" && ']' !in host && port == 22)
    || (exists raw :: s == "[" + host + "]:" + raw && ']' !in host && IsPort(read, raw, port))
    || (s == host && host != "" && host[0] != '[' && ':' !in host && port == 22)
    || (exists raw :: s == host + ":" + raw && host != "" && host[0] != '[' && ':' !in raw && IsPort(read, raw, port))
  }

  lemma CommandLineReadsBrackets(read: Reader, s: string, host: string, port: int)
    requires IsBracketed(s)
    ensures SplitHostPort(read, s) == Ok((host, port)) <==> CommandLineReads(read, s, host, port)
  {
    if SplitHostPort(read, s) == Ok((host, port)) {
      var end := Find(s, ']').value;
      assert forall i | 0 <= i < |host| :: host[i] == s[..end][i + 1];
      if end + 1 == |s| {
        assert s == "[" + host + "]";
      } else {
        assert s == "[" + host + "]:" + s[end + 2..];
        WithPortIs(read, host, s[end + 2..], port);
      }
    }
    if CommandLineReads(read, s, host, port) && ']' !in host {
      BracketEnds(s, host);
      if raw :| s == "[" + host + "]:" + raw && IsPort(read, raw, port) {
        assert s[|host| + 3..] == raw;
        WithPortIs(read, host, raw, port);
      }
    }
  }

  lemma BracketEnds(s: string, host: string)
    requires ']' !in host && "[" + host + "]" <= s
    ensures Find(s, ']') == Some(|host| + 1) && s[1..|host| + 1] == host
  {
    assert s[..|host| + 2] == "[" + host + "]";
    assert s[|host| + 1] == ']' && s[..|host| + 1] == "[" + host;
    FindIs(s, ']', |host| + 1);
  }

  lemma LastColon(s: string, host: string, raw: string)
    requires s == host + ":" + raw && ':' !in raw
    ensures FindLast(s, ':') == Some(|host|) && s[..|host|] == host && s[|host| + 1..] == raw
  {
    var k := FindLast(s, ':').value;
    assert s[|host|] == ':';
    assert forall i | |host| < i < |s| :: s[i] == raw[i - |host| - 1];
    assert forall i | k < i < |s| :: s[i] == s[k + 1..][i - k - 1];
  }

  lemma PlainIsRead(read: Reader, s: string, host: string, port: int)
    requires !IsBracketed(s) && SplitHostPort(read, s) == Ok((host, port))
    ensures CommandLineReads(read, s, host, port)
  {
    if ':' in s {
      var k := FindLast(s, ':').value;
      assert s == s[..k] + ":" + s[k + 1..];
      WithPortIs(read, s[..k], s[k + 1..], port);
    }
  }

  lemma ReadPlainIsSplit(read: Reader, s: string, host: string, port: int)
    requires !IsBracketed(s) && CommandLineReads(read, s, host, port)
    ensures SplitHostPort(read, s) == Ok((host, port))
  {
    if raw :| s == host + ":" + raw && host != "" && host[0] != '[' && ':' !in raw && IsPort(read, raw, port) {
      LastColon(s, host, raw);
      WithPortIs(read, host, raw, port);
    } else {
      assert s == host && ':' !in s;
    }
  }

  lemma CommandLineReadsPlain(read: Reader, s: string, host: string, port: int)
    requires !IsBracketed(s)
    ensures SplitHostPort(read, s) == Ok((host, port)) <==> CommandLineReads(read, s, host, port)
  {
    if SplitHostPort(read, s) == Ok((host, port)) {
      PlainIsRead(read, s, host, port);
    }
    if CommandLineReads(read, s, host, port) {
      ReadPlainIsSplit(read, s, host, port);
    }
  }

  /** What the command line reads, exactly. */
  lemma CommandLineReadsExactlyIf(read: Reader, s: string, host: string, port: int)
    ensures SplitHostPort(read, s) == Ok((host, port)) <==> CommandLineReads(read, s, host, port)
  {
    if IsBracketed(s) {
      CommandLineReadsBrackets(read, s, host, port);
    } else {
      CommandLineReadsPlain(read, s, host, port);
    }
  }

  /** USER@HOST with an optional port: the user is what comes before the first at sign. */
  ghost predicate EndpointReads(read: Reader, s: string, user: string, host: string, port: int) {
    exists rest :: s == user + "@" + rest && user != "" && '@' !in user && CommandLineReads(read, rest, host, port)
  }

  lemma EndpointIsRead(read: Reader, s: string, user: string, host: string, port: int)
    requires ParseEndpoint(read, s) == Ok((user, host, port))
    ensures EndpointReads(read, s, user, host, port)
  {
    var k := Find(s, '@').value;
    assert s == user + "@" + s[k + 1..];
    CommandLineReadsExactlyIf(read, s[k + 1..], host, port);
  }

  lemma ReadEndpointIsParsed(read: Reader, s: string, user: string, host: string, port: int)
    requires EndpointReads(read, s, user, host, port)
    ensures ParseEndpoint(read, s) == Ok((user, host, port))
  {
    var rest :| s == user + "@" + rest && user != "" && '@' !in user && CommandLineReads(read, rest, host, port);
    assert s[..|user|] == user && s[|user|] == '@' && s[|user| + 1..] == rest;
    FindIs(s, '@', |user|);
    CommandLineReadsExactlyIf(read, rest, host, port);
  }

  lemma EndpointReadsExactlyIf(read: Reader, s: string, user: string, host: string, port: int)
    ensures ParseEndpoint(read, s) == Ok((user, host, port)) <==> EndpointReads(read, s, user, host, port)
  {
    if ParseEndpoint(read, s) == Ok((user, host, port)) {
      EndpointIsRead(read, s, user, host, port);
    }
    if EndpointReads(read, s, user, host, port) {
      ReadEndpointIsParsed(read, s, user, host, port);
    }
  }

  /** `[HOST]:PORT` up to the first "]:", or HOST:PORT from the last colon and without a "::"; a port in any case. */
  ghost predicate SchemaReads(read: Reader, s: string, host: string, port: int) {
    && host != ""
    && exists raw :: IsPort(read, raw, port) &&
         if IsBracketed(s) then
           s == "[" + host + "]:" + raw && forall i :: PairAt(s, ']', ':', i) ==> i > |host|
         else
           s == host + ":" + raw && ':' !in raw && !HasPair(s, ':', ':')
  }

  lemma SchemaReadsBrackets(read: Reader, s: string, host: string, port: int)
    requires IsBracketed(s)
    ensures ParseHostPort(read, s) == Ok((host, port)) <==> SchemaReads(read, s, host, port)
  {
    if ParseHostPort(read, s) == Ok((host, port)) {
      var closing := FindPair(s, ']', ':').value;
      WithPortIs(read, host, s[closing + 2..], port);
      assert s == "[" + host + "]:" + s[closing + 2..];
    }
    if SchemaReads(read, s, host, port) {
      var raw :| IsPort(read, raw, port) && s == "[" + host + "]:" + raw
                 && forall i :: PairAt(s, ']', ':', i) ==> i > |host|;
      assert PairAt(s, ']', ':', |host| + 1);
      assert s[1..|host| + 1] == host && s[|host| + 3..] == raw;
      WithPortIs(read, host, raw, port);
    }
  }

  lemma SchemaReadsPlain(read: Reader, s: string, host: string, port: int)
    requires !IsBracketed(s)
    ensures ParseHostPort(read, s) == Ok((host, port)) <==> SchemaReads(read, s, host, port)
  {
    if ParseHostPort(read, s) == Ok((host, port)) {
      var k := FindLast(s, ':').value;
      WithPortIs(read, host, s[k + 1..], port);
      assert s == host + ":" + s[k + 1..];
    }
    if SchemaReads(read, s, host, port) {
      var raw :| IsPort(read, raw, port) && s == host + ":" + raw && ':' !in raw && !HasPair(s, ':', ':');
      LastColon(s, host, raw);
      WithPortIs(read, host, raw, port);
    }
  }

  /** What the schema reads, exactly. */
  lemma SchemaReadsExactlyIf(read: Reader, s: string, host: string, port: int)
    ensures ParseHostPort(read, s) == Ok((host, port)) <==> SchemaReads(read, s, host, port)
  {
    if IsBracketed(s) {
      SchemaReadsBrackets(read, s, host, port);
    } else {
      SchemaReadsPlain(read, s, host, port);
    }
  }

  // ---------------------------------------------------------------- printing and reading back

  /** A host and a port as text, in brackets when the host has a colon: section 3.2.2 of RFC 3986. */
  function Print(host: string, port: nat): string {
    (if ':' in host then "[" + host + "]" else host) + ":" + Decimal(port)
  }

  function Plain(s: string): Option<int> {
    match ReadDecimal(s)
    case None => None
    case Some(n) => Some(n)
  }

  lemma ColonBeforePort(host: string, port: nat)
    requires ':' !in host
    ensures FindLast(host + ":" + Decimal(port), ':') == Some(|host|)
  {
  }

  lemma PortReadsBack(host: string, port: nat)
    requires 1 <= port <= 65535
    ensures WithPort(Plain, host, Decimal(port)) == Ok((host, port))
  {
    ReadDecimalInvertsDecimal(port);
  }

  /** cli_input.py reads a printed host back exactly if no bracket of the host's own misleads it. */
  lemma CommandLineReadsBack(host: string, port: nat)
    requires 1 <= port <= 65535
    ensures SplitHostPort(Plain, Print(host, port)) == Ok((host, port)) <==>
      if ':' in host then ']' !in host else host != [] && host[0] != '['
  {
    PortReadsBack(host, port);
    if ':' in host {
      CommandLineReadsBracketed(host, port);
    } else {
      ReadsBare(host, port);
      ColonBeforePort(host, port);
    }
  }

  lemma CommandLineReadsBracketed(host: string, port: nat)
    requires 1 <= port <= 65535 && ':' in host
    ensures SplitHostPort(Plain, Print(host, port)) == Ok((host, port)) <==> ']' !in host
  {
    var s := Print(host, port);
    PortReadsBack(host, port);
    if ']' !in host {
      assert s[..|host| + 1] == "[" + host;
      FindIs(s, ']', |host| + 1);
      assert s[1..|host| + 1] == host && s[|host| + 3..] == Decimal(port);
    } else {
      var i :| 0 <= i < |host| && host[i] == ']';
      assert s[i + 1] == ']';
      FindAtMost(s, ']', i + 1);
      assert |s[1..Find(s, ']').value]| < |host|;
    }
  }

  /** A host without a colon is read back from its unbracketed form, unless it is empty or looks bracketed. */
  lemma ReadsBare(host: string, port: nat)
    requires 1 <= port <= 65535 && ':' !in host
    ensures var s := Print(host, port);
      && s[..|host|] == host && s[|host| + 1..] == Decimal(port) && (IsBracketed(s) <==> IsBracketed(host))
      && (IsBracketed(host) ==>
            SplitHostPort(Plain, s) != Ok((host, port)) && ParseHostPort(Plain, s) != Ok((host, port)))
  {
  }

  /** schemas.py reads it back exactly if the host does not itself contain the closing "]:" or an opening bracket. */
  lemma SchemaReadsBack(host: string, port: nat)
    requires 1 <= port <= 65535
    ensures ParseHostPort(Plain, Print(host, port)) == Ok((host, port)) <==>
      if ':' in host then !HasPair(host, ']', ':') else host != [] && host[0] != '['
  {
    PortReadsBack(host, port);
    if ':' in host {
      SchemaReadsBracketed(host, port);
    } else {
      ReadsBare(host, port);
      ColonBeforePort(host, port);
      OneColon(host, port);
    }
  }

  lemma SchemaReadsBracketed(host: string, port: nat)
    requires 1 <= port <= 65535 && ':' in host
    ensures ParseHostPort(Plain, Print(host, port)) == Ok((host, port)) <==> !HasPair(host, ']', ':')
  {
    var s := Print(host, port);
    PortReadsBack(host, port);
    assert forall i | 0 <= i < |host| :: s[i + 1] == host[i];
    assert PairAt(s, ']', ':', |host| + 1);
    var closing := FindPair(s, ']', ':').value;
    if i :| PairAt(host, ']', ':', i) {
      assert PairAt(s, ']', ':', i + 1);
      assert |s[1..closing]| < |host|;
    } else {
      assert closing < |host| ==> PairAt(host, ']', ':', closing - 1);
      assert s[|host| + 1] == ']' && closing == |host| + 1;
      assert s[1..|host| + 1] == host && s[|host| + 3..] == Decimal(port);
    }
  }

  lemma OneColon(host: string, port: nat)
    requires ':' !in host
    ensures var s := Print(host, port); forall i | 0 <= i < |s| :: s[i] == ':' <==> i == |host|
  {
  }

  /** The user is what comes before the first at sign. */
  lemma UserReadsBack(user: string, rest: string)
    ensures user != [] && '@' !in user ==>
      ParseEndpoint(Plain, user + "@" + rest) ==
        match SplitHostPort(Plain, rest)
        case Err(error) => Err(error)
        case Ok((host, port)) => Ok((user, host, port))
    ensures user == [] || '@' in user ==>
      forall host, port :: ParseEndpoint(Plain, user + "@" + rest) != Ok((user, host, port))
  {
    var s := user + "@" + rest;
    assert s[|user|] == '@' && s[..|user|] == user && s[|user| + 1..] == rest;
    if '@' !in user {
      FindIs(s, '@', |user|);
    } else {
      var i :| 0 <= i < |user| && user[i] == '@';
      FindAtMost(s, '@', i);
      assert |s[..Find(s, '@').value]| < |user|;
    }
  }

  /** A whole connection reads back exactly if its user is a user and its host reads back. */
  lemma ConnectionReadsBack(user: string, host: string, port: nat)
    requires 1 <= port <= 65535
    ensures ParseEndpoint(Plain, user + "@" + Print(host, port)) == Ok((user, host, port)) <==>
      && user != [] && '@' !in user
      && (if ':' in host then ']' !in host else host != [] && host[0] != '[')
  {
    UserReadsBack(user, Print(host, port));
    CommandLineReadsBack(host, port);
  }

  lemma PortTwentyTwo(host: string)
    ensures WithPort(Plain, host, "22") == Ok((host, 22))
  {
    assert Decimal(22) == Decimal(2) + [Digit(2)];
    assert Decimal(22) == "22";
    PortReadsBack(host, 22);
  }

  /** A text that only the command line takes: an empty host in brackets. */
  lemma EmptyBracketsDiffer()
    ensures SplitHostPort(Plain, "[]:22") == Ok(("", 22)) && ParseHostPort(Plain, "[]:22") == Err(MissingHost)
  {
    var s := "[]:22";
    PortTwentyTwo("");
    FindAtMost(s, ']', 1);
    assert PairAt(s, ']', ':', 1) && s[1..1] == "" && s[3..] == "22";
  }

  /** A text that only the schema takes: a closing bracket within the brackets. */
  lemma InnerBracketDiffers()
    ensures SplitHostPort(Plain, "[a]b]:22") == Err(NoPortAfterBracket)
    ensures ParseHostPort(Plain, "[a]b]:22") == Ok(("a]b", 22))
  {
    var s := "[a]b]:22";
    PortTwentyTwo("a]b");
    FindAtMost(s, ']', 2);
    assert PairAt(s, ']', ':', 4) && s[1..4] == "a]b" && s[6..] == "22";
  }

  // ---------------------------------------------------------------- repeated NAME=VALUE flags

  datatype NamedError =
    | NoSeparator(item: string)
    | EmptyName(item: string)
    | EmptyValue(item: string)
    | Duplicate(item: string)

  predicate IsNamed(item: string, name: string, value: string) {
    item == name + "=" + value && '=' !in name && name != [] && value != []
  }

  function NameOf(item: string): string {
    match Find(item, '=')
    case None => item
    case Some(k) => item[..k]
  }

  /** What is wrong with the i-th item, if anything. */
  function Complaint(items: seq<string>, i: nat): Option<NamedError>
    requires i < |items|
  {
    match Find(items[i], '=')
    case None => Some(NoSeparator(items[i]))
    case Some(k) =>
      if k == 0 then Some(EmptyName(items[i]))
      else if k + 1 == |items[i]| then Some(EmptyValue(items[i]))
      else if exists j :: 0 <= j < i && NameOf(items[j]) == items[i][..k] then Some(Duplicate(items[i]))
      else None
  }

  /** The pairs, in order, are the items taken apart at their first equals sign, and no name comes twice. */
  ghost predicate IsReading(items: seq<string>, out: seq<(string, string)>) {
    && |out| == |items|
    && (forall i | 0 <= i < |items| :: IsNamed(items[i], out[i].0, out[i].1))
    && (forall i, j | 0 <= i < j < |out| :: out[i].0 != out[j].0)
  }

  lemma NamedIsUnique(item: string, name: string, value: string)
    requires IsNamed(item, name, value)
    ensures Find(item, '=') == Some(|name|) && name == item[..|name|] && value == item[|name| + 1..]
  {
    assert item[..|name|] == name;
    FindIs(item, '=', |name|);
  }

  /** There is at most one reading. */
  lemma ReadingIsUnique(items: seq<string>, a: seq<(string, string)>, b: seq<(string, string)>)
    requires IsReading(items, a) && IsReading(items, b)
    ensures a == b
  {
    forall i | 0 <= i < |items|
      ensures a[i] == b[i]
    {
      NamedIsUnique(items[i], a[i].0, a[i].1);
      NamedIsUnique(items[i], b[i].0, b[i].1);
    }
  }

  /** Nothing is wrong with the first n items. */
  predicate AllFine(items: seq<string>, n: nat)
    requires n <= |items|
  {
    forall i: nat | i < n :: Complaint(items, i).None?
  }

  lemma ReadableItemsAreFine(items: seq<string>, out: seq<(string, string)>, i: nat)
    requires IsReading(items, out) && i < |items|
    ensures Complaint(items, i).None?
  {
    NamedIsUnique(items[i], out[i].0, out[i].1);
    forall j | 0 <= j < i
      ensures NameOf(items[j]) != out[i].0
    {
      NamedIsUnique(items[j], out[j].0, out[j].1);
    }
  }

  /** `parse_named`: the reading of the items if they have one, and otherwise what is wrong with the first bad one. */
  method ParseNamed(items: seq<string>) returns (r: Result<seq<(string, string)>, NamedError>)
    ensures r.Ok? <==> exists out: seq<(string, string)> :: IsReading(items, out)
    ensures r.Ok? ==> IsReading(items, r.value)
    ensures r.Err? ==>
      exists i: nat | i < |items| :: Complaint(items, i) == Some(r.error) && AllFine(items, i)
  {
    var out: seq<(string, string)> := [];
    for i := 0 to |items|
      invariant IsReading(items[..i], out) && AllFine(items, i)
    {
      r := ParseItem(items, i, out);
      if r.Err? {
        if reading: seq<(string, string)> :| IsReading(items, reading) {
          ReadableItemsAreFine(items, reading, i);
        }
        return;
      }
      out := r.value;
    }
    assert items[..|items|] == items;
    r := Ok(out);
  }

  /** One round of the loop. */
  method ParseItem(items: seq<string>, i: nat, out: seq<(string, string)>)
    returns (r: Result<seq<(string, string)>, NamedError>)
    requires i < |items| && IsReading(items[..i], out)
    ensures r.Ok? <==> Complaint(items, i).None?
    ensures r.Err? ==> Complaint(items, i) == Some(r.error)
    ensures r.Ok? ==> IsReading(items[..i + 1], r.value)
  {
    forall j | 0 <= j < i
      ensures NameOf(items[j]) == out[j].0
    {
      assert items[..i][j] == items[j];
      NamedIsUnique(items[j], out[j].0, out[j].1);
    }
    var k := Find(items[i], '=');
    if k.None? {
      return Err(NoSeparator(items[i]));
    }
    var name, value := items[i][..k.value], items[i][k.value + 1..];
    if name == [] {
      return Err(EmptyName(items[i]));
    }
    if value == [] {
      return Err(EmptyValue(items[i]));
    }
    if exists j :: 0 <= j < |out| && out[j].0 == name {
      return Err(Duplicate(items[i]));
    }
    assert items[i] == name + "=" + value;
    r := Ok(out + [(name, value)]);
  }
}
