/**
 * The two comment scanners, stripJsonComments (core/config.ts) and stripJsoncComments
 * (core/opencode-config.ts): what they keep of a text, that stripping twice is stripping once,
 * and where the two agree.
 */
module Comments {
  // ---- Texts as parts ---------------------------------------------------------------------

  /** A character of a string literal, or an escape pair. */
  datatype Unit = Char(c: char) | Escape(c: char)

  datatype Part = Plain(c: char) | Literal(units: seq<Unit>) | LineComment(body: string) | BlockComment(body: string)

  /** How a text ends: after its parts, or inside a literal or a block comment that is never closed. */
  datatype Ending = Closed | OpenLiteral(units: seq<Unit>, dangling: bool) | OpenBlock(body: string)

  function UnitText(u: Unit): string {
    match u
    case Char(c) => [c]
    case Escape(c) => ['\\', c]
  }

  function UnitsText(units: seq<Unit>): string {
    if units == [] then "" else UnitText(units[0]) + UnitsText(units[1..])
  }

  function PartText(p: Part): string {
    match p
    case Plain(c) => [c]
    case Literal(units) => "\"" + UnitsText(units) + "\""
    case LineComment(body) => "//" + body
    case BlockComment(body) => "/*" + body + "*/"
  }

  function EndText(e: Ending): string {
    match e
    case Closed => ""
    case OpenLiteral(units, dangling) => "\"" + UnitsText(units) + (if dangling then "\\" else "")
    case OpenBlock(body) => "/*" + body
  }

  function Text(parts: seq<Part>, end: Ending): string {
    if parts == [] then EndText(end) else PartText(parts[0]) + Text(parts[1..], end)
  }

  predicate IsComment(p: Part) {
    p.LineComment? || p.BlockComment?
  }

  /** The text without its comments. */
  function Kept(parts: seq<Part>, end: Ending): string {
    if parts == [] then (if end.OpenBlock? then "" else EndText(end))
    else (if IsComment(parts[0]) then "" else PartText(parts[0])) + Kept(parts[1..], end)
  }

  predicate UnitsOk(units: seq<Unit>) {
    forall i :: 0 <= i < |units| && units[i].Char? ==> units[i].c != '"' && units[i].c != '\\'
  }

  predicate ClosesAt(s: string, i: nat) {
    i + 1 < |s| && s[i] == '*' && s[i + 1] == '/'
  }

  predicate NeverCloses(s: string) {
    forall i :: 0 <= i < |s| ==> !ClosesAt(s, i)
  }

  /** The part ends where it should, given the text that follows. */
  predicate Fits(p: Part, rest: string) {
    match p
    case Plain(c) => c != '"' && (c == '/' && rest != "" ==> rest[0] != '/' && rest[0] != '*')
    case Literal(units) => UnitsOk(units)
    case LineComment(body) => '\n' !in body && (rest != "" ==> rest[0] == '\n')
    case BlockComment(body) => forall i :: 0 <= i < |body| ==> !ClosesAt(body + "*/", i)
  }

  predicate EndFits(e: Ending) {
    match e
    case Closed => true
    case OpenLiteral(units, _) => UnitsOk(units)
    case OpenBlock(body) => NeverCloses(body)
  }

  predicate WellFormed(parts: seq<Part>, end: Ending) {
    if parts == [] then EndFits(end) else Fits(parts[0], Text(parts[1..], end)) && WellFormed(parts[1..], end)
  }

  // ---- The scanner ------------------------------------------------------------------------

  predicate Starts(s: string, a: char, b: char) {
    |s| > 1 && s[0] == a && s[1] == b
  }

  /** What a scanner emits from code; `single` says whether single quotes open strings too. */
  function Code(s: string, single: bool): string
    decreases |s|
  {
    if s == "" then ""
    else if s[0] == '"' || (single && s[0] == '\'') then [s[0]] + InString(s[1..], s[0], single)
    else if Starts(s, '/', '/') then Code(AfterLine(s[2..]), single)
    else if Starts(s, '/', '*') then Code(AfterBlock(s[2..]), single)
    else [s[0]] + Code(s[1..], single)
  }

  /** What it emits from inside a string that `quote` closes. */
  function InString(s: string, quote: char, single: bool): string
    decreases |s|
  {
    if s == "" then ""
    else if s[0] == '\\' && |s| > 1 then s[..2] + InString(s[2..], quote, single)
    else if s[0] == quote then [s[0]] + Code(s[1..], single)
    else [s[0]] + InString(s[1..], quote, single)
  }

  /** The rest of a text from the newline that ends a line comment. */
  function AfterLine(s: string): (r: string)
    ensures |r| <= |s|
  {
    if s == "" || s[0] == '\n' then s else AfterLine(s[1..])
  }

  /** The rest of a text after the end of a block comment. */
  function AfterBlock(s: string): (r: string)
    ensures |r| <= |s|
  {
    if s == "" then "" else if Starts(s, '*', '/') then s[2..] else AfterBlock(s[1..])
  }

  // ---- The methods ------------------------------------------------------------------------

  lemma RestFrom(s: string, i: nat)
    requires i < |s|
    ensures s[i..][0] == s[i] && s[i..][1..] == s[i + 1..] && (i + 1 < |s| ==> s[i..][1] == s[i + 1] && s[i..][2..] == s[i + 2..])
  {
  }

  method SkipLine(raw: string, start: nat) returns (i: nat)
    requires start <= |raw|
    ensures start <= i <= |raw| && raw[i..] == AfterLine(raw[start..])
  {
    i := start;
    while i < |raw| && raw[i] != '\n'
      invariant start <= i <= |raw| && AfterLine(raw[i..]) == AfterLine(raw[start..])
    {
      RestFrom(raw, i);
      i := i + 1;
    }
  }

  /** The block comment's closer, or the end of the text. */
  method SkipBlock(raw: string, start: nat) returns (i: nat)
    requires start <= |raw|
    ensures start <= i <= |raw| && (if i < |raw| then i + 2 <= |raw| && raw[i + 2..] == AfterBlock(raw[start..]) else AfterBlock(raw[start..]) == "")
  {
    i := start;
    while i < |raw| && !(raw[i] == '*' && i + 1 < |raw| && raw[i + 1] == '/')
      invariant start <= i <= |raw| && AfterBlock(raw[i..]) == AfterBlock(raw[start..])
    {
      RestFrom(raw, i);
      i := i + 1;
    }
    if i < |raw| {
      RestFrom(raw, i);
    }
  }

  /** One step of the scanner in code. */
  lemma CodeStep(raw: string, i: nat, single: bool)
    requires i < |raw|
    ensures Code(raw[i..], single) ==
      if raw[i] == '"' || (single && raw[i] == '\'') then [raw[i]] + InString(raw[i + 1..], raw[i], single)
      else if raw[i] == '/' && i + 1 < |raw| && raw[i + 1] == '/' then Code(AfterLine(raw[i + 2..]), single)
      else if raw[i] == '/' && i + 1 < |raw| && raw[i + 1] == '*' then Code(AfterBlock(raw[i + 2..]), single)
      else [raw[i]] + Code(raw[i + 1..], single)
  {
    RestFrom(raw, i);
  }

  /** One step of the scanner in a string. */
  lemma InStringStep(raw: string, i: nat, quote: char, single: bool)
    requires i < |raw|
    ensures InString(raw[i..], quote, single) ==
      if raw[i] == '\\' && i + 1 < |raw| then [raw[i], raw[i + 1]] + InString(raw[i + 2..], quote, single)
      else if raw[i] == quote then [raw[i]] + Code(raw[i + 1..], single)
      else [raw[i]] + InString(raw[i + 1..], quote, single)
  {
    RestFrom(raw, i);
    if i + 1 < |raw| {
      assert raw[i..][..2] == [raw[i], raw[i + 1]];
    }
  }

  lemma Regroup(a: string, b: string, c: string)
    ensures a + (b + c) == (a + b) + c
  {
  }

  /** The inner loop of stripJsonComments: copy a literal from behind its opening quote. */
  method CopyLiteral(raw: string, start: nat) returns (i: nat, copied: string)
    requires start <= |raw|
    ensures start <= i <= |raw| && copied + Code(raw[i..], false) == InString(raw[start..], '"', false)
  {
    hide Code, InString;
    i, copied := start, "";
    while i < |raw|
      invariant start <= i <= |raw| && copied + InString(raw[i..], '"', false) == InString(raw[start..], '"', false)
    {
      InStringStep(raw, i, '"', false);
      var c := raw[i];
      if c == '\\' && i + 1 < |raw| {
        Regroup(copied, [c, raw[i + 1]], InString(raw[i + 2..], '"', false));
        copied := copied + [c, raw[i + 1]];
        i := i + 2;
      } else if c == '"' {
        Regroup(copied, [c], Code(raw[i + 1..], false));
        copied := copied + [c];
        i := i + 1;
        return;
      } else {
        Regroup(copied, [c], InString(raw[i + 1..], '"', false));
        copied := copied + [c];
        i := i + 1;
      }
    }
    AtEnd(raw, i, '"', false);
  }

  lemma AtEnd(raw: string, i: nat, quote: char, single: bool)
    requires i == |raw|
    ensures Code(raw[i..], single) == "" && InString(raw[i..], quote, single) == ""
  {
  }

  /** stripJsonComments of core/config.ts. */
  method StripJsonComments(raw: string) returns (out: string)
    ensures out == Code(raw, false)
  {
    hide Code, InString;
    out := "";
    var i := 0;
    assert raw[0..] == raw;
    while i < |raw|
      invariant 0 <= i <= |raw| && out + Code(raw[i..], false) == Code(raw, false)
      decreases |raw| - i
    {
      CodeStep(raw, i, false);
      if raw[i] == '"' {
        var end, copied := CopyLiteral(raw, i + 1);
        Regroup(out, [raw[i]], copied + Code(raw[end..], false));
        Regroup(out + [raw[i]], copied, Code(raw[end..], false));
        out, i := out + [raw[i]] + copied, end;
      } else if raw[i] == '/' && i + 1 < |raw| && raw[i + 1] == '/' {
        i := SkipLine(raw, i + 2);
      } else if raw[i] == '/' && i + 1 < |raw| && raw[i + 1] == '*' {
        i := SkipBlock(raw, i + 2);
        if i < |raw| {
          i := i + 2;
        } else {
          assert raw[i..] == "";
        }
      } else {
        Regroup(out, [raw[i]], Code(raw[i + 1..], false));
        out := out + [raw[i]];
        i := i + 1;
      }
    }
    AtEnd(raw, i, '"', false);
  }

  /** What the single-loop scanner still has to emit from index `i`, which may lie behind the end. */
  ghost function Ahead(input: string, i: nat, inString: bool, quote: char): string {
    if i >= |input| then "" else if inString then InString(input[i..], quote, true) else Code(input[i..], true)
  }

  lemma AheadStep(input: string, i: nat, inString: bool, quote: char)
    requires i < |input|
    ensures var c := input[i];
      Ahead(input, i, inString, quote) ==
        if inString then
          if c == '\\' && i + 1 < |input| then [c, input[i + 1]] + Ahead(input, i + 2, true, quote)
          else [c] + Ahead(input, i + 1, c != quote, quote)
        else if c == '"' || c == '\'' then [c] + Ahead(input, i + 1, true, c)
        else if c == '/' && i + 1 < |input| && input[i + 1] == '/' then Code(AfterLine(input[i + 2..]), true)
        else if c == '/' && i + 1 < |input| && input[i + 1] == '*' then Code(AfterBlock(input[i + 2..]), true)
        else [c] + Ahead(input, i + 1, false, quote)
  {
    hide Code, InString;
    CodeStep(input, i, true);
    InStringStep(input, i, quote, true);
    AtEnd(input, |input|, quote, true);
    AtEnd(input, |input|, input[i], true);
  }

  /** stripJsoncComments of core/opencode-config.ts; after an unclosed block comment its index passes the end. */
  method StripJsoncComments(input: string) returns (out: string)
    ensures out == Code(input, true)
  {
    hide Code, InString;
    out := "";
    var i: nat := 0;
    var inString, quote := false, ' ';
    assert input[0..] == input;
    AtEnd(input, |input|, quote, true);
    while i < |input|
      invariant out + Ahead(input, i, inString, quote) == Code(input, true)
      decreases |input| - i
    {
      AheadStep(input, i, inString, quote);
      var c := input[i];
      if inString {
        if c == '\\' && i + 1 < |input| {
          Regroup(out, [c, input[i + 1]], Ahead(input, i + 2, true, quote));
          out := out + [c, input[i + 1]];
          i := i + 2;
        } else {
          Regroup(out, [c], Ahead(input, i + 1, c != quote, quote));
          out := out + [c];
          inString := c != quote;
          i := i + 1;
        }
      } else if c == '"' || c == '\'' {
        Regroup(out, [c], Ahead(input, i + 1, true, c));
        inString, quote := true, c;
        out := out + [c];
        i := i + 1;
      } else if c == '/' && i + 1 < |input| && input[i + 1] == '/' {
        i := SkipLine(input, i + 2);
        assert i == |input| ==> input[i..] == "";
      } else if c == '/' && i + 1 < |input| && input[i + 1] == '*' {
        i := SkipBlock(input, i + 2);
        i := i + 2;
        assert i <= |input| ==> (i == |input| ==> input[i..] == "");
      } else {
        Regroup(out, [c], Ahead(input, i + 1, false, quote));
        out := out + [c];
        i := i + 1;
      }
    }
  }

  // ---- What the scanners keep -------------------------------------------------------------

  lemma {:induction false} LiteralCopied(units: seq<Unit>, rest: string, single: bool)
    requires UnitsOk(units)
    ensures InString(UnitsText(units) + "\"" + rest, '"', single) == UnitsText(units) + "\"" + Code(rest, single)
  {
    if units == [] {
      assert ("" + "\"" + rest)[1..] == rest;
    } else {
      var t := UnitsText(units[1..]) + "\"" + rest;
      LiteralCopied(units[1..], rest, single);
      assert UnitsText(units) + "\"" + rest == UnitText(units[0]) + t;
      UnitCopied(units[0], t, single);
    }
  }

  lemma UnitCopied(u: Unit, t: string, single: bool)
    requires u.Char? ==> u.c != '"' && u.c != '\\'
    ensures InString(UnitText(u) + t, '"', single) == UnitText(u) + InString(t, '"', single)
  {
    match u
    case Char(c) => assert (UnitText(u) + t)[1..] == t;
    case Escape(c) => assert (UnitText(u) + t)[2..] == t && (UnitText(u) + t)[..2] == UnitText(u);
  }

  lemma {:induction false} OpenLiteralCopied(units: seq<Unit>, dangling: bool, single: bool)
    requires UnitsOk(units)
    ensures var t := UnitsText(units) + (if dangling then "\\" else ""); InString(t, '"', single) == t
  {
    var end := if dangling then "\\" else "";
    if units == [] {
      assert UnitsText(units) + end == end;
      if dangling {
        assert end[1..] == "";
      }
    } else {
      OpenLiteralCopied(units[1..], dangling, single);
      assert UnitsText(units) + end == UnitText(units[0]) + (UnitsText(units[1..]) + end);
      UnitCopied(units[0], UnitsText(units[1..]) + end, single);
    }
  }

  lemma {:induction false} LineSkipped(body: string, rest: string)
    requires '\n' !in body && (rest != "" ==> rest[0] == '\n')
    ensures AfterLine(body + rest) == rest
  {
    if body == "" {
      assert body + rest == rest;
    } else {
      assert (body + rest)[1..] == body[1..] + rest;
      LineSkipped(body[1..], rest);
    }
  }

  lemma {:induction false} BlockSkipped(body: string, rest: string)
    requires forall i :: 0 <= i < |body| ==> !ClosesAt(body + "*/", i)
    ensures AfterBlock(body + "*/" + rest) == rest
  {
    var t := body + "*/" + rest;
    if body == "" {
      assert t == "*/" + rest && t[2..] == rest;
    } else {
      assert !ClosesAt(body + "*/", 0);
      assert t[1..] == body[1..] + "*/" + rest;
      forall i | 0 <= i < |body[1..]| ensures !ClosesAt(body[1..] + "*/", i) {
        assert !ClosesAt(body + "*/", i + 1);
        assert (body + "*/")[1..] == body[1..] + "*/";
      }
      BlockSkipped(body[1..], rest);
    }
  }

  lemma {:induction false} OpenBlockSkipped(body: string)
    requires NeverCloses(body)
    ensures AfterBlock(body) == ""
  {
    if body != "" {
      assert !ClosesAt(body, 0);
      forall i | 0 <= i < |body[1..]| ensures !ClosesAt(body[1..], i) {
        assert !ClosesAt(body, i + 1);
      }
      OpenBlockSkipped(body[1..]);
    }
  }

  /** No single quote outside strings and comments. */
  predicate NoSingleQuote(parts: seq<Part>) {
    Plain('\'') !in parts
  }

  lemma LiteralOpens(t: string, single: bool)
    ensures Code("\"" + t, single) == "\"" + InString(t, '"', single)
  {
    assert ("\"" + t)[1..] == t;
  }

  lemma LiteralScanned(units: seq<Unit>, rest: string, single: bool)
    requires UnitsOk(units)
    ensures Code("\"" + UnitsText(units) + "\"" + rest, single) == "\"" + UnitsText(units) + "\"" + Code(rest, single)
  {
    hide Code, InString, UnitsText, UnitsOk;
    var body := UnitsText(units);
    LiteralCopied(units, rest, single);
    LiteralOpens(body + "\"" + rest, single);
    Regroup("\"", body + "\"", rest);
    Regroup("\"", body, "\"");
    Regroup("\"", body + "\"", Code(rest, single));
  }

  lemma LineScanned(body: string, rest: string, single: bool)
    requires '\n' !in body && (rest != "" ==> rest[0] == '\n')
    ensures Code("//" + body + rest, single) == Code(rest, single)
  {
    var t := "//" + body + rest;
    LineSkipped(body, rest);
    assert t[0] == '/' && t[1] == '/' && t[2..] == body + rest;
  }

  lemma BlockScanned(body: string, rest: string, single: bool)
    requires forall i :: 0 <= i < |body| ==> !ClosesAt(body + "*/", i)
    ensures Code("/*" + body + "*/" + rest, single) == Code(rest, single)
  {
    hide ClosesAt;
    var t := "/*" + body + "*/" + rest;
    BlockSkipped(body, rest);
    assert t[0] == '/' && t[1] == '*' && t[2..] == body + "*/" + rest;
  }

  lemma PlainScanned(c: char, rest: string, single: bool)
    requires c != '"' && (c == '/' && rest != "" ==> rest[0] != '/' && rest[0] != '*') && (single ==> c != '\'')
    ensures Code([c] + rest, single) == [c] + Code(rest, single)
  {
    assert ([c] + rest)[1..] == rest;
  }

  lemma PartScanned(p: Part, rest: string, single: bool)
    requires Fits(p, rest) && (single ==> p != Plain('\''))
    ensures Code(PartText(p) + rest, single) == (if IsComment(p) then "" else PartText(p)) + Code(rest, single)
  {
    hide Code, ClosesAt, UnitsOk, UnitsText;
    match p {
      case Plain(c) => PlainScanned(c, rest, single);
      case Literal(units) => LiteralScanned(units, rest, single);
      case LineComment(body) => LineScanned(body, rest, single);
      case BlockComment(body) => BlockScanned(body, rest, single);
    }
  }

  lemma EndScanned(e: Ending, single: bool)
    requires EndFits(e)
    ensures Code(EndText(e), single) == if e.OpenBlock? then "" else EndText(e)
  {
    var t := EndText(e);
    match e {
      case Closed =>
      case OpenLiteral(units, dangling) =>
        OpenLiteralCopied(units, dangling, single);
        assert t[1..] == UnitsText(units) + (if dangling then "\\" else "");
      case OpenBlock(body) =>
        OpenBlockSkipped(body);
        assert t[2..] == body;
    }
  }

  /**
   * Main result: on every text the scanner returns exactly the parts that are not comments, newlines
   * after line comments included; the second scanner does so when no single quote stands outside
   * strings and comments. So there the two agree.
   */
  lemma {:induction false} KeepsAllButComments(parts: seq<Part>, end: Ending, single: bool)
    requires WellFormed(parts, end) && (single ==> NoSingleQuote(parts))
    ensures Code(Text(parts, end), single) == Kept(parts, end)
  {
    if parts == [] {
      EndScanned(end, single);
    } else {
      KeepsAllButComments(parts[1..], end, single);
      PartScanned(parts[0], Text(parts[1..], end), single);
    }
  }

  /** A single quote outside strings and comments makes them differ: the second scanner reads a string. */
  lemma SingleQuotesDiffer()
    ensures Code("'//'", false) == "'" && Code("'//'", true) == "'//'"
  {
    var t := "'//'";
    assert t[1..] == "//'" && t[1..][2..] == "'" && "'"[1..] == "";
    assert t[1..][1..] == "/'" && "/'"[1..] == "'";
  }

  // ---- Every text has parts ---------------------------------------------------------------

  lemma UnitsPrefixed(u: Unit, units: seq<Unit>, tail: string)
    ensures UnitsText([u] + units) + tail == UnitText(u) + (UnitsText(units) + tail)
    ensures UnitsOk(units) && (u.Char? ==> u.c != '"' && u.c != '\\') ==> UnitsOk([u] + units)
  {
    assert ([u] + units)[1..] == units;
  }

  /** The first unit of a text inside a string that neither ends there nor meets the closing quote. */
  lemma ReadUnit(s: string) returns (u: Unit, rest: string)
    requires s != "" && s != "\\" && s[0] != '"'
    ensures s == UnitText(u) + rest && |rest| < |s| && (u.Char? ==> u.c != '"' && u.c != '\\')
  {
    if s[0] == '\\' {
      u, rest := Escape(s[1]), s[2..];
    } else {
      u, rest := Char(s[0]), s[1..];
    }
  }

  /** A text that starts inside a string: its units up to the closing quote or the end. */
  lemma {:induction false} ReadLiteral(s: string) returns (units: seq<Unit>, closed: bool, dangling: bool, rest: string)
    ensures UnitsOk(units) && |rest| <= |s|
    ensures closed ==> s == UnitsText(units) + "\"" + rest && |rest| < |s|
    ensures !closed ==> s == UnitsText(units) + (if dangling then "\\" else "")
    decreases |s|
  {
    if s == "" {
      units, closed, dangling, rest := [], false, false, "";
    } else if s == "\\" {
      units, closed, dangling, rest := [], false, true, "";
    } else if s[0] == '"' {
      units, closed, dangling, rest := [], true, false, s[1..];
      assert s == "" + "\"" + rest;
    } else {
      hide UnitsText, UnitText, UnitsOk;
      var u, tail := ReadUnit(s);
      var more: seq<Unit>;
      more, closed, dangling, rest := ReadLiteral(tail);
      units := [u] + more;
      var end := if closed then "\"" + rest else if dangling then "\\" else "";
      UnitsPrefixed(u, more, end);
      if closed {
        Regroup(UnitsText(more), "\"", rest);
        Regroup(UnitsText(units), "\"", rest);
      }
    }
  }

  lemma {:induction false} ReadLine(s: string) returns (body: string)
    ensures '\n' !in body && s == body + AfterLine(s) && (AfterLine(s) != "" ==> AfterLine(s)[0] == '\n')
  {
    if s == "" || s[0] == '\n' {
      body := "";
    } else {
      var more := ReadLine(s[1..]);
      body := [s[0]] + more;
    }
  }

  lemma {:induction false} ReadBlock(s: string) returns (body: string, closed: bool)
    ensures closed ==> s == body + "*/" + AfterBlock(s) && forall i :: 0 <= i < |body| ==> !ClosesAt(body + "*/", i)
    ensures !closed ==> s == body && NeverCloses(s)
  {
    if s == "" {
      body, closed := "", false;
    } else if Starts(s, '*', '/') {
      body, closed := "", true;
      assert s == "" + "*/" + s[2..];
    } else {
      body, closed := ReadBlock(s[1..]);
      if closed {
        var longer := [s[0]] + body;
        forall i | 0 <= i < |longer| ensures !ClosesAt(longer + "*/", i) {
          assert longer + "*/" == [s[0]] + (body + "*/");
          if i == 0 {
            assert s == longer + "*/" + AfterBlock(s);
          } else {
            assert !ClosesAt(body + "*/", i - 1);
          }
        }
        body := longer;
      } else {
        body := s;
        forall i | 0 <= i < |s| ensures !ClosesAt(s, i) {
          if i > 0 {
            assert !ClosesAt(s[1..], i - 1);
          }
        }
      }
    }
  }

  /** A text that starts with a quote: a literal and what follows, or an open ending. */
  lemma ReadLiteralPart(s: string) returns (p: Part, rest: string, open: bool, end: Ending)
    requires s != "" && s[0] == '"'
    ensures !open ==> Fits(p, rest) && s == PartText(p) + rest && |rest| < |s|
    ensures open ==> EndFits(end) && EndText(end) == s
  {
    var units, closed, dangling, more := ReadLiteral(s[1..]);
    p, rest, open, end := Literal(units), more, !closed, OpenLiteral(units, dangling);
    assert s == "\"" + s[1..];
  }

  /** A text that starts with a block comment. */
  lemma ReadBlockPart(s: string) returns (p: Part, rest: string, open: bool, end: Ending)
    requires Starts(s, '/', '*')
    ensures !open ==> Fits(p, rest) && s == PartText(p) + rest && |rest| < |s|
    ensures open ==> EndFits(end) && EndText(end) == s
  {
    var body, closed := ReadBlock(s[2..]);
    p, rest, open, end := BlockComment(body), AfterBlock(s[2..]), !closed, OpenBlock(body);
    assert s == "/*" + s[2..];
  }

  /** A text that starts with a line comment. */
  lemma ReadLinePart(s: string) returns (p: Part, rest: string)
    requires Starts(s, '/', '/')
    ensures Fits(p, rest) && s == PartText(p) + rest && |rest| < |s|
  {
    var body := ReadLine(s[2..]);
    p, rest := LineComment(body), AfterLine(s[2..]);
    assert s == "//" + s[2..];
  }

  /** The first part of a text and what follows it, or the open ending it is. */
  lemma ReadPart(s: string) returns (p: Part, rest: string, open: bool, end: Ending)
    requires s != ""
    ensures !open ==> Fits(p, rest) && s == PartText(p) + rest && |rest| < |s|
    ensures open ==> EndFits(end) && EndText(end) == s
  {
    hide EndText, EndFits;
    open, end := false, Closed;
    if s[0] == '"' {
      p, rest, open, end := ReadLiteralPart(s);
    } else if Starts(s, '/', '/') {
      p, rest := ReadLinePart(s);
    } else if Starts(s, '/', '*') {
      p, rest, open, end := ReadBlockPart(s);
    } else {
      p, rest := Plain(s[0]), s[1..];
    }
  }

  /** Every text is built from parts, so what holds of the parts holds of every text. */
  lemma {:induction false} EveryTextHasParts(s: string) returns (parts: seq<Part>, end: Ending)
    ensures WellFormed(parts, end) && Text(parts, end) == s
    decreases |s|
  {
    parts, end := [], Closed;
    if s != "" {
      var p, rest, open, ending := ReadPart(s);
      if open {
        end := ending;
      } else {
        parts, end := EveryTextHasParts(rest);
        parts := AddPart(p, parts, end, s, rest);
      }
    }
  }

  lemma AddPart(p: Part, parts: seq<Part>, end: Ending, s: string, rest: string) returns (all: seq<Part>)
    requires WellFormed(parts, end) && Text(parts, end) == rest && Fits(p, rest) && s == PartText(p) + rest
    ensures all == [p] + parts && WellFormed(all, end) && Text(all, end) == s
  {
    all := [p] + parts;
    assert all[1..] == parts;
  }

  /**
   * Main result: every text has parts, stripJsonComments returns exactly those that are not comments,
   * and both scanners agree when no single quote stands outside strings and comments.
   */
  lemma ScannersAgree(s: string) returns (parts: seq<Part>, end: Ending)
    ensures WellFormed(parts, end) && Text(parts, end) == s
    ensures Code(s, false) == Kept(parts, end)
    ensures NoSingleQuote(parts) ==> Code(s, true) == Code(s, false)
  {
    parts, end := EveryTextHasParts(s);
    KeepsAllButComments(parts, end, false);
    if NoSingleQuote(parts) {
      KeepsAllButComments(parts, end, true);
    }
  }

  // ---- Stripping twice --------------------------------------------------------------------

  /** Outside strings the scanner emits the first character it sees, unless a comment starts there. */
  lemma FirstEmitted(s: string, single: bool)
    requires s != "" && s[0] != '/'
    ensures Code(s, single) != "" && Code(s, single)[0] == s[0]
  {
  }

  lemma {:induction false} CodeTwice(s: string, single: bool)
    ensures Code(Code(s, single), single) == Code(s, single)
    decreases |s|
  {
    if s != "" {
      if s[0] == '"' || (single && s[0] == '\'') {
        InStringTwice(s[1..], s[0], single);
        var t := InString(s[1..], s[0], single);
        assert ([s[0]] + t)[1..] == t;
      } else if Starts(s, '/', '/') {
        CodeTwice(AfterLine(s[2..]), single);
      } else if Starts(s, '/', '*') {
        CodeTwice(AfterBlock(s[2..]), single);
      } else {
        CodeTwice(s[1..], single);
        var t := Code(s[1..], single);
        assert ([s[0]] + t)[1..] == t;
        if s[0] == '/' && |s| > 1 {
          FirstEmitted(s[1..], single);
        }
      }
    }
  }

  lemma {:induction false} InStringTwice(s: string, quote: char, single: bool)
    requires quote != '\\'
    ensures InString(InString(s, quote, single), quote, single) == InString(s, quote, single)
    decreases |s|
  {
    if s != "" {
      if s[0] == '\\' && |s| > 1 {
        InStringTwice(s[2..], quote, single);
        var t := InString(s[2..], quote, single);
        assert (s[..2] + t)[2..] == t && (s[..2] + t)[..2] == s[..2];
      } else if s[0] == quote {
        CodeTwice(s[1..], single);
        var t := Code(s[1..], single);
        assert ([s[0]] + t)[1..] == t;
      } else {
        InStringTwice(s[1..], quote, single);
        var t := InString(s[1..], quote, single);
        assert ([s[0]] + t)[1..] == t;
        if s[0] == '\\' {
          assert s[1..] == "";
        }
      }
    }
  }

  /** Main result: both scanners are idempotent on every text. */
  lemma StripTwice(s: string)
    ensures Code(Code(s, false), false) == Code(s, false) && Code(Code(s, true), true) == Code(s, true)
  {
    CodeTwice(s, false);
    CodeTwice(s, true);
  }
}
