/** internal/pac/pac.go as a compiler: the writer of the PAC file, a parser and an evaluator for the language it
    writes, and what the written program does. */
module Pac {
  import opened Wrappers
  import opened Text
  import opened Glob

  /** What the writer reads of a tailnet. */
  datatype Route = Route(suffix: string, port: nat)

  // ----- The writer --------------------------------------------------------------------------------

  function Address(port: nat): string {
    "localhost:" + Decimal(port)
  }

  function ProxyValue(port: nat): string {
    "SOCKS5 " + Address(port) + "; SOCKS " + Address(port) + "; DIRECT"
  }

  function Clause(r: Route): string {
    "    if (shExpMatch(host, \"*." + r.suffix + "\")) {\n"
    + "        return \"" + ProxyValue(r.port) + "\";\n"
    + "    }\n"
  }

  function Clauses(rs: seq<Route>): string {
    if rs == [] then "" else Clauses(rs[..|rs| - 1]) + Clause(rs[|rs| - 1])
  }

  /** Tailnets without a suffix are skipped. */
  function Configured(rs: seq<Route>): seq<Route> {
    if rs == [] then []
    else Configured(rs[..|rs| - 1]) + if rs[|rs| - 1].suffix == "" then [] else [rs[|rs| - 1]]
  }

  const HEADER := "function FindProxyForURL(url, host) {\n"
  const FOOTER := "    return \"DIRECT\";\n}\n"

  function Written(rs: seq<Route>): string {
    HEADER + Clauses(Configured(rs)) + FOOTER
  }

  // ----- A parser for the language -----------------------------------------------------------------

  predicate IsSpace(c: char) {
    c == ' ' || c == '\n' || c == '\t' || c == '\r'
  }

  function SkipSpace(s: string): (r: string)
    ensures |r| <= |s|
  {
    if s != "" && IsSpace(s[0]) then SkipSpace(s[1..]) else s
  }

  /** Expects one token after optional white space. */
  function Eat(s: string, token: string): (r: Option<string>)
    ensures r.Some? ==> |r.value| + |token| <= |s|
  {
    var t := SkipSpace(s);
    if token <= t then Some(t[|token|..]) else None
  }

  function EatAll(s: string, tokens: seq<string>): (r: Option<string>)
    ensures r.Some? ==> |r.value| <= |s|
    decreases |tokens|
  {
    if tokens == [] then Some(s)
    else match Eat(s, tokens[0])
      case None => None
      case Some(t) => EatAll(t, tokens[1..])
  }

  /** What cannot stand in a double-quoted string literal by itself (section 11.8.4 of ECMAScript 2019). */
  predicate StopsLiteral(c: char) {
    c == '"' || c == '\\' || c == '\n' || c == '\r'
  }

  /** Length of the text up to a closing quote, an escape or the end of the line. */
  function LiteralLength(s: string): (n: nat)
    ensures n <= |s|
  {
    if s == "" || StopsLiteral(s[0]) then 0 else 1 + LiteralLength(s[1..])
  }

  /** A string literal without escapes: its text, and what follows it. */
  function Literal(s: string): (r: Option<(string, string)>)
    ensures r.Some? ==> |r.value.1| + 2 <= |s|
  {
    match Eat(s, "\"")
    case None => None
    case Some(t) =>
      var n := LiteralLength(t);
      if n < |t| && t[n] == '"' then Some((t[..n], t[n + 1..])) else None
  }

  datatype Stmt = If(pattern: string, value: string) | Return(value: string)

  const HEADTOKENS: seq<string> := ["function", "FindProxyForURL", "(", "url", ",", "host", ")", "{"]
  const IFTOKENS: seq<string> := ["if", "(", "shExpMatch", "(", "host", ","]
  const THENTOKENS: seq<string> := [")", ")", "{", "return"]
  const ENDIFTOKENS: seq<string> := [";", "}"]

  /** `if (shExpMatch(host, "...")) { return "..."; }` */
  function ParseIf(s: string): (r: Option<(Stmt, string)>)
    ensures r.Some? ==> |r.value.1| < |s|
  {
    match EatAll(s, IFTOKENS)
    case None => None
    case Some(s1) =>
      match Literal(s1)
      case None => None
      case Some((pattern, s2)) =>
        match EatAll(s2, THENTOKENS)
        case None => None
        case Some(s3) =>
          match Literal(s3)
          case None => None
          case Some((value, s4)) =>
            match EatAll(s4, ENDIFTOKENS)
            case None => None
            case Some(s5) => Some((If(pattern, value), s5))
  }

  /** `return "...";` */
  function ParseReturn(s: string): (r: Option<(Stmt, string)>)
    ensures r.Some? ==> |r.value.1| < |s|
  {
    match Eat(s, "return")
    case None => None
    case Some(s1) =>
      match Literal(s1)
      case None => None
      case Some((value, s2)) =>
        match Eat(s2, ";")
        case None => None
        case Some(s3) => Some((Return(value), s3))
  }

  function ParseStmt(s: string): (r: Option<(Stmt, string)>)
    ensures r.Some? ==> |r.value.1| < |s|
  {
    if Eat(s, "if").Some? then ParseIf(s) else ParseReturn(s)
  }

  /** Statements up to the closing brace, after which only white space may follow. */
  function ParseBody(s: string): Option<seq<Stmt>>
    decreases |s|
  {
    match Eat(s, "}")
    case Some(rest) => if SkipSpace(rest) == "" then Some([]) else None
    case None =>
      match ParseStmt(s)
      case None => None
      case Some((stmt, rest)) =>
        match ParseBody(rest)
        case None => None
        case Some(stmts) => Some([stmt] + stmts)
  }

  function ParseProgram(s: string): Option<seq<Stmt>> {
    match EatAll(s, HEADTOKENS)
    case None => None
    case Some(body) => ParseBody(body)
  }

  // ----- Its meaning -------------------------------------------------------------------------------

  /** The value that FindProxyForURL returns for a host; None when it returns nothing. */
  function Evaluate(p: seq<Stmt>, host: string): Option<string> {
    if p == [] then None
    else match p[0]
      case Return(v) => Some(v)
      case If(pattern, v) => if Matches(pattern, host) then Some(v) else Evaluate(p[1..], host)
  }

  /** One entry of the returned proxy list. */
  datatype Directive = Socks5(port: nat) | Socks(port: nat) | Direct

  function DigitsLength(s: string): (n: nat)
    ensures n <= |s|
  {
    if s == "" || !IsDigit(s[0]) then 0 else 1 + DigitsLength(s[1..])
  }

  function ParseAddress(s: string): (r: Option<(nat, string)>)
    ensures r.Some? ==> |r.value.1| <= |s|
  {
    match Eat(s, "localhost:")
    case None => None
    case Some(t) =>
      match ParseDecimal(t[..DigitsLength(t)])
      case None => None
      case Some(port) => Some((port, t[DigitsLength(t)..]))
  }

  function ParseDirective(s: string): (r: Option<(Directive, string)>)
    ensures r.Some? ==> |r.value.1| < |s|
  {
    if Eat(s, "DIRECT").Some? then Some((Direct, Eat(s, "DIRECT").value))
    else if Eat(s, "SOCKS5").Some? then
      match ParseAddress(Eat(s, "SOCKS5").value)
      case None => None
      case Some((port, rest)) => Some((Socks5(port), rest))
    else if Eat(s, "SOCKS").Some? then
      match ParseAddress(Eat(s, "SOCKS").value)
      case None => None
      case Some((port, rest)) => Some((Socks(port), rest))
    else None
  }

  /** The proxy list a browser reads from the returned value. */
  function ParseProxies(s: string): Option<seq<Directive>>
    decreases |s|
  {
    match ParseDirective(s)
    case None => None
    case Some((d, rest)) =>
      if SkipSpace(rest) == "" then Some([d])
      else match Eat(rest, ";")
        case None => None
        case Some(more) =>
          match ParseProxies(more)
          case None => None
          case Some(ds) => Some([d] + ds)
  }

  /** What a browser does with a PAC text and a host: parse, evaluate, read the list. */
  function Browse(text: string, host: string): Option<seq<Directive>> {
    match ParseProgram(text)
    case None => None
    case Some(p) =>
      match Evaluate(p, host)
      case None => None
      case Some(v) => ParseProxies(v)
  }
}
