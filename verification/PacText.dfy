/** The written text parses back to exactly the rules that were written. */
module PacText {
  import opened Wrappers
  import opened Text
  import opened Glob
  import opened Pac

  // ----- Tokens ------------------------------------------------------------------------------------

  predicate Blank(s: string) {
    forall i :: 0 <= i < |s| ==> IsSpace(s[i])
  }

  lemma {:induction false} SkipSpaceSkips(gap: string, t: string)
    requires Blank(gap) && (t == "" || !IsSpace(t[0]))
    ensures SkipSpace(gap + t) == t
  {
    if gap == "" {
      assert gap + t == t;
    } else {
      assert (gap + t)[1..] == gap[1..] + t;
      SkipSpaceSkips(gap[1..], t);
    }
  }

  lemma EatSpaced(gap: string, token: string, rest: string)
    requires Blank(gap) && token != "" && !IsSpace(token[0])
    ensures Eat(gap + token + rest, token) == Some(rest)
  {
    var t := token + rest;
    assert gap + token + rest == gap + t;
    SkipSpaceSkips(gap, t);
  }

  /** A text that starts with another token is not eaten. */
  lemma EatOther(gap: string, t: string, token: string)
    requires Blank(gap) && t != "" && !IsSpace(t[0]) && token != "" && token[0] != t[0]
    ensures Eat(gap + t, token) == None
  {
    SkipSpaceSkips(gap, t);
  }

  /** Tokens with the white space in front of each. */
  function Spell(gaps: seq<string>, tokens: seq<string>): string
    requires |gaps| == |tokens|
  {
    if tokens == [] then "" else gaps[0] + tokens[0] + Spell(gaps[1..], tokens[1..])
  }

  lemma {:induction false} EatAllSpelled(gaps: seq<string>, tokens: seq<string>, rest: string)
    requires |gaps| == |tokens|
    requires forall i :: 0 <= i < |tokens| ==> Blank(gaps[i]) && tokens[i] != "" && !IsSpace(tokens[i][0])
    ensures EatAll(Spell(gaps, tokens) + rest, tokens) == Some(rest)
  {
    if tokens == [] {
      assert Spell(gaps, tokens) + rest == rest;
    } else {
      var more := Spell(gaps[1..], tokens[1..]) + rest;
      assert Spell(gaps, tokens) + rest == gaps[0] + tokens[0] + more;
      EatSpaced(gaps[0], tokens[0], more);
      EatAllSpelled(gaps[1..], tokens[1..], rest);
    }
  }

  // ----- Literals ----------------------------------------------------------------------------------

  predicate Quotable(s: string) {
    '"' !in s && '\\' !in s && '\n' !in s && '\r' !in s
  }

  lemma {:induction false} LiteralLengthIs(t: string, rest: string)
    requires Quotable(t)
    ensures LiteralLength(t + "\"" + rest) == |t|
  {
    var s := t + "\"" + rest;
    if t != "" {
      assert t[0] in t && s[0] == t[0];
      assert forall c :: c in t[1..] ==> c in t;
      assert s[1..] == t[1..] + "\"" + rest;
      LiteralLengthIs(t[1..], rest);
    }
  }

  lemma LiteralRead(gap: string, t: string, rest: string)
    requires Blank(gap) && Quotable(t)
    ensures Literal(gap + "\"" + t + "\"" + rest) == Some((t, rest))
  {
    var more := t + "\"" + rest;
    assert gap + "\"" + t + "\"" + rest == gap + "\"" + more;
    EatSpaced(gap, "\"", more);
    LiteralLengthIs(t, rest);
    assert more[..|t|] == t && more[|t| + 1..] == rest;
  }

  // ----- The pieces of the text --------------------------------------------------------------------

  lemma SpellTwo(g: seq<string>, t: seq<string>)
    requires |g| == |t| == 2
    ensures Spell(g, t) == g[0] + t[0] + (g[1] + t[1])
  {
    assert Spell(g[1..][1..], t[1..][1..]) == "";
    assert Spell(g[1..], t[1..]) == g[1] + t[1];
  }

  lemma SpellFour(g: seq<string>, t: seq<string>)
    requires |g| == |t| == 4
    ensures Spell(g, t) == g[0] + t[0] + (g[1] + t[1] + (g[2] + t[2] + (g[3] + t[3])))
  {
    SpellTwo(g[1..][1..], t[1..][1..]);
    assert Spell(g[1..], t[1..]) == g[1] + t[1] + Spell(g[1..][1..], t[1..][1..]);
  }

  lemma SpellSix(g: seq<string>, t: seq<string>)
    requires |g| == |t| == 6
    ensures Spell(g, t) ==
            g[0] + t[0] + (g[1] + t[1] + (g[2] + t[2] + (g[3] + t[3] + (g[4] + t[4] + (g[5] + t[5])))))
  {
    SpellFour(g[1..][1..], t[1..][1..]);
    assert Spell(g[1..], t[1..]) == g[1] + t[1] + Spell(g[1..][1..], t[1..][1..]);
  }

  lemma SpellEight(g: seq<string>, t: seq<string>)
    requires |g| == |t| == 8
    ensures Spell(g, t) ==
            g[0] + t[0] + (g[1] + t[1] + (g[2] + t[2] + (g[3] + t[3] + (g[4] + t[4] + (g[5] + t[5]
            + (g[6] + t[6] + (g[7] + t[7])))))))
  {
    SpellSix(g[1..][1..], t[1..][1..]);
    assert Spell(g[1..], t[1..]) == g[1] + t[1] + Spell(g[1..][1..], t[1..][1..]);
  }

  lemma HeaderPieces()
    ensures HEADER ==
            "" + "function" + (" " + "FindProxyForURL" + ("" + "(" + ("" + "url" + ("" + "," + (" " + "host"
            + ("" + ")" + (" " + "{"))))))) + "\n"
  {
  }

  lemma HeaderRead(rest: string)
    ensures EatAll(HEADER + rest, HEADTOKENS) == Some("\n" + rest)
  {
    var gaps := ["", " ", "", "", "", " ", "", " "];
    SpellEight(gaps, HEADTOKENS);
    HeaderPieces();
    var head := Spell(gaps, HEADTOKENS);
    assert head + "\n" + rest == head + ("\n" + rest);
    EatAllSpelled(gaps, HEADTOKENS, "\n" + rest);
  }

  lemma IfPieces()
    ensures "    if (shExpMatch(host," == "    " + "if (shExpMatch(host,"
    ensures "if (shExpMatch(host," ==
            "if" + (" " + "(" + ("" + "shExpMatch" + ("" + "(" + ("" + "host" + ("" + ",")))))
  {
  }

  lemma IfSpelled(gap: string)
    ensures gap + "    if (shExpMatch(host," == Spell([gap + "    ", " ", "", "", "", ""], IFTOKENS)
    ensures gap + "    if (shExpMatch(host," == (gap + "    ") + "if (shExpMatch(host,"
  {
    SpellSix([gap + "    ", " ", "", "", "", ""], IFTOKENS);
    IfPieces();
    var more := (" " + "(" + ("" + "shExpMatch" + ("" + "(" + ("" + "host" + ("" + ",")))));
    assert gap + "    " + "if" + more == gap + ("    " + ("if" + more));
  }

  lemma IfRead(gap: string, rest: string)
    requires Blank(gap)
    ensures EatAll(gap + "    if (shExpMatch(host," + rest, IFTOKENS) == Some(rest)
  {
    IfSpelled(gap);
    EatAllSpelled([gap + "    ", " ", "", "", "", ""], IFTOKENS, rest);
  }

  lemma IfIsNotBrace(gap: string, rest: string)
    requires Blank(gap)
    ensures Eat(gap + "    if (shExpMatch(host," + rest, "}") == None
  {
    IfSpelled(gap);
    var more := "if (shExpMatch(host," + rest;
    Joined(gap + "    ", "if (shExpMatch(host,", rest);
    EatOther(gap + "    ", more, "}");
  }

  lemma Joined(a: string, b: string, c: string)
    ensures a + b + c == a + (b + c)
  {
  }

  lemma ThenRead(rest: string)
    ensures EatAll(")) {\n        return" + rest, THENTOKENS) == Some(rest)
  {
    var gaps := ["", "", " ", "\n        "];
    SpellFour(gaps, THENTOKENS);
    assert ")) {\n        return" == Spell(gaps, THENTOKENS);
    EatAllSpelled(gaps, THENTOKENS, rest);
  }

  lemma EndIfRead(rest: string)
    ensures EatAll(";\n    }" + rest, ENDIFTOKENS) == Some(rest)
  {
    var gaps := ["", "\n    "];
    SpellTwo(gaps, ENDIFTOKENS);
    assert ";\n    }" == Spell(gaps, ENDIFTOKENS);
    EatAllSpelled(gaps, ENDIFTOKENS, rest);
  }

  // ----- Proxy lists -------------------------------------------------------------------------------

  predicate Digits(s: string) {
    forall i :: 0 <= i < |s| ==> IsDigit(s[i])
  }

  lemma {:induction false} DigitsLengthIs(ds: string, rest: string)
    requires Digits(ds) && (rest == "" || !IsDigit(rest[0]))
    ensures DigitsLength(ds + rest) == |ds|
  {
    if ds == "" {
      assert ds + rest == rest;
    } else {
      assert (ds + rest)[1..] == ds[1..] + rest;
      DigitsLengthIs(ds[1..], rest);
    }
  }

  lemma AddressRead(port: nat, rest: string)
    requires rest == "" || !IsDigit(rest[0])
    ensures ParseAddress(" " + Address(port) + rest) == Some((port, rest))
  {
    var ds := Decimal(port);
    DecimalRoundTrip(port);
    assert " " + Address(port) + rest == " " + "localhost:" + (ds + rest);
    EatSpaced(" ", "localhost:", ds + rest);
    DigitsLengthIs(ds, rest);
    assert (ds + rest)[..|ds|] == ds && (ds + rest)[|ds|..] == rest;
  }

  lemma DirectRead(gap: string)
    requires Blank(gap)
    ensures ParseProxies(gap + "DIRECT") == Some([Direct])
  {
    assert gap + "DIRECT" + "" == gap + "DIRECT";
    EatSpaced(gap, "DIRECT", "");
  }

  lemma SocksRead(port: nat, gap: string)
    requires Blank(gap)
    ensures var rest := "; DIRECT";
            ParseDirective(gap + "SOCKS" + (" " + Address(port) + rest)) == Some((Socks(port), rest))
  {
    var rest := "; DIRECT";
    var t := "SOCKS" + (" " + Address(port) + rest);
    EatSpaced(gap, "SOCKS", " " + Address(port) + rest);
    assert gap + "SOCKS" + (" " + Address(port) + rest) == gap + t;
    SkipSpaceSkips(gap, t);
    assert t[5] == ' ';
    assert "SOCKS5"[5] == '5';
    AddressRead(port, rest);
  }

  lemma Socks5Read(port: nat, rest: string)
    requires rest != "" && rest[0] == ';'
    ensures ParseDirective("SOCKS5" + (" " + Address(port) + rest)) == Some((Socks5(port), rest))
  {
    var t := "SOCKS5" + (" " + Address(port) + rest);
    assert "" + "SOCKS5" + (" " + Address(port) + rest) == t && "" + t == t;
    EatSpaced("", "SOCKS5", " " + Address(port) + rest);
    EatOther("", t, "DIRECT");
    AddressRead(port, rest);
  }

  lemma LaterProxiesRead(port: nat)
    ensures ParseProxies(" " + "SOCKS" + (" " + Address(port) + "; DIRECT")) == Some([Socks(port), Direct])
  {
    var last := "; DIRECT";
    SocksRead(port, " ");
    assert last == "" + ";" + " DIRECT" && " DIRECT" == " " + "DIRECT";
    EatSpaced("", ";", " DIRECT");
    DirectRead(" ");
    assert SkipSpace(last) == last;
    assert [Socks(port)] + [Direct] == [Socks(port), Direct];
  }

  lemma ProxyValuePieces(port: nat)
    ensures ProxyValue(port) ==
            "SOCKS5" + (" " + Address(port) + ("" + ";" + (" " + "SOCKS" + (" " + Address(port) + "; DIRECT"))))
  {
    var a := Address(port);
    assert "SOCKS5 " == "SOCKS5" + " " && "; SOCKS " == ";" + (" " + "SOCKS" + " ");
  }

  /** The returned value names the tailnet's proxy twice, as SOCKS5 and as SOCKS, and falls back to a direct
      connection; the decimal port reads back as the port. */
  lemma ProxyValueRead(port: nat)
    ensures ParseProxies(ProxyValue(port)) == Some([Socks5(port), Socks(port), Direct])
  {
    var tail := " " + "SOCKS" + (" " + Address(port) + "; DIRECT");
    var rest := "" + ";" + tail;
    ProxyValuePieces(port);
    Socks5Read(port, rest);
    EatSpaced("", ";", tail);
    LaterProxiesRead(port);
    assert SkipSpace(rest) == rest;
    assert [Socks5(port)] + [Socks(port), Direct] == [Socks5(port), Socks(port), Direct];
  }

  lemma {:induction false} DecimalQuotable(n: nat)
    ensures Quotable(Decimal(n))
  {
    if n >= 10 {
      DecimalQuotable(n / 10);
    }
  }

  lemma ProxyValueQuotable(port: nat)
    ensures Quotable(ProxyValue(port))
  {
    DecimalQuotable(port);
    assert Quotable(Address(port));
  }

  // ----- Clauses -----------------------------------------------------------------------------------

  function Compiled(rs: seq<Route>): seq<Stmt> {
    if rs == [] then [Return("DIRECT")]
    else [If("*." + rs[0].suffix, ProxyValue(rs[0].port))] + Compiled(rs[1..])
  }

  const OPEN := "    if (shExpMatch(host,"
  const THEN := ")) {\n        return"
  const ENDIF := ";\n    }"

  lemma ClauseConstants()
    ensures "    if (shExpMatch(host, \"*." == OPEN + (" " + "\"" + "*.")
    ensures "\")) {\n" + "        return \"" == "\"" + THEN + (" " + "\"")
    ensures "\";\n" + "    }\n" == "\"" + ENDIF + "\n"
  {
  }

  /** Concatenation is associative; seven pieces regrouped as the parser meets them. */
  lemma Regroup(gap: string, a: string, q: string, s: string, b: string, p: string, v: string, c: string, rest: string)
    ensures gap + (a + (p + q + "*.") + s + (q + b + (p + q)) + v + (q + c + "\n")) + rest ==
            gap + a + (p + q + ("*." + s) + q + (b + (p + q + v + q + (c + ("\n" + rest)))))
  {
    var x := p + q + v + q + (c + ("\n" + rest));
    assert (p + q) + v + (q + c + "\n") + rest == x;
    assert (p + q + "*.") + s + (q + b + ((p + q) + v + (q + c + "\n") + rest)) == p + q + ("*." + s) + q + (b + x);
  }

  lemma ClausePieces(gap: string, r: Route, rest: string)
    ensures gap + Clause(r) + rest ==
            gap + OPEN + (" " + "\"" + ("*." + r.suffix) + "\"" + (THEN
            + (" " + "\"" + ProxyValue(r.port) + "\"" + (ENDIF + ("\n" + rest)))))
  {
    var v := ProxyValue(r.port);
    ClauseConstants();
    ClauseGrouped(r.suffix, v, "    if (shExpMatch(host, \"*.", "\")) {\n", "        return \"", "\";\n", "    }\n");
    Regroup(gap, OPEN, "\"", r.suffix, THEN, " ", v, ENDIF, rest);
  }

  lemma ClauseGrouped(s: string, v: string, a: string, b: string, c: string, d: string, e: string)
    ensures (a + s + b) + (c + v + d) + e == a + s + (b + c) + v + (d + e)
  {
  }

  /** The five stages of reading an if statement. */
  lemma IfStages(s: string, s1: string, pattern: string, s2: string, s3: string, value: string, s4: string, s5: string)
    requires EatAll(s, IFTOKENS) == Some(s1) && Literal(s1) == Some((pattern, s2))
    requires EatAll(s2, THENTOKENS) == Some(s3) && Literal(s3) == Some((value, s4))
    requires EatAll(s4, ENDIFTOKENS) == Some(s5)
    ensures ParseStmt(s) == Some((If(pattern, value), s5))
  {
    assert IFTOKENS[0] == "if";
  }

  lemma ClauseRead(gap: string, r: Route, rest: string)
    requires Blank(gap) && Quotable(r.suffix)
    ensures ParseStmt(gap + Clause(r) + rest) ==
            Some((If("*." + r.suffix, ProxyValue(r.port)), "\n" + rest))
    ensures Eat(gap + Clause(r) + rest, "}") == None
  {
    ClausePieces(gap, r, rest);
    ProxyValueQuotable(r.port);
    PiecesRead(gap, "*." + r.suffix, ProxyValue(r.port), "\n" + rest);
  }

  lemma PiecesRead(gap: string, pattern: string, value: string, s5: string)
    requires Blank(gap) && Quotable(pattern) && Quotable(value)
    ensures var s3 := " " + "\"" + value + "\"" + (ENDIF + s5);
            var s1 := " " + "\"" + pattern + "\"" + (THEN + s3);
            && ParseStmt(gap + OPEN + s1) == Some((If(pattern, value), s5))
            && Eat(gap + OPEN + s1, "}") == None
  {
    var s3 := " " + "\"" + value + "\"" + (ENDIF + s5);
    var s1 := " " + "\"" + pattern + "\"" + (THEN + s3);
    IfRead(gap, s1);
    IfIsNotBrace(gap, s1);
    LiteralRead(" ", pattern, THEN + s3);
    ThenRead(s3);
    LiteralRead(" ", value, ENDIF + s5);
    EndIfRead(s5);
    IfStages(gap + OPEN + s1, s1, pattern, THEN + s3, s3, value, ENDIF + s5, s5);
  }

  /** An unquotable text is cut short or not read at all. */
  lemma {:induction false} LiteralLengthStops(t: string, rest: string)
    requires !Quotable(t)
    ensures LiteralLength(t + "\"" + rest) < |t|
  {
    var s := t + "\"" + rest;
    assert t != "";
    assert s[0] == t[0] && s[1..] == t[1..] + "\"" + rest;
    assert t == [t[0]] + t[1..];
    if !StopsLiteral(t[0]) {
      LiteralLengthStops(t[1..], rest);
    }
  }

  lemma LiteralMisread(gap: string, t: string, rest: string)
    requires Blank(gap) && !Quotable(t)
    ensures var r := Literal(gap + "\"" + t + "\"" + rest); r.Some? ==> r.value.0 != t
  {
    var more := t + "\"" + rest;
    assert gap + "\"" + t + "\"" + rest == gap + "\"" + more;
    EatSpaced(gap, "\"", more);
    LiteralLengthStops(t, rest);
  }

  lemma ClauseMisread(gap: string, r: Route, rest: string)
    requires Blank(gap) && !Quotable(r.suffix)
    ensures var p := ParseStmt(gap + Clause(r) + rest); p.Some? ==> p.value.0 != If("*." + r.suffix, ProxyValue(r.port))
    ensures Eat(gap + Clause(r) + rest, "}") == None
  {
    var more := THEN + (" " + "\"" + ProxyValue(r.port) + "\"" + (ENDIF + ("\n" + rest)));
    ClausePieces(gap, r, rest);
    IfRead(gap, " " + "\"" + ("*." + r.suffix) + "\"" + more);
    IfIsNotBrace(gap, " " + "\"" + ("*." + r.suffix) + "\"" + more);
    assert forall c :: c in r.suffix ==> c in "*." + r.suffix;
    LiteralMisread(" ", "*." + r.suffix, more);
  }

  // ----- The whole text ----------------------------------------------------------------------------

  lemma Associative(a: string, b: string, c: string)
    ensures a + b + c == a + (b + c) && "" + b == b == b + ""
  {
  }

  lemma {:induction false} ClausesFromFront(rs: seq<Route>)
    requires rs != []
    ensures Clauses(rs) == Clause(rs[0]) + Clauses(rs[1..])
  {
    var n := |rs| - 1;
    var first, last := Clause(rs[0]), Clause(rs[n]);
    if n == 0 {
      assert rs[..0] == [] && rs[1..] == [];
      Associative("", first, "");
    } else {
      ClausesFromFront(rs[..n]);
      assert rs[..n][1..] == rs[1..][..n - 1] && rs[1..][n - 1] == rs[n];
      var middle := Clauses(rs[..n][1..]);
      Associative(first, middle, last);
    }
  }

  /** A body that starts with a statement. */
  lemma BodyStep(s: string, stmt: Stmt, rest: string, tail: seq<Stmt>)
    requires Eat(s, "}") == None && ParseStmt(s) == Some((stmt, rest))
    ensures ParseBody(s) == Some([stmt] + tail) <==> ParseBody(rest) == Some(tail)
  {
    var more := ParseBody(rest);
    if more.Some? {
      assert ([stmt] + more.value)[1..] == more.value;
      assert ([stmt] + tail)[1..] == tail;
    }
  }

  lemma FooterPieces(gap: string)
    ensures var tail := " " + "\"" + "DIRECT" + "\"" + ("" + ";" + "\n}\n");
            gap + FOOTER == (gap + "    ") + "return" + tail && gap + FOOTER == (gap + "    ") + ("return" + tail)
  {
    var tail := " " + "\"" + "DIRECT" + "\"" + ("" + ";" + "\n}\n");
    assert FOOTER == "    " + ("return" + tail);
    assert gap + ("    " + ("return" + tail)) == (gap + "    ") + ("return" + tail);
  }

  lemma ClosingRead()
    ensures ParseBody("\n}\n") == Some([])
  {
    assert "\n}\n" == "\n" + "}" + "\n" && "\n" + "" == "\n";
    EatSpaced("\n", "}", "\n");
    SkipSpaceSkips("\n", "");
  }

  lemma FooterRead(gap: string)
    requires Blank(gap)
    ensures ParseBody(gap + FOOTER) == Some([Return("DIRECT")])
  {
    var last := "\n}\n";
    var tail := " " + "\"" + "DIRECT" + "\"" + ("" + ";" + last);
    FooterPieces(gap);
    EatOther(gap + "    ", "return" + tail, "}");
    EatOther(gap + "    ", "return" + tail, "if");
    EatSpaced(gap + "    ", "return", tail);
    LiteralRead(" ", "DIRECT", "" + ";" + last);
    EatSpaced("", ";", last);
    ClosingRead();
    BodyStep(gap + FOOTER, Return("DIRECT"), last, []);
    assert [Return("DIRECT")] + [] == [Return("DIRECT")];
  }

  ghost predicate AllQuotable(rs: seq<Route>) {
    forall i :: 0 <= i < |rs| ==> Quotable(rs[i].suffix)
  }

  lemma {:induction false} BodyRead(gap: string, rs: seq<Route>)
    requires Blank(gap)
    ensures ParseBody(gap + Clauses(rs) + FOOTER) == Some(Compiled(rs)) <==> AllQuotable(rs)
    decreases |rs|
  {
    if rs == [] {
      assert gap + Clauses(rs) + FOOTER == gap + FOOTER;
      FooterRead(gap);
    } else {
      BodyRead("\n", rs[1..]);
      ClausesFromFront(rs);
      ClauseThenBody(gap, rs, FOOTER);
    }
  }

  /** One clause in front of a body that reads back if and only if it may. */
  lemma ClauseThenBody(gap: string, rs: seq<Route>, foot: string)
    requires Blank(gap) && rs != [] && Clauses(rs) == Clause(rs[0]) + Clauses(rs[1..])
    requires ParseBody("\n" + Clauses(rs[1..]) + foot) == Some(Compiled(rs[1..])) <==> AllQuotable(rs[1..])
    ensures ParseBody(gap + Clauses(rs) + foot) == Some(Compiled(rs)) <==> AllQuotable(rs)
  {
    var rest := Clauses(rs[1..]) + foot;
    var stmt := If("*." + rs[0].suffix, ProxyValue(rs[0].port));
    FrontRegrouped(gap, Clause(rs[0]), Clauses(rs[1..]), foot);
    QuotableFront(rs);
    if Quotable(rs[0].suffix) {
      ClauseRead(gap, rs[0], rest);
      BodyStep(gap + Clauses(rs) + foot, stmt, "\n" + rest, Compiled(rs[1..]));
    } else {
      ClauseMisread(gap, rs[0], rest);
      BodyMismatch(gap + Clauses(rs) + foot, stmt, Compiled(rs[1..]));
    }
  }

  lemma FrontRegrouped(gap: string, clause: string, more: string, foot: string)
    ensures gap + (clause + more) + foot == gap + clause + (more + foot)
    ensures "\n" + (more + foot) == "\n" + more + foot
  {
  }

  lemma QuotableFront(rs: seq<Route>)
    requires rs != []
    ensures AllQuotable(rs) <==> Quotable(rs[0].suffix) && AllQuotable(rs[1..])
  {
    assert forall i :: 0 < i < |rs| ==> rs[i] == rs[1..][i - 1];
  }

  lemma BodyMismatch(s: string, stmt: Stmt, tail: seq<Stmt>)
    requires Eat(s, "}") == None && (ParseStmt(s).Some? ==> ParseStmt(s).value.0 != stmt)
    ensures ParseBody(s) != Some([stmt] + tail)
  {
    var p := ParseStmt(s);
    if p.Some? && ParseBody(p.value.1).Some? {
      assert ParseBody(s).value[0] == p.value.0;
    }
  }

  /** The text parses back to exactly the rules it was written from, in order, if and only if no suffix contains a
      quote, a backslash, a line feed or a carriage return. */
  lemma RoundTripExactly(rs: seq<Route>)
    ensures ParseProgram(Written(rs)) == Some(Compiled(Configured(rs))) <==> AllQuotable(Configured(rs))
  {
    var cs := Configured(rs);
    HeaderRead(Clauses(cs) + FOOTER);
    Associative(HEADER, Clauses(cs), FOOTER);
    Associative("\n", Clauses(cs), FOOTER);
    BodyRead("\n", cs);
  }

  /** The rule that a statement is, read back from its pattern and its proxy list. */
  function RuleOf(pattern: string, value: string): seq<Route> {
    var ds := ParseProxies(value);
    if "*." <= pattern && ds.Some? && ds.value[0].Socks5? then [Route(pattern[2..], ds.value[0].port)] else []
  }

  /** The rules a program consists of, up to the first return. */
  function Rules(p: seq<Stmt>): seq<Route> {
    if p == [] then []
    else match p[0]
      case Return(_) => []
      case If(pattern, value) => RuleOf(pattern, value) + Rules(p[1..])
  }

  lemma RuleOfClause(r: Route)
    ensures RuleOf("*." + r.suffix, ProxyValue(r.port)) == [r]
  {
    ProxyValueRead(r.port);
    assert ("*." + r.suffix)[2..] == r.suffix;
  }

  lemma {:induction false} RulesOfCompiled(rs: seq<Route>)
    ensures Rules(Compiled(rs)) == rs
  {
    if rs != [] {
      var p := Compiled(rs);
      assert p[1..] == Compiled(rs[1..]);
      RuleOfClause(rs[0]);
      RulesOfCompiled(rs[1..]);
      assert rs == [rs[0]] + rs[1..];
    }
  }

  /** Suffixes and ports are recovered from the text alone. */
  lemma RoutesRecovered(rs: seq<Route>)
    requires AllQuotable(Configured(rs))
    ensures ParseProgram(Written(rs)).Some? && Rules(ParseProgram(Written(rs)).value) == Configured(rs)
  {
    RoundTripExactly(rs);
    RulesOfCompiled(Configured(rs));
  }

  // ----- What it routes where ----------------------------------------------------------------------

  /** The first rule whose pattern matches decides; no rule means a direct connection. */
  function Choice(rs: seq<Route>, host: string): seq<Directive> {
    if rs == [] then [Direct]
    else if Matches("*." + rs[0].suffix, host) then [Socks5(rs[0].port), Socks(rs[0].port), Direct]
    else Choice(rs[1..], host)
  }

  lemma {:induction false} EvaluateCompiled(rs: seq<Route>, host: string)
    ensures Evaluate(Compiled(rs), host).Some?
    ensures ParseProxies(Evaluate(Compiled(rs), host).value) == Some(Choice(rs, host))
  {
    if rs == [] {
      assert "" + "DIRECT" == "DIRECT";
      DirectRead("");
    } else {
      assert Compiled(rs)[1..] == Compiled(rs[1..]);
      ProxyValueRead(rs[0].port);
      EvaluateCompiled(rs[1..], host);
    }
  }

  /** Parsing, evaluating and reading the result of the written text gives the first matching rule's proxies. */
  lemma BrowseWritten(rs: seq<Route>, host: string)
    requires AllQuotable(Configured(rs))
    ensures Browse(Written(rs), host) == Some(Choice(Configured(rs), host))
  {
    RoundTripExactly(rs);
    EvaluateCompiled(Configured(rs), host);
  }
}
