/** The log splitter of internal/ts/tailnet.go: key=value tokens become attributes, the other tokens the message. */
module LogFields {
  import opened Text

  /** A token taken as an attribute. */
  datatype Attr = Attr(key: string, value: string)

  /** Unicode white space, as the standard library of Go defines it. */
  predicate IsSpace(c: char) {
    || '\U{0009}' <= c <= '\U{000D}' || c == ' ' || c == '\U{0085}' || c == '\U{00A0}'
    || c == '\U{1680}' || '\U{2000}' <= c <= '\U{200A}'
    || c == '\U{2028}' || c == '\U{2029}' || c == '\U{202F}' || c == '\U{205F}' || c == '\U{3000}'
  }

  predicate IsKeyChar(c: char) {
    'a' <= c <= 'z' || 'A' <= c <= 'Z' || '0' <= c <= '9' || c == '_' || c == '-' || c == '.'
  }

  function WordLength(s: string): (n: nat)
    ensures n <= |s| && forall i :: 0 <= i < n ==> !IsSpace(s[i])
    ensures n < |s| ==> IsSpace(s[n])
  {
    if s == "" || IsSpace(s[0]) then 0 else 1 + WordLength(s[1..])
  }

  predicate Word(s: string) {
    forall i :: 0 <= i < |s| ==> !IsSpace(s[i])
  }

  /** The maximal runs of characters that are not white space. */
  function Fields(s: string): (ts: seq<string>)
    ensures forall i :: 0 <= i < |ts| ==> ts[i] != "" && Word(ts[i])
    decreases |s|
  {
    if s == "" then []
    else if IsSpace(s[0]) then Fields(s[1..])
    else
      var n := WordLength(s);
      [s[..n]] + Fields(s[n..])
  }

  /** strings.Join with one blank. */
  function Join(ts: seq<string>): string {
    if ts == [] then "" else if |ts| == 1 then ts[0] else ts[0] + " " + Join(ts[1..])
  }

  /** A token with an equals sign after at least one character, all of them key characters. */
  predicate IsAttr(token: string) {
    var eq := IndexOf(token, '=');
    0 < eq < |token| && forall i :: 0 <= i < eq ==> IsKeyChar(token[i])
  }

  function AttrOf(token: string): Attr
    requires IsAttr(token)
  {
    var eq := IndexOf(token, '=');
    Attr(token[..eq], token[eq + 1..])
  }

  function Attrs(ts: seq<string>): seq<Attr> {
    if ts == [] then []
    else
      var last := ts[|ts| - 1];
      Attrs(ts[..|ts| - 1]) + if IsAttr(last) then [AttrOf(last)] else []
  }

  function Clean(ts: seq<string>): seq<string> {
    if ts == [] then []
    else
      var last := ts[|ts| - 1];
      Clean(ts[..|ts| - 1]) + if IsAttr(last) then [] else [last]
  }

  // ----- The program -------------------------------------------------------------------------------

  /** The check of the characters in front of the equals sign. */
  method ValidKey(key: string) returns (valid: bool)
    ensures valid <==> forall i :: 0 <= i < |key| ==> IsKeyChar(key[i])
  {
    valid := true;
    var i := 0;
    while i < |key|
      invariant 0 <= i <= |key|
      invariant valid
      invariant forall j :: 0 <= j < i ==> IsKeyChar(key[j])
    {
      if !IsKeyChar(key[i]) {
        valid := false;
        break;
      }
      i := i + 1;
    }
  }

  method ParseLogKeyValues(msg: string) returns (attrs: seq<Attr>, cleaned: string)
    ensures attrs == Attrs(Fields(msg))
    ensures cleaned == Join(Clean(Fields(msg)))
    ensures Merges(Fields(msg), Rendered(attrs), Fields(cleaned))
  {
    var ts := Fields(msg);
    var cleanParts: seq<string> := [];
    attrs := [];
    for i := 0 to |ts|
      invariant attrs == Attrs(ts[..i]) && cleanParts == Clean(ts[..i])
    {
      var token := ts[i];
      assert ts[..i + 1][..i] == ts[..i];
      var eq := IndexOf(token, '=');
      var found := eq < |token|;
      var key := token[..eq];
      if !found || key == "" {
        cleanParts := cleanParts + [token];
        continue;
      }
      var valid := ValidKey(key);
      assert forall j :: 0 <= j < eq ==> key[j] == token[j];
      if !valid {
        cleanParts := cleanParts + [token];
        continue;
      }
      attrs := attrs + [Attr(key, token[eq + 1..])];
    }
    assert ts[..|ts|] == ts;
    cleaned := Join(cleanParts);
    SplitMergesBack(ts);
    CleanTokens(ts);
    FieldsOfJoin(cleanParts);
  }

  function TrimNewlines(s: string): (r: string)
    ensures r <= s && (r == "" || r[|r| - 1] != '\n')
    ensures forall i :: |r| <= i < |s| ==> s[i] == '\n'
  {
    if s != "" && s[|s| - 1] == '\n' then TrimNewlines(s[..|s| - 1]) else s
  }

  /** The record that the logger emits: a message made of attributes only is logged as it came. */
  method TsnetLog(text: string) returns (message: string, attrs: seq<Attr>)
    ensures attrs == Attrs(Fields(text))
    ensures Fields(message) == if Clean(Fields(text)) == [] then Fields(text) else Clean(Fields(text))
    ensures message == "" ==> forall i :: 0 <= i < |text| ==> text[i] == '\n'
    ensures Clean(Fields(text)) == [] ==> message <= text && (message == "" || message[|message| - 1] != '\n')
  {
    message := TrimNewlines(text);
    FieldsOfTrimmed(text);
    var cleaned;
    attrs, cleaned := ParseLogKeyValues(message);
    CleanTokens(Fields(message));
    FieldsOfJoin(Clean(Fields(message)));
    if cleaned != "" {
      message := cleaned;
    }
  }

  // ----- Splitting and joining ---------------------------------------------------------------------

  /** A non-empty list of tokens with something in them. */
  predicate Tokens(ts: seq<string>) {
    forall i :: 0 <= i < |ts| ==> ts[i] != "" && Word(ts[i])
  }

  /** A word in front of a blank is the first field. */
  lemma FieldsOfWord(w: string, rest: string)
    requires w != "" && Word(w) && (rest == "" || IsSpace(rest[0]))
    ensures Fields(w + rest) == [w] + Fields(rest)
  {
    var s := w + rest;
    var n := WordLength(s);
    assert forall i :: 0 <= i < |w| ==> s[i] == w[i];
    assert rest != "" ==> s[|w|] == rest[0];
    assert n == |w|;
    assert s[..n] == w && s[n..] == rest;
    assert !IsSpace(s[0]);
  }

  /** Joining words with blanks and splitting again gives the words back; and a join of words is empty only if
      there are none. */
  lemma {:induction false} FieldsOfJoin(ts: seq<string>)
    requires Tokens(ts)
    ensures Fields(Join(ts)) == ts
    ensures Join(ts) == "" <==> ts == []
  {
    if |ts| == 1 {
      FieldsOfWord(ts[0], "");
      assert ts[0] + "" == ts[0];
      assert ts == [ts[0]];
    } else if |ts| > 1 {
      var rest := ts[1..];
      assert Tokens(rest);
      FieldsOfJoin(rest);
      FieldsOfWord(ts[0], " " + Join(rest));
      assert Join(ts) == ts[0] + (" " + Join(rest));
      assert (" " + Join(rest))[1..] == Join(rest);
      assert ts == [ts[0]] + rest;
    }
  }

  lemma {:induction false} FieldsOfTrimmed(s: string)
    ensures Fields(TrimNewlines(s)) == Fields(s)
  {
    if s != "" && s[|s| - 1] == '\n' {
      FieldsOfTrimmed(s[..|s| - 1]);
      TrailingSpace(s[..|s| - 1], '\n');
      assert s == s[..|s| - 1] + ['\n'];
    }
  }

  lemma {:induction false} TrailingSpace(s: string, c: char)
    requires IsSpace(c)
    ensures Fields(s + [c]) == Fields(s)
    decreases |s|
  {
    if s == "" {
      assert (s + [c])[1..] == "";
    } else if IsSpace(s[0]) {
      TrailingSpace(s[1..], c);
      assert (s + [c])[1..] == s[1..] + [c];
    } else {
      var n := WordLength(s);
      var rest := s[n..];
      TrailingSpace(rest, c);
      FieldsOfWord(s[..n], rest + [c]);
      assert s + [c] == s[..n] + (rest + [c]);
    }
  }

  /** All characters of the fields, in order. */
  function Letters(ts: seq<string>): string {
    if ts == [] then "" else ts[0] + Letters(ts[1..])
  }

  function WithoutSpaces(s: string): string {
    if s == "" then "" else (if IsSpace(s[0]) then "" else [s[0]]) + WithoutSpaces(s[1..])
  }

  lemma {:induction false} WordsKeepTheirLetters(w: string, rest: string)
    requires Word(w)
    ensures WithoutSpaces(w + rest) == w + WithoutSpaces(rest)
  {
    if w == "" {
      assert w + rest == rest;
    } else {
      WordsKeepTheirLetters(w[1..], rest);
      assert (w + rest)[1..] == w[1..] + rest;
      assert w == [w[0]] + w[1..];
    }
  }

  /** Splitting loses nothing but white space. */
  lemma {:induction false} FieldsKeepEveryLetter(s: string)
    ensures Letters(Fields(s)) == WithoutSpaces(s)
    decreases |s|
  {
    if s != "" {
      if IsSpace(s[0]) {
        FieldsKeepEveryLetter(s[1..]);
      } else {
        var n := WordLength(s);
        FieldsKeepEveryLetter(s[n..]);
        WordsKeepTheirLetters(s[..n], s[n..]);
        assert s == s[..n] + s[n..];
        assert Fields(s)[1..] == Fields(s[n..]);
      }
    }
  }

  // ----- What the splitter promises ----------------------------------------------------------------

  function Rendered(attrs: seq<Attr>): seq<string> {
    if attrs == [] then []
    else Rendered(attrs[..|attrs| - 1]) + [attrs[|attrs| - 1].key + "=" + attrs[|attrs| - 1].value]
  }

  /** `ts` is an order-preserving merge of `xs` and `ys`. */
  predicate Merges(ts: seq<string>, xs: seq<string>, ys: seq<string>)
    decreases |ts|
  {
    if ts == [] then xs == [] && ys == []
    else
      var last, init := ts[|ts| - 1], ts[..|ts| - 1];
      || (xs != [] && xs[|xs| - 1] == last && Merges(init, xs[..|xs| - 1], ys))
      || (ys != [] && ys[|ys| - 1] == last && Merges(init, xs, ys[..|ys| - 1]))
  }

  lemma RenderedAttr(token: string)
    requires IsAttr(token)
    ensures AttrOf(token).key + "=" + AttrOf(token).value == token
  {
    var eq := IndexOf(token, '=');
    assert token == token[..eq] + [token[eq]] + token[eq + 1..];
  }

  lemma SplitLast(init: seq<string>, last: string)
    ensures var ts := init + [last];
            if IsAttr(last) then Rendered(Attrs(ts)) == Rendered(Attrs(init)) + [last] && Clean(ts) == Clean(init)
            else Rendered(Attrs(ts)) == Rendered(Attrs(init)) && Clean(ts) == Clean(init) + [last]
  {
    var ts := init + [last];
    assert ts[..|ts| - 1] == init;
    assert Attrs(init) + [] == Attrs(init) && Clean(init) + [] == Clean(init);
    if IsAttr(last) {
      RenderedAttr(last);
      var a := Attrs(init);
      assert (a + [AttrOf(last)])[..|a|] == a;
    }
  }

  lemma MergeLast(init: seq<string>, xs: seq<string>, ys: seq<string>, last: string)
    requires Merges(init, xs, ys)
    ensures Merges(init + [last], xs + [last], ys) && Merges(init + [last], xs, ys + [last])
  {
    assert (init + [last])[..|init|] == init && (xs + [last])[..|xs|] == xs && (ys + [last])[..|ys|] == ys;
  }

  /** The attributes printed as key=value and the clean tokens, merged in order, are the tokens. */
  lemma {:induction false} SplitMergesBack(ts: seq<string>)
    ensures Merges(ts, Rendered(Attrs(ts)), Clean(ts))
  {
    if ts != [] {
      var init, last := ts[..|ts| - 1], ts[|ts| - 1];
      assert ts == init + [last];
      SplitMergesBack(init);
      SplitLast(init, last);
      MergeLast(init, Rendered(Attrs(init)), Clean(init), last);
    }
  }

  predicate AllAttrs(xs: seq<string>, yes: bool) {
    forall i :: 0 <= i < |xs| ==> IsAttr(xs[i]) == yes
  }

  lemma LastOfMerge(ts: seq<string>, xs: seq<string>, ys: seq<string>)
    requires ts != [] && Merges(ts, xs, ys) && AllAttrs(xs, true) && AllAttrs(ys, false)
    ensures var init, last := ts[..|ts| - 1], ts[|ts| - 1];
            if IsAttr(last) then xs != [] && xs == xs[..|xs| - 1] + [last] && Merges(init, xs[..|xs| - 1], ys)
            else ys != [] && ys == ys[..|ys| - 1] + [last] && Merges(init, xs, ys[..|ys| - 1])
  {
    assert xs != [] ==> IsAttr(xs[|xs| - 1]);
    assert ys != [] ==> !IsAttr(ys[|ys| - 1]);
  }

  /** There is no other way to part the tokens into key=value tokens and the rest. */
  lemma {:induction false} SplitIsUnique(ts: seq<string>, xs: seq<string>, ys: seq<string>)
    requires Merges(ts, xs, ys) && AllAttrs(xs, true) && AllAttrs(ys, false)
    ensures xs == Rendered(Attrs(ts)) && ys == Clean(ts)
    decreases |ts|
  {
    if ts != [] {
      var init, last := ts[..|ts| - 1], ts[|ts| - 1];
      assert ts == init + [last];
      SplitLast(init, last);
      LastOfMerge(ts, xs, ys);
      if IsAttr(last) {
        SplitIsUnique(init, xs[..|xs| - 1], ys);
      } else {
        SplitIsUnique(init, xs, ys[..|ys| - 1]);
      }
    }
  }

  lemma {:induction false} CleanTokens(ts: seq<string>)
    requires Tokens(ts)
    ensures Tokens(Clean(ts)) && AllAttrs(Clean(ts), false)
  {
    if ts != [] {
      assert Tokens(ts[..|ts| - 1]);
      CleanTokens(ts[..|ts| - 1]);
    }
  }

  lemma {:induction false} NothingToTake(ts: seq<string>)
    requires AllAttrs(ts, false)
    ensures Attrs(ts) == [] && Clean(ts) == ts
  {
    if ts != [] {
      NothingToTake(ts[..|ts| - 1]);
    }
  }

  /** Splitting the cleaned message again finds no attribute and changes nothing. */
  lemma CleaningIsIdempotent(msg: string)
    ensures var cleaned := Join(Clean(Fields(msg)));
            Attrs(Fields(cleaned)) == [] && Join(Clean(Fields(cleaned))) == cleaned
  {
    var ts := Fields(msg);
    CleanTokens(ts);
    FieldsOfJoin(Clean(ts));
    NothingToTake(Clean(ts));
  }

  /** The white space that separates tokens, one character after the other. */
  lemma SpaceExactly(c: char)
    ensures IsSpace(c) <==>
            c in {'\t', '\n', '\U{000B}', '\U{000C}', '\r', ' ', '\U{0085}', '\U{00A0}', '\U{1680}',
                  '\U{2000}', '\U{2001}', '\U{2002}', '\U{2003}', '\U{2004}', '\U{2005}', '\U{2006}', '\U{2007}',
                  '\U{2008}', '\U{2009}', '\U{200A}', '\U{2028}', '\U{2029}', '\U{202F}', '\U{205F}', '\U{3000}'}
  {
  }

  /** A token is taken as an attribute exactly if it is a key, an equals sign and a value: the key is not empty and
      consists of unaccented letters, digits, underscores, hyphens and dots; the value may be anything. */
  lemma AttrExactly(token: string)
    ensures IsAttr(token) <==> exists key: string, value: string :: token == key + "=" + value && OrdinaryKey(key)
    ensures IsAttr(token) ==> OrdinaryKey(AttrOf(token).key)
  {
    if IsAttr(token) {
      var a := AttrOf(token);
      RenderedAttr(token);
      assert OrdinaryKey(a.key);
    }
    forall key: string, value: string | token == key + "=" + value && OrdinaryKey(key) ensures IsAttr(token) {
      KeyEndsAtEquals(key, value);
    }
  }

  predicate OrdinaryKey(key: string) {
    key != "" && forall i :: 0 <= i < |key| ==>
      || 'a' <= key[i] <= 'z' || 'A' <= key[i] <= 'Z' || '0' <= key[i] <= '9'
      || key[i] == '_' || key[i] == '-' || key[i] == '.'
  }

  lemma KeyEndsAtEquals(key: string, value: string)
    requires OrdinaryKey(key)
    ensures IsAttr(key + "=" + value) && AttrOf(key + "=" + value) == Attr(key, value)
  {
    var token := key + "=" + value;
    var eq := IndexOf(token, '=');
    assert forall i :: 0 <= i < |key| ==> token[i] == key[i];
    assert token[|key|] == '=';
    assert eq == |key|;
    assert token[..eq] == key && token[eq + 1..] == value;
  }

  /** The cleaned message holds its tokens one blank apart. */
  lemma JoinedByBlanks(a: string, rest: seq<string>)
    requires rest != []
    ensures Join([a] + rest) == a + " " + Join(rest)
  {
    assert ([a] + rest)[1..] == rest;
  }
}
