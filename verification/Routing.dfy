/** From a reachable registry through the PAC text to the proxy a host is sent to; and the writer itself. */
module Routing {
  import opened Wrappers
  import opened Text
  import opened Ids
  import opened Ipn
  import opened Glob
  import opened Model
  import opened System
  import opened Runs
  import opened Pac
  import opened PacText
  import opened Service
  import Safety

  /** What the writer reads of the listed tailnets. */
  function RoutesOf(ids: seq<int>, objs: map<int, Tailnet>): seq<Route>
    requires forall id :: id in ids ==> id in objs
  {
    if ids == [] then []
    else
      var last := ids[|ids| - 1];
      RoutesOf(ids[..|ids| - 1], objs) + [Route(objs[last].suffix, objs[last].port)]
  }

  /** The PAC text that a state's registry produces. It is a function of the registered ids and of the tailnets'
      values: the order in which the registry's map is walked does not enter. */
  ghost function PacOf(s: Sys): string
    requires s.w.configs.Keys <= s.objs.Keys
  {
    Written(RoutesOf(Listing(s.w.configs.Keys), s.objs))
  }

  /** A claimed suffix that the host ends with, after a dot. */
  predicate Serves(s: Sys, id: int, host: string) {
    id in s.w.configs && id in s.objs && s.objs[id].suffix != "" && EndsWith(host, "." + s.objs[id].suffix)
  }

  /** A claimed suffix whose pattern matches the host. */
  predicate Matched(s: Sys, id: int, host: string) {
    id in s.w.configs && id in s.objs && s.objs[id].suffix != "" && Matches("*." + s.objs[id].suffix, host)
  }

  /** Claimed suffixes hold nothing that ends or escapes a string literal. */
  ghost predicate QuotableSuffixes(s: Sys) {
    forall id :: id in s.w.configs && id in s.objs ==> Quotable(s.objs[id].suffix)
  }

  /** Nor anything that the matcher treats specially. */
  ghost predicate OrdinarySuffixes(s: Sys) {
    forall id :: id in s.w.configs && id in s.objs ==> Quotable(s.objs[id].suffix) && Plain(s.objs[id].suffix)
  }

  function ProxiesFor(t: Tailnet): seq<Directive> {
    [Socks5(t.port), Socks(t.port), Direct]
  }

  lemma {:induction false} ConfiguredQuotable(ids: seq<int>, objs: map<int, Tailnet>)
    requires forall id :: id in ids ==> id in objs && Quotable(objs[id].suffix)
    ensures AllQuotable(Configured(RoutesOf(ids, objs)))
  {
    if ids != [] {
      ConfiguredQuotable(ids[..|ids| - 1], objs);
    }
  }

  /** A rule at the end decides only where no earlier rule matched. */
  lemma {:induction false} ChoiceAppend(rs: seq<Route>, r: Route, host: string)
    ensures Choice(rs + [r], host) == if Choice(rs, host) == [Direct] then Choice([r], host) else Choice(rs, host)
  {
    if rs == [] {
      assert rs + [r] == [r];
    } else {
      assert (rs + [r])[1..] == rs[1..] + [r];
      ChoiceAppend(rs[1..], r, host);
    }
  }

  /** What one more listed tailnet adds to the choice. */
  lemma RoutesAppend(before: seq<int>, last: int, objs: map<int, Tailnet>, host: string)
    requires forall id :: id in before + [last] ==> id in objs
    ensures var c := Choice(Configured(RoutesOf(before, objs)), host);
            Choice(Configured(RoutesOf(before + [last], objs)), host) ==
            if c == [Direct] && objs[last].suffix != "" && Matches("*." + objs[last].suffix, host)
            then ProxiesFor(objs[last])
            else c
  {
    var rs, t := RoutesOf(before, objs), objs[last];
    var r := Route(t.suffix, t.port);
    assert (before + [last])[..|before|] == before;
    assert RoutesOf(before + [last], objs) == rs + [r] && (rs + [r])[..|rs|] == rs;
    ChoiceAppend(Configured(rs), r, host);
    assert Configured(rs) + [] == Configured(rs);
    assert Choice([r], host) == if Matches("*." + t.suffix, host) then ProxiesFor(t) else [Direct];
  }

  /** Among listed tailnets the lowest id that matches the host is chosen. */
  lemma {:induction false} LowestMatches(s: Sys, ids: seq<int>, host: string)
    requires Ascending(ids)
    requires forall id :: id in ids ==> id in s.w.configs && id in s.objs
    ensures Choice(Configured(RoutesOf(ids, s.objs)), host) == [Direct] <==>
            forall id :: id in ids ==> !Matched(s, id, host)
    ensures forall id ::
              id in ids && Matched(s, id, host) && (forall j :: j in ids && j < id ==> !Matched(s, j, host)) ==>
                Choice(Configured(RoutesOf(ids, s.objs)), host) == ProxiesFor(s.objs[id])
  {
    if ids != [] {
      var before, last := ids[..|ids| - 1], ids[|ids| - 1];
      assert ids == before + [last] && last in ids;
      LowestMatches(s, before, host);
      RoutesAppend(before, last, s.objs, host);
      assert forall id :: id in ids <==> id in before || id == last;
    }
  }

  /** What a browser does with the served text of every reachable registry, for every host and all suffixes that can
      be quoted: it uses the proxy of the lowest-numbered tailnet whose pattern matches, else it connects directly. */
  lemma RoutedToFirstMatch(acts: seq<Action>, host: string, id: int)
    requires QuotableSuffixes(Exec(INIT, acts))
    ensures var s := Exec(INIT, acts);
            && s.w.configs.Keys <= s.objs.Keys
            && ((forall j :: !Matched(s, j, host)) ==> Browse(PacOf(s), host) == Some([Direct]))
            && (Matched(s, id, host) && (forall j :: j < id ==> !Matched(s, j, host)) ==>
                  Browse(PacOf(s), host) == Some(ProxiesFor(s.objs[id])))
  {
    Reachable(acts);
    var s := Exec(INIT, acts);
    var ids := Listing(s.w.configs.Keys);
    ConfiguredQuotable(ids, s.objs);
    BrowseWritten(RoutesOf(ids, s.objs), host);
    LowestMatches(s, ids, host);
  }

  /** End to end, when no suffix holds a glob character either: the lowest-numbered tailnet whose suffix the host
      ends with after a dot, else a direct connection. */
  lemma RoutedToLowest(acts: seq<Action>, host: string, id: int)
    requires OrdinarySuffixes(Exec(INIT, acts))
    ensures var s := Exec(INIT, acts);
            && s.w.configs.Keys <= s.objs.Keys
            && ((forall j :: !Serves(s, j, host)) ==> Browse(PacOf(s), host) == Some([Direct]))
            && (Serves(s, id, host) && (forall j :: j < id ==> !Serves(s, j, host)) ==>
                  Browse(PacOf(s), host) == Some(ProxiesFor(s.objs[id])))
  {
    var s := Exec(INIT, acts);
    forall j ensures Matched(s, j, host) <==> Serves(s, j, host) {
      if j in s.w.configs && j in s.objs {
        DotPatternIsDotSuffix(s.objs[j].suffix, host);
      }
    }
    RoutedToFirstMatch(acts, host, id);
  }

  // ----- When the route is the right one -----------------------------------------------------------

  lemma TailsNest(host: string, a: string, b: string)
    requires EndsWith(host, "." + a) && EndsWith(host, "." + b) && |a| < |b|
    ensures EndsWith(b, "." + a)
  {
    var x, y := "." + a, "." + b;
    assert host[|host| - |x|..] == x && host[|host| - |y|..] == y;
    assert b == y[1..];
    assert y[|y| - |x|..] == x;
    assert b[|b| - |x|..] == x;
  }

  /** Two suffixes can serve the same host only if they are equal or one ends with a dot and the other. */
  lemma BothServeOnlyIfNested(host: string, a: string, b: string)
    requires EndsWith(host, "." + a) && EndsWith(host, "." + b)
    ensures a == b || EndsWith(a, "." + b) || EndsWith(b, "." + a)
  {
    if |a| < |b| {
      TailsNest(host, a, b);
    } else if |b| < |a| {
      TailsNest(host, b, a);
    } else {
      var x, y := "." + a, "." + b;
      assert x == host[|host| - |x|..] == y;
      assert a == x[1..] && b == y[1..];
    }
  }

  /** A name without a trailing dot ends with a dot and the suffix extracted from it, and everything in front of
      that is one label. */
  lemma NameEndsWithItsSuffix(name: string, other: string)
    requires name == TrimDot(name) && ExtractMagicDNSSuffix(name) != ""
    ensures EndsWith(name, "." + ExtractMagicDNSSuffix(name))
    ensures EndsWith(name, "." + other) ==> |other| <= |ExtractMagicDNSSuffix(name)|
  {
    var dot := IndexOf(name, '.');
    assert name[dot..] == "." + ExtractMagicDNSSuffix(name);
    if EndsWith(name, "." + other) {
      var k := |name| - |"." + other|;
      assert name[k] == name[k..][0] == '.';
    }
  }

  /** A machine name without trailing dot, and the registered tailnet that has claimed its suffix. */
  ghost predicate NameOf(s: Sys, name: string, id: int) {
    && OrdinarySuffixes(s) && id in s.w.configs && id in s.objs
    && name == TrimDot(name) && ExtractMagicDNSSuffix(name) != ""
    && s.objs[id].suffix == ExtractMagicDNSSuffix(name)
  }

  /** The claimed suffix of `j` is nested in that of `id`. */
  predicate NestedIn(s: Sys, j: int, id: int) {
    && j in s.w.configs && j in s.objs && s.objs[j].suffix != ""
    && id in s.objs && EndsWith(s.objs[id].suffix, "." + s.objs[j].suffix)
  }

  /** Beside the claimant itself exactly the tailnets with a nested suffix serve the name: claims are unique. */
  lemma NestedServe(acts: seq<Action>, name: string, id: int, j: int)
    requires NameOf(Exec(INIT, acts), name, id) && j != id
    ensures var s := Exec(INIT, acts); Serves(s, id, name) && (Serves(s, j, name) <==> NestedIn(s, j, id))
  {
    var s := Exec(INIT, acts);
    NameEndsWithItsSuffix(name, "");
    if Serves(s, j, name) {
      NameEndsWithItsSuffix(name, s.objs[j].suffix);
      BothServeOnlyIfNested(name, s.objs[id].suffix, s.objs[j].suffix);
      Safety.SuffixesUnique(acts, id, j);
      EndsWithIsLonger(s.objs[j].suffix, s.objs[id].suffix);
    } else if NestedIn(s, j, id) {
      TailOfTail(name, s.objs[id].suffix, "." + s.objs[j].suffix);
    }
  }

  lemma TailOfTail(a: string, b: string, c: string)
    requires EndsWith(a, "." + b) && EndsWith(b, c)
    ensures EndsWith(a, c)
  {
    var x := "." + b;
    assert a[|a| - |x|..] == x && x[1..] == b;
    assert a[|a| - |b|..] == b;
    assert a[|a| - |c|..] == b[|b| - |c|..];
  }

  /** Every machine name whose extracted suffix is claimed is routed to exactly the claimant, provided no tailnet with
      a lower id has claimed a suffix that is nested in it. */
  lemma NameReachesItsTailnet(acts: seq<Action>, name: string, id: int)
    requires NameOf(Exec(INIT, acts), name, id)
    requires forall j :: j < id ==> !NestedIn(Exec(INIT, acts), j, id)
    ensures var s := Exec(INIT, acts);
            s.w.configs.Keys <= s.objs.Keys && Browse(PacOf(s), name) == Some(ProxiesFor(s.objs[id]))
  {
    var s := Exec(INIT, acts);
    NestedServe(acts, name, id, id + 1);
    forall j | j < id ensures !Serves(s, j, name) {
      NestedServe(acts, name, id, j);
    }
    RoutedToLowest(acts, name, id);
  }

  /** Conversely the lowest-numbered tailnet with a nested suffix takes the name, so that the name reaches its own
      tailnet if and only if the two have the same port. */
  lemma NestedTakesTheName(acts: seq<Action>, name: string, id: int, j: int)
    requires NameOf(Exec(INIT, acts), name, id)
    requires j < id && NestedIn(Exec(INIT, acts), j, id)
    requires forall k :: k < j ==> !NestedIn(Exec(INIT, acts), k, id)
    ensures var s := Exec(INIT, acts);
            && s.w.configs.Keys <= s.objs.Keys && Browse(PacOf(s), name) == Some(ProxiesFor(s.objs[j]))
            && (Browse(PacOf(s), name) == Some(ProxiesFor(s.objs[id])) <==> s.objs[j].port == s.objs[id].port)
  {
    var s := Exec(INIT, acts);
    forall k | k < j ensures !Serves(s, k, name) {
      NestedServe(acts, name, id, k);
    }
    NestedServe(acts, name, id, j);
    RoutedToLowest(acts, name, j);
    assert ProxiesFor(s.objs[j])[0] == Socks5(s.objs[j].port) && ProxiesFor(s.objs[id])[0] == Socks5(s.objs[id].port);
  }

  lemma EndsWithIsLonger(a: string, b: string)
    ensures EndsWith(a, "." + b) ==> |b| < |a|
  {
  }

  lemma LastCharacter(host: string, suffix: string)
    requires suffix != ""
    ensures EndsWith(host, "." + suffix) ==> host[|host| - 1] == suffix[|suffix| - 1]
  {
    var x := "." + suffix;
    assert x[|x| - 1] == suffix[|suffix| - 1];
    if EndsWith(host, x) {
      assert host[|host| - |x|..][|x| - 1] == host[|host| - 1];
    }
  }

  /** A registered tailnet whose suffix kept a dot at its end. */
  predicate EndsInDot(s: Sys, id: int) {
    id in s.w.configs && id in s.objs && s.objs[id].suffix != "" && s.objs[id].suffix[|s.objs[id].suffix| - 1] == '.'
  }

  /** A fully qualified host with its trailing dot is served by no suffix that lacks one: it is connected directly. */
  lemma TrailingDotGoesDirect(acts: seq<Action>, host: string)
    requires OrdinarySuffixes(Exec(INIT, acts))
    requires host != "" && host[|host| - 1] == '.'
    requires forall id :: !EndsInDot(Exec(INIT, acts), id)
    ensures var s := Exec(INIT, acts); s.w.configs.Keys <= s.objs.Keys && Browse(PacOf(s), host) == Some([Direct])
  {
    var s := Exec(INIT, acts);
    forall j ensures !Serves(s, j, host) {
      if j in s.w.configs && j in s.objs && s.objs[j].suffix != "" {
        LastCharacter(host, s.objs[j].suffix);
        assert !EndsInDot(s, j);
      }
    }
    RoutedToLowest(acts, host, 0);
  }

  // ----- The writer --------------------------------------------------------------------------------

  /** buildPACForTailnets: one pass over the listed tailnets with a string builder. */
  method BuildPACForTailnets(tailnets: seq<TailnetObject>) returns (text: string, suffixes: seq<string>)
    ensures text == Written(ReadRoutes(tailnets))
    ensures suffixes == Suffixes(Configured(ReadRoutes(tailnets)))
  {
    text, suffixes := WriteClauses(tailnets, HEADER);
    text := text + FOOTER;
  }

  /** The loop of the writer, started from the text written before it. */
  method WriteClauses(tailnets: seq<TailnetObject>, head: string) returns (text: string, suffixes: seq<string>)
    ensures text == head + Clauses(Configured(ReadRoutes(tailnets)))
    ensures suffixes == Suffixes(Configured(ReadRoutes(tailnets)))
  {
    text := head;
    suffixes := [];
    ghost var rs: seq<Route> := [];
    var i := 0;
    while i < |tailnets|
      invariant 0 <= i <= |tailnets|
      invariant rs == ReadRoutes(tailnets[..i])
      invariant text == head + Clauses(Configured(rs)) && suffixes == Suffixes(Configured(rs))
    {
      var snapshot := tailnets[i].Snapshot();
      var r := Route(snapshot.suffix, tailnets[i].port);
      ReadMore(tailnets, i);
      WriteOne(head, rs, r);
      if snapshot.suffix != "" {
        suffixes := suffixes + [snapshot.suffix];
        text := text + Clause(r);
      }
      rs := rs + [r];
      i := i + 1;
    }
    assert tailnets[..|tailnets|] == tailnets;
  }

  lemma ReadMore(tailnets: seq<TailnetObject>, i: nat)
    requires i < |tailnets|
    ensures ReadRoutes(tailnets[..i + 1]) == ReadRoutes(tailnets[..i]) + [Route(tailnets[i].suffix, tailnets[i].port)]
  {
    assert tailnets[..i + 1][..i] == tailnets[..i];
  }

  /** The suffixes that are logged with the text. */
  function Suffixes(rs: seq<Route>): seq<string> {
    if rs == [] then [] else Suffixes(rs[..|rs| - 1]) + [rs[|rs| - 1].suffix]
  }

  lemma WriteOne(head: string, rs: seq<Route>, r: Route)
    ensures var cs, ds := Configured(rs), Configured(rs + [r]);
            if r.suffix == "" then ds == cs
            else head + Clauses(ds) == head + Clauses(cs) + Clause(r) && Suffixes(ds) == Suffixes(cs) + [r.suffix]
  {
    var cs := Configured(rs);
    assert (rs + [r])[..|rs|] == rs;
    assert (cs + [r])[..|cs|] == cs;
    Joined(head, Clauses(cs), Clause(r));
  }

  function ReadRoutes(tailnets: seq<TailnetObject>): seq<Route>
    reads tailnets
  {
    if tailnets == [] then []
    else
      var last := tailnets[|tailnets| - 1];
      ReadRoutes(tailnets[..|tailnets| - 1]) + [Route(last.suffix, last.port)]
  }

  /** The PAC handler: list, then write. Its text is the one of the routing theorems. */
  method ServePAC(reg: Registry) returns (text: string)
    requires reg.Valid()
    ensures reg.Whole().w.configs.Keys <= reg.Whole().objs.Keys && text == PacOf(reg.Whole())
  {
    var ts := reg.List();
    var suffixes;
    text, suffixes := BuildPACForTailnets(ts);
    ListedIsWhole(reg, ts);
  }

  lemma ListedIsWhole(reg: Registry, ts: seq<TailnetObject>)
    requires reg.Valid() && |ts| == |reg.SortedIDs()|
    requires forall k :: 0 <= k < |ts| ==>
                           reg.SortedIDs()[k] in reg.tailnets && ts[k] == reg.tailnets[reg.SortedIDs()[k]].tailnet
    ensures reg.Whole().w.configs.Keys <= reg.Whole().objs.Keys
    ensures Written(ReadRoutes(ts)) == PacOf(reg.Whole())
  {
    KeysAgree(reg);
    var ids := reg.SortedIDs();
    ReadIsRoutes(reg, ts, ids);
  }

  lemma KeysAgree(reg: Registry)
    ensures reg.Configs().Keys == reg.Objects().Keys == reg.Views().Keys == reg.tailnets.Keys
  {
  }

  lemma {:induction false} ReadIsRoutes(reg: Registry, ts: seq<TailnetObject>, ids: seq<int>)
    requires reg.Valid() && |ts| == |ids|
    requires forall k :: 0 <= k < |ts| ==> ids[k] in reg.Objects() && ts[k] == reg.Objects()[ids[k]]
    requires forall id :: id in ids ==> id in reg.Views()
    ensures ReadRoutes(ts) == RoutesOf(ids, reg.Views())
  {
    if ts != [] {
      var n := |ts| - 1;
      ReadIsRoutes(reg, ts[..n], ids[..n]);
      assert ids[n] in ids;
      assert reg.Views()[ids[n]] == ts[n].View();
    }
  }
}
