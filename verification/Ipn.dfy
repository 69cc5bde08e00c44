/** internal/ts/watcher.go: merging IPN notifications and extracting the MagicDNS suffix. */
module Ipn {
  import opened Wrappers
  import opened Text

  datatype BackendState = NoState | InUseOtherUser | NeedsLogin | NeedsMachineAuth | Stopped | Starting | Running

  datatype Node = Node(name: string, computedName: string)

  datatype NetMap = NetMap(selfNode: Option<Node>, peers: seq<Node>, displayMessages: map<string, string>)

  datatype Notify = Notify(
    state: Option<BackendState>, errMessage: Option<string>, browseToURL: Option<string>, netMap: Option<NetMap>)

  datatype IPNState = IPNState(
    state: Option<BackendState>, errMessage: Option<string>, browseToURL: Option<string>,
    selfNode: Option<Node>, magicDNSSuffix: string, peers: seq<Node>, displayMessages: map<string, string>)

  const EMPTY := IPNState(None, None, None, None, "", [], map[])

  function TrimDot(s: string): string {
    if s != "" && s[|s| - 1] == '.' then s[..|s| - 1] else s
  }

  function ExtractMagicDNSSuffix(fqdn: string): string {
    var name := TrimDot(fqdn);
    var dot := IndexOf(name, '.');
    if dot < |name| then name[dot + 1..] else ""
  }

  /** The suffix a net map reports, or "" when it reports none. */
  function ReportedSuffix(nm: NetMap): string {
    if nm.selfNode.Some? && nm.selfNode.value.name != "" then ExtractMagicDNSSuffix(nm.selfNode.value.name) else ""
  }

  function Refresh(s: IPNState, n: Notify): IPNState {
    var s1 := if n.state.Some? then s.(state := n.state) else s;
    var s2 := if n.errMessage.Some? then s1.(errMessage := n.errMessage) else s1;
    var s3 := if n.browseToURL.Some? then s2.(browseToURL := n.browseToURL) else s2;
    if n.netMap.None? then s3
    else
      var nm := n.netMap.value;
      var suffix := ReportedSuffix(nm);
      s3.(selfNode := nm.selfNode, peers := nm.peers, displayMessages := nm.displayMessages,
          magicDNSSuffix := if suffix != "" then suffix else s3.magicDNSSuffix)
  }

  /** The merged state after a whole stream of notifications. */
  function Fold(s: IPNState, ns: seq<Notify>): IPNState {
    if ns == [] then s else Refresh(Fold(s, ns[..|ns| - 1]), ns[|ns| - 1])
  }

  /** `k` is the position of the last notification that carries something, -1 when none does. */
  ghost predicate LastAt(ns: seq<Notify>, k: int, carries: Notify -> bool) {
    && -1 <= k < |ns|
    && (k >= 0 ==> carries(ns[k]))
    && forall j :: k < j < |ns| ==> !carries(ns[j])
  }

  predicate CarriesState(n: Notify) { n.state.Some? }
  predicate CarriesError(n: Notify) { n.errMessage.Some? }
  predicate CarriesURL(n: Notify) { n.browseToURL.Some? }
  predicate CarriesNetMap(n: Notify) { n.netMap.Some? }
  predicate CarriesSuffix(n: Notify) { n.netMap.Some? && ReportedSuffix(n.netMap.value) != "" }

  /** Every field of the merged state is the last value sent for it. The three net-map fields come from
      one and the same net map; the suffix may come from an older one, because empty ones do not erase it. */
  lemma {:induction false} LastNotificationWins(
    s: IPNState, ns: seq<Notify>, st: int, err: int, url: int, nm: int, suf: int)
    requires LastAt(ns, st, CarriesState) && LastAt(ns, err, CarriesError) && LastAt(ns, url, CarriesURL)
    requires LastAt(ns, nm, CarriesNetMap) && LastAt(ns, suf, CarriesSuffix)
    ensures Fold(s, ns).state == if st < 0 then s.state else ns[st].state
    ensures Fold(s, ns).errMessage == if err < 0 then s.errMessage else ns[err].errMessage
    ensures Fold(s, ns).browseToURL == if url < 0 then s.browseToURL else ns[url].browseToURL
    ensures Fold(s, ns).selfNode == if nm < 0 then s.selfNode else ns[nm].netMap.value.selfNode
    ensures Fold(s, ns).peers == if nm < 0 then s.peers else ns[nm].netMap.value.peers
    ensures Fold(s, ns).displayMessages == if nm < 0 then s.displayMessages else ns[nm].netMap.value.displayMessages
    ensures Fold(s, ns).magicDNSSuffix ==
            if suf < 0 then s.magicDNSSuffix else ReportedSuffix(ns[suf].netMap.value)
  {
    FieldKeepsLast(s, ns, st, CarriesState, (x: IPNState) => x.state, (n: Notify) => n.state);
    FieldKeepsLast(s, ns, err, CarriesError, (x: IPNState) => x.errMessage, (n: Notify) => n.errMessage);
    FieldKeepsLast(s, ns, url, CarriesURL, (x: IPNState) => x.browseToURL, (n: Notify) => n.browseToURL);
    FieldKeepsLast(s, ns, nm, CarriesNetMap,
      (x: IPNState) => (x.selfNode, x.peers, x.displayMessages),
      (n: Notify) => if n.netMap.None? then (None, [], map[])
                     else (n.netMap.value.selfNode, n.netMap.value.peers, n.netMap.value.displayMessages));
    FieldKeepsLast(s, ns, suf, CarriesSuffix, (x: IPNState) => x.magicDNSSuffix,
      (n: Notify) => if n.netMap.None? then "" else ReportedSuffix(n.netMap.value));
  }

  /** The common induction: a field that each notification either sets or leaves alone. */
  lemma {:induction false} FieldKeepsLast<T>(
    s: IPNState, ns: seq<Notify>, k: int, carries: Notify -> bool, field: IPNState -> T, sent: Notify -> T)
    requires LastAt(ns, k, carries)
    requires forall x, n :: field(Refresh(x, n)) == if carries(n) then sent(n) else field(x)
    ensures field(Fold(s, ns)) == if k < 0 then field(s) else sent(ns[k])
  {
    if ns != [] && k < |ns| - 1 {
      FieldKeepsLast(s, ns[..|ns| - 1], k, carries, field, sent);
    }
  }

  /** A suffix, once seen, is replaced only by another non-empty one. */
  lemma {:induction false} SuffixNeverErased(s: IPNState, ns: seq<Notify>)
    requires s.magicDNSSuffix != ""
    ensures Fold(s, ns).magicDNSSuffix != ""
  {
    if ns != [] {
      SuffixNeverErased(s, ns[..|ns| - 1]);
    }
  }

  /** The extracted suffix is exactly what follows the first label, after one optional trailing dot. */
  lemma ExtractSplitsFirstLabel(fqdn: string, first: string, suffix: string)
    requires '.' !in first
    ensures TrimDot(fqdn) == first + "." + suffix ==> ExtractMagicDNSSuffix(fqdn) == suffix
    ensures TrimDot(fqdn) == first ==> ExtractMagicDNSSuffix(fqdn) == ""
    ensures ExtractMagicDNSSuffix(fqdn) != "" ==>
              '.' in TrimDot(fqdn) &&
              TrimDot(fqdn) == TrimDot(fqdn)[..IndexOf(TrimDot(fqdn), '.')] + "." + ExtractMagicDNSSuffix(fqdn)
  {
    var name := TrimDot(fqdn);
    var dot := IndexOf(name, '.');
    if name == first + "." + suffix {
      assert name[|first|] == '.';
      assert forall j :: 0 <= j < |first| ==> name[j] == first[j];
    }
    if dot < |name| {
      assert name[dot] == '.';
      assert name == name[..dot] + "." + name[dot + 1..];
    }
  }

  /** What the state callback receives: the merged state after each notification, in order. */
  function Reports(s: IPNState, ns: seq<Notify>): seq<IPNState> {
    if ns == [] then [] else Reports(s, ns[..|ns| - 1]) + [Fold(s, ns)]
  }

  /** One bus watcher. `delivered` is what has been passed to the state callback so far; `cancels`
      counts the calls of the context's cancel function. */
  class Watcher {
    var state: IPNState
    var delivered: seq<IPNState>
    var armed: bool
    var cancels: nat

    constructor ()
      ensures state == EMPTY && delivered == [] && armed && cancels == 0
    {
      state, delivered, armed, cancels := EMPTY, [], true, 0;
    }

    /** The notification loop, until the bus reports an error or the context ends after `ns`. */
    method Observe(ns: seq<Notify>)
      modifies this`state, this`delivered
      ensures state == Fold(old(state), ns)
      ensures delivered == old(delivered) + Reports(old(state), ns)
    {
      var i := 0;
      while i < |ns|
        invariant 0 <= i <= |ns|
        invariant state == Fold(old(state), ns[..i])
        invariant delivered == old(delivered) + Reports(old(state), ns[..i])
      {
        assert ns[..i + 1][..i] == ns[..i];
        state := Refresh(state, ns[i]);
        delivered := delivered + [state];
        i := i + 1;
      }
      assert ns[..|ns|] == ns;
    }

    /** Cancels at most once, however often it is called, and waits for the loop or for the timeout. */
    method Close()
      modifies this`armed, this`cancels
      ensures !armed
      ensures cancels == old(cancels) + if old(armed) then 1 else 0
    {
      var cancel := armed;
      armed := false;
      if cancel {
        cancels := cancels + 1;
      }
    }
  }
}
