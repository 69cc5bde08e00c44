/** The config file as a list of records, in whatever order the registry's map was walked. */
module Storage {
  import opened Ids
  import opened Model

  datatype File = NoFile | Broken | Records(list: seq<Config>)

  /** The map that loading a list of records builds: a later record replaces an earlier one with its id. */
  function Decoded(list: seq<Config>): map<int, Config> {
    if list == [] then map[]
    else
      var last := list[|list| - 1];
      Decoded(list[..|list| - 1])[last.id := last]
  }

  /** The counter after loading: raised past every id met. */
  function CountedPast(list: seq<Config>): int {
    if list == [] then 1
    else
      var n := CountedPast(list[..|list| - 1]);
      var id := list[|list| - 1].id;
      if id >= n then id + 1 else n
  }

  function Contents(f: File): Disk {
    match f
    case NoFile => Absent
    case Broken => Unreadable
    case Records(list) => Stored(Decoded(list))
  }

  /** `list` holds every config of `m`, in some order, and nothing else. */
  ghost predicate Lists(list: seq<Config>, m: map<int, Config>) {
    && (forall c :: c in list ==> c.id in m && m[c.id] == c)
    && (forall id :: id in m ==> m[id] in list)
  }

  ghost predicate OwnKeys(m: map<int, Config>) {
    forall id :: id in m ==> m[id].id == id
  }

  lemma {:induction false} DecodedMembers(list: seq<Config>)
    ensures forall c :: c in list ==> c.id in Decoded(list)
    ensures forall id :: id in Decoded(list) ==> Decoded(list)[id] in list && Decoded(list)[id].id == id
  {
    if list != [] {
      DecodedMembers(list[..|list| - 1]);
    }
  }

  /** Saving and loading rebuild the same registry, whatever the order of the records. */
  lemma SaveLoadRoundTrip(list: seq<Config>, m: map<int, Config>)
    requires OwnKeys(m) && Lists(list, m)
    ensures Decoded(list) == m
    ensures CountedPast(list) == NextIDAfter(m.Keys)
  {
    DecodedMembers(list);
    forall id | id in m ensures id in Decoded(list) && Decoded(list)[id] == m[id] {
      assert m[id] in list;
    }
    forall id | id in Decoded(list) ensures id in m {
      assert Decoded(list)[id] in list;
    }
    CounterIsNextID(list);
  }

  /** The counter ends one past the largest id, so it depends on the set of ids alone. */
  lemma {:induction false} CounterIsNextID(list: seq<Config>)
    ensures CountedPast(list) == NextIDAfter(Decoded(list).Keys)
  {
    if list == [] {
      assert Decoded(list).Keys == {};
    } else {
      var before := list[..|list| - 1];
      var last := list[|list| - 1];
      CounterIsNextID(before);
      assert Decoded(list).Keys == Decoded(before).Keys + {last.id};
      var n := NextIDAfter(Decoded(list).Keys);
      assert last.id in Decoded(list).Keys;
      assert n != 1 ==> n - 1 in Decoded(list).Keys;
      assert forall id :: id in Decoded(before).Keys ==> id in Decoded(list).Keys;
    }
  }
}
