/** The client's cache of search results: which servers answered for which
    channel names and when, the two mirrored indices between names and
    server addresses, and the searches still waiting for an answer. Time is
    a parameter, in whole clock ticks. */
module SearchCache {
  import opened Common

  datatype Address = Address(host: string, port: nat)

  /** When a name was last seen at an address, or the marker saying a
      channel is currently connected there (such a result never expires). */
  datatype Stamp = ValidChannel | FoundAt(time: int)

  /** A per-name dictionary address -> stamp, in insertion order. */
  type Entries = seq<(Address, Stamp)>

  /** _UnansweredSearch; the results queue is identified by a number. */
  datatype UnansweredSearch = UnansweredSearch(name: string, resultsQueue: nat, lastSent: int, retirementDeadline: int)

  // ---------------------------------------------------------------------
  // Insertion-ordered dictionaries as sequences of pairs.

  function KeysOf(e: Entries): set<Address> {
    set p | p in e :: p.0
  }

  lemma KeysOfCons(x: (Address, Stamp), t: Entries)
    ensures KeysOf([x] + t) == {x.0} + KeysOf(t)
  {
    forall a | a in KeysOf([x] + t) ensures a in {x.0} + KeysOf(t) {
      var p :| p in [x] + t && p.0 == a;
    }
  }

  lemma KeysOfSnoc(t: Entries, x: (Address, Stamp))
    ensures KeysOf(t + [x]) == KeysOf(t) + {x.0}
  {
    forall a | a in KeysOf(t + [x]) ensures a in KeysOf(t) + {x.0} {
      var p :| p in t + [x] && p.0 == a;
    }
  }

  predicate UniqueKeys(e: Entries) {
    forall i, j :: 0 <= i < j < |e| ==> e[i].0 != e[j].0
  }

  lemma UniqueCons(x: (Address, Stamp), t: Entries)
    ensures UniqueKeys([x] + t) <==> x.0 !in KeysOf(t) && UniqueKeys(t)
  {
    var e := [x] + t;
    assert forall k :: 0 <= k < |t| ==> e[k + 1] == t[k];
    if UniqueKeys(e) {
      forall p | p in t ensures p.0 != x.0 {
        var k :| 0 <= k < |t| && t[k] == p;
        assert e[k + 1] == p && e[0] == x;
      }
      forall i, j | 0 <= i < j < |t| ensures t[i].0 != t[j].0 {
        assert e[i + 1] == t[i] && e[j + 1] == t[j];
      }
    }
    if x.0 !in KeysOf(t) && UniqueKeys(t) {
      forall i, j | 0 <= i < j < |e| ensures e[i].0 != e[j].0 {
        if i == 0 {
          assert e[j] in t;
        }
      }
    }
  }

  function Lookup(e: Entries, a: Address): Option<Stamp>
  {
    if e == [] then None
    else if e[0].0 == a then Some(e[0].1)
    else Lookup(e[1..], a)
  }

  /** Lookup finds exactly the keys present. */
  lemma {:induction false} LookupKeys(e: Entries, a: Address)
    ensures Lookup(e, a).Some? <==> a in KeysOf(e)
  {
    if e != [] {
      assert e == [e[0]] + e[1..];
      KeysOfCons(e[0], e[1..]);
      LookupKeys(e[1..], a);
    }
  }

  /** `d[a] = v`: an existing key keeps its place, a new one goes last. */
  function DictSet(e: Entries, a: Address, v: Stamp): Entries
  {
    if e == [] then [(a, v)]
    else if e[0].0 == a then [(a, v)] + e[1..]
    else [e[0]] + DictSet(e[1..], a, v)
  }

  /** After `d[a] = v` the keys are the old ones plus a, and a new key goes
      last. */
  lemma {:induction false} DictSetKeys(e: Entries, a: Address, v: Stamp)
    ensures KeysOf(DictSet(e, a, v)) == KeysOf(e) + {a}
    ensures a !in KeysOf(e) ==> DictSet(e, a, v) == e + [(a, v)]
  {
    if e == [] {
      KeysOfCons((a, v), []);
    } else {
      assert e == [e[0]] + e[1..];
      KeysOfCons(e[0], e[1..]);
      if e[0].0 == a {
        KeysOfCons((a, v), e[1..]);
      } else {
        DictSetKeys(e[1..], a, v);
        KeysOfCons(e[0], DictSet(e[1..], a, v));
      }
    }
  }

  /** After `d[a] = v`, a maps to v and every other key keeps its value. */
  lemma {:induction false} DictSetLookup(e: Entries, a: Address, v: Stamp, b: Address)
    ensures Lookup(DictSet(e, a, v), b) == if b == a then Some(v) else Lookup(e, b)
  {
    if e != [] && e[0].0 != a {
      DictSetLookup(e[1..], a, v, b);
    }
  }

  /** `d[a] = v` keeps keys distinct. */
  lemma {:induction false} DictSetUnique(e: Entries, a: Address, v: Stamp)
    requires UniqueKeys(e)
    ensures UniqueKeys(DictSet(e, a, v))
  {
    if e != [] {
      assert e == [e[0]] + e[1..];
      UniqueCons(e[0], e[1..]);
      if e[0].0 == a {
        UniqueCons((a, v), e[1..]);
      } else {
        DictSetUnique(e[1..], a, v);
        DictSetKeys(e[1..], a, v);
        UniqueCons(e[0], DictSet(e[1..], a, v));
      }
    }
  }

  lemma DictSetSpec(e: Entries, a: Address, v: Stamp)
    ensures KeysOf(DictSet(e, a, v)) == KeysOf(e) + {a}
    ensures Lookup(DictSet(e, a, v), a) == Some(v)
    ensures UniqueKeys(e) ==> UniqueKeys(DictSet(e, a, v))
  {
    DictSetKeys(e, a, v);
    DictSetLookup(e, a, v, a);
    if UniqueKeys(e) {
      DictSetUnique(e, a, v);
    }
  }

  /** `d.pop(a, None)`. */
  function DictPop(e: Entries, a: Address): Entries
  {
    if e == [] then []
    else if e[0].0 == a then DictPop(e[1..], a)
    else [e[0]] + DictPop(e[1..], a)
  }

  /** After `d.pop(a)` the keys are the old ones without a, every other key
      keeps its value, and keys stay distinct; popping an absent key
      changes nothing. */
  lemma {:induction false} DictPopSpec(e: Entries, a: Address)
    ensures KeysOf(DictPop(e, a)) == KeysOf(e) - {a}
    ensures forall b :: b != a ==> Lookup(DictPop(e, a), b) == Lookup(e, b)
    ensures a !in KeysOf(e) ==> DictPop(e, a) == e
    ensures UniqueKeys(e) ==> UniqueKeys(DictPop(e, a))
  {
    if e != [] {
      assert e == [e[0]] + e[1..];
      KeysOfCons(e[0], e[1..]);
      UniqueCons(e[0], e[1..]);
      DictPopSpec(e[1..], a);
      if e[0].0 != a {
        KeysOfCons(e[0], DictPop(e[1..], a));
        UniqueCons(e[0], DictPop(e[1..], a));
      }
    }
  }

  /** A dictionary is non-empty exactly when some key is found in it. */
  lemma ContainsSpec(e: Entries)
    ensures e != [] <==> exists a :: Lookup(e, a).Some?
  {
    if e != [] {
      LookupKeys(e, e[0].0);
    }
    forall a | Lookup(e, a).Some? ensures e != [] {
      LookupKeys(e, a);
    }
  }

  // ---------------------------------------------------------------------
  // Which cached results are still good.

  /** A result is good when it is a connected-channel marker or younger than
      the threshold. */
  predicate Live(s: Stamp, now: int, threshold: int) {
    s.ValidChannel? || now - s.time < threshold
  }

  /** The entries that survive expiry, in order. */
  function Keep(e: Entries, now: int, threshold: int): (r: Entries)
    ensures forall p :: p in r <==> p in e && Live(p.1, now, threshold)
    decreases |e|
  {
    if e == [] then []
    else
      var init := e[..|e| - 1];
      var last := e[|e| - 1];
      assert e == init + [last];
      Keep(init, now, threshold) + (if Live(last.1, now, threshold) then [last] else [])
  }

  lemma UniqueSnoc(t: Entries, x: (Address, Stamp))
    ensures UniqueKeys(t + [x]) <==> x.0 !in KeysOf(t) && UniqueKeys(t)
  {
    var e := t + [x];
    assert forall k :: 0 <= k < |t| ==> e[k] == t[k];
    if UniqueKeys(e) {
      forall p | p in t ensures p.0 != x.0 {
        var k :| 0 <= k < |t| && t[k] == p;
        assert e[k] == p && e[|t|] == x;
      }
    }
    if x.0 !in KeysOf(t) && UniqueKeys(t) {
      forall i, j | 0 <= i < j < |e| ensures e[i].0 != e[j].0 {
        if j == |t| {
          assert e[i] in t;
        }
      }
    }
  }

  /** Expiry keeps keys distinct and adds none. */
  lemma {:induction false} KeepUnique(e: Entries, now: int, threshold: int)
    ensures KeysOf(Keep(e, now, threshold)) <= KeysOf(e)
    ensures UniqueKeys(e) ==> UniqueKeys(Keep(e, now, threshold))
    decreases |e|
  {
    if e != [] {
      var init := e[..|e| - 1];
      var last := e[|e| - 1];
      assert e == init + [last];
      KeepUnique(init, now, threshold);
      UniqueSnoc(init, last);
      KeysOfSnoc(init, last);
      if Live(last.1, now, threshold) {
        UniqueSnoc(Keep(init, now, threshold), last);
      }
    }
  }

  /** The address of the first connected-channel marker. */
  function FirstMarker(e: Entries): (r: Option<Address>)
    ensures r.Some? <==> exists k :: 0 <= k < |e| && e[k].1 == ValidChannel
    ensures r.Some? ==> exists k :: 0 <= k < |e| && e[k] == (r.value, ValidChannel) &&
                                     forall j :: 0 <= j < k ==> e[j].1 != ValidChannel
    decreases |e|
  {
    if e == [] then None
    else
      var init := e[..|e| - 1];
      assert forall k :: 0 <= k < |init| ==> init[k] == e[k];
      match FirstMarker(init)
      case Some(a) => Some(a)
      case None => if e[|e| - 1].1 == ValidChannel then Some(e[|e| - 1].0) else None
  }

  /** The address of the last good entry. */
  function LastLive(e: Entries, now: int, threshold: int): (r: Option<Address>)
    ensures r.Some? <==> exists k :: 0 <= k < |e| && Live(e[k].1, now, threshold)
    ensures r.Some? ==> exists k :: 0 <= k < |e| && e[k].0 == r.value && Live(e[k].1, now, threshold) &&
                                     forall j :: k < j < |e| ==> !Live(e[j].1, now, threshold)
    decreases |e|
  {
    if e == [] then None
    else if Live(e[|e| - 1].1, now, threshold) then Some(e[|e| - 1].0)
    else
      var init := e[..|e| - 1];
      assert forall k :: 0 <= k < |init| ==> init[k] == e[k];
      LastLive(init, now, threshold)
  }

  /** The address get_cached_search_result answers with: a connected-channel
      marker when there is one, otherwise the last result younger than the
      threshold; None where it raises. */
  function CachedAddress(e: Entries, now: int, threshold: int): (r: Option<Address>)
    ensures r.None? <==> forall k :: 0 <= k < |e| ==> !Live(e[k].1, now, threshold)
    ensures r.Some? ==> exists k :: 0 <= k < |e| && e[k].0 == r.value && Live(e[k].1, now, threshold)
    ensures (exists k :: 0 <= k < |e| && e[k].1 == ValidChannel) ==>
            r.Some? && exists k :: 0 <= k < |e| && e[k] == (r.value, ValidChannel)
  {
    if FirstMarker(e).Some? then FirstMarker(e) else LastLive(e, now, threshold)
  }

  /** One more entry, as get_cached_search_result's loop sees it: kept if
      good; it becomes the answer if good and no marker was found yet. */
  lemma ScanStep(e: Entries, i: nat, now: int, threshold: int)
    requires i < |e|
    ensures Keep(e[..i + 1], now, threshold) ==
            Keep(e[..i], now, threshold) + (if Live(e[i].1, now, threshold) then [e[i]] else [])
    ensures FirstMarker(e[..i + 1]) ==
            (if FirstMarker(e[..i]).Some? then FirstMarker(e[..i])
             else if e[i].1 == ValidChannel then Some(e[i].0) else None)
    ensures CachedAddress(e[..i + 1], now, threshold) ==
            (if Live(e[i].1, now, threshold) && FirstMarker(e[..i]).None? then Some(e[i].0)
             else CachedAddress(e[..i], now, threshold))
  {
    assert e[..i + 1][..i] == e[..i];
    assert e[..i + 1][i] == e[i];
  }

  /** Expiry keeps the answer: pruning the dead entries first changes
      neither the marker found nor the last good entry, and pruning twice
      is pruning once. */
  lemma {:induction false} KeepPreservesAnswer(e: Entries, now: int, threshold: int)
    ensures Keep(Keep(e, now, threshold), now, threshold) == Keep(e, now, threshold)
    ensures FirstMarker(Keep(e, now, threshold)) == FirstMarker(e)
    ensures LastLive(Keep(e, now, threshold), now, threshold) == LastLive(e, now, threshold)
    ensures CachedAddress(Keep(e, now, threshold), now, threshold) == CachedAddress(e, now, threshold)
    decreases |e|
  {
    if e != [] {
      var init := e[..|e| - 1];
      var last := e[|e| - 1];
      var t := Keep(init, now, threshold);
      KeepPreservesAnswer(init, now, threshold);
      if Live(last.1, now, threshold) {
        var r := t + [last];
        assert r[..|r| - 1] == t;
        assert Keep(r, now, threshold) == Keep(t, now, threshold) + [last];
      } else {
        assert Keep(e, now, threshold) == t;
        if FirstMarker(init).None? {
          assert last.1 != ValidChannel;
        }
      }
    }
  }

  // ---------------------------------------------------------------------
  // split_cached_results over a snapshot of the name index.

  function EntriesIn(m: map<string, Entries>, name: string): Entries {
    if name in m then m[name] else []
  }

  /** The index after get_cached_search_result on each name in turn: each
      looked-up name is present and holds only its good entries. */
  function PruneAll(m: map<string, Entries>, names: seq<string>, now: int, threshold: int): (r: map<string, Entries>)
    ensures forall n :: n in r <==> n in m || n in names
    decreases |names|
  {
    if names == [] then m
    else
      var p := PruneAll(m, names[..|names| - 1], now, threshold);
      var n := names[|names| - 1];
      p[n := Keep(EntriesIn(p, n), now, threshold)]
  }

  lemma {:induction false} PruneAllSpec(m: map<string, Entries>, names: seq<string>, now: int, threshold: int, n: string)
    ensures EntriesIn(PruneAll(m, names, now, threshold), n) ==
            (if n in names then Keep(EntriesIn(m, n), now, threshold) else EntriesIn(m, n))
    decreases |names|
  {
    if names != [] {
      var init := names[..|names| - 1];
      PruneAllSpec(m, init, now, threshold, n);
      assert names == init + [names[|names| - 1]];
      if n == names[|names| - 1] && n in init {
        KeepPreservesAnswer(EntriesIn(m, n), now, threshold);
      }
    }
  }

  /** The names that need a search, in input order. */
  function NeedsSearch(m: map<string, Entries>, names: seq<string>, now: int, threshold: int): (r: seq<string>)
    ensures forall n :: n in r <==> n in names && CachedAddress(EntriesIn(m, n), now, threshold).None?
    decreases |names|
  {
    if names == [] then []
    else
      var init := names[..|names| - 1];
      var n := names[|names| - 1];
      assert names == init + [n];
      NeedsSearch(m, init, now, threshold) +
        (if CachedAddress(EntriesIn(m, n), now, threshold).None? then [n] else [])
  }

  /** The names answered from the cache with address a, in input order. */
  function CachedAt(m: map<string, Entries>, names: seq<string>, now: int, threshold: int, a: Address): (r: seq<string>)
    ensures forall n :: n in r <==> n in names && CachedAddress(EntriesIn(m, n), now, threshold) == Some(a)
    decreases |names|
  {
    if names == [] then []
    else
      var init := names[..|names| - 1];
      var n := names[|names| - 1];
      assert names == init + [n];
      CachedAt(m, init, now, threshold, a) +
        (if CachedAddress(EntriesIn(m, n), now, threshold) == Some(a) then [n] else [])
  }

  /** Every name lands in exactly one place: the names needing a search or
      the bucket of exactly one cached address. */
  lemma SplitPartition(m: map<string, Entries>, names: seq<string>, now: int, threshold: int, n: string)
    requires n in names
    ensures n in NeedsSearch(m, names, now, threshold) <==>
            forall a :: n !in CachedAt(m, names, now, threshold, a)
    ensures forall a, b :: n in CachedAt(m, names, now, threshold, a) && n in CachedAt(m, names, now, threshold, b) ==> a == b
  {
    var c := CachedAddress(EntriesIn(m, n), now, threshold);
    if c.Some? {
      assert n in CachedAt(m, names, now, threshold, c.value);
    }
  }

  /** The cached addresses grouped by address, in input order: the
      dictionary of lists split_cached_results builds. */
  function Grouping(m: map<string, Entries>, names: seq<string>, now: int, threshold: int)
    : (r: map<Address, seq<string>>)
    ensures forall a :: a in r ==> r[a] != [] && forall k :: 0 <= k < |r[a]| ==> r[a][k] in names
    decreases |names|
  {
    if names == [] then map[]
    else
      var g := Grouping(m, names[..|names| - 1], now, threshold);
      var n := names[|names| - 1];
      match CachedAddress(EntriesIn(m, n), now, threshold)
      case None => g
      case Some(a) => g[a := (if a in g then g[a] else []) + [n]]
  }

  /** Each address of the grouping holds exactly the names cached there. */
  lemma {:induction false} GroupingSpec(m: map<string, Entries>, names: seq<string>, now: int, threshold: int, a: Address)
    ensures a in Grouping(m, names, now, threshold) <==> CachedAt(m, names, now, threshold, a) != []
    ensures a in Grouping(m, names, now, threshold) ==>
            Grouping(m, names, now, threshold)[a] == CachedAt(m, names, now, threshold, a)
    decreases |names|
  {
    if names != [] {
      var init := names[..|names| - 1];
      GroupingSpec(m, init, now, threshold, a);
      assert names == init + [names[|names| - 1]];
    }
  }

  /** One more name extends the pruned index and the list of names
      needing a search by that name only. */
  lemma SplitSnoc(m: map<string, Entries>, names: seq<string>, n: string, now: int, threshold: int)
    ensures PruneAll(m, names + [n], now, threshold) ==
            PruneAll(m, names, now, threshold)[n := Keep(EntriesIn(PruneAll(m, names, now, threshold), n), now, threshold)]
    ensures NeedsSearch(m, names + [n], now, threshold) ==
            NeedsSearch(m, names, now, threshold) + (if CachedAddress(EntriesIn(m, n), now, threshold).None? then [n] else [])
    ensures Grouping(m, names + [n], now, threshold) ==
            (match CachedAddress(EntriesIn(m, n), now, threshold)
             case None => Grouping(m, names, now, threshold)
             case Some(a) =>
               var g := Grouping(m, names, now, threshold);
               g[a := (if a in g then g[a] else []) + [n]])
  {
    var all := names + [n];
    assert all[..|all| - 1] == names && all[|all| - 1] == n && all != [];
    assert PruneAll(m, all, now, threshold) ==
           PruneAll(m, names, now, threshold)[n := Keep(EntriesIn(PruneAll(m, names, now, threshold), n), now, threshold)];
    assert NeedsSearch(m, all, now, threshold) ==
           NeedsSearch(m, names, now, threshold) + (if CachedAddress(EntriesIn(m, n), now, threshold).None? then [n] else []);
  }

  /** One name of split_cached_results: the pruned index still gives the
      name's original answer, and the three results grow by that name. */
  lemma SplitStep(m0: map<string, Entries>, names: seq<string>, i: nat, now: int, threshold: int)
    requires i < |names|
    ensures var m := PruneAll(m0, names[..i], now, threshold);
      CachedAddress(EntriesIn(m, names[i]), now, threshold) == CachedAddress(EntriesIn(m0, names[i]), now, threshold)
    ensures var m := PruneAll(m0, names[..i], now, threshold);
      PruneAll(m0, names[..i + 1], now, threshold) == m[names[i] := Keep(EntriesIn(m, names[i]), now, threshold)]
    ensures NeedsSearch(m0, names[..i + 1], now, threshold) ==
            NeedsSearch(m0, names[..i], now, threshold) +
            (if CachedAddress(EntriesIn(m0, names[i]), now, threshold).None? then [names[i]] else [])
    ensures Grouping(m0, names[..i + 1], now, threshold) ==
            (match CachedAddress(EntriesIn(m0, names[i]), now, threshold)
             case None => Grouping(m0, names[..i], now, threshold)
             case Some(a) =>
               var g := Grouping(m0, names[..i], now, threshold);
               g[a := (if a in g then g[a] else []) + [names[i]]])
  {
    var n, done := names[i], names[..i];
    assert names[..i + 1] == done + [n];
    PruneAllSpec(m0, done, now, threshold, n);
    KeepPreservesAnswer(EntriesIn(m0, n), now, threshold);
    SplitSnoc(m0, done, n, now, threshold);
  }

  // ---------------------------------------------------------------------
  // The two indices.

  function NamesIn(r: map<Address, set<string>>, a: Address): set<string> {
    if a in r then r[a] else {}
  }

  /** Every address recorded for a name lists the name in the reverse
      index. */
  predicate Mirrored(m: map<string, Entries>, r: map<Address, set<string>>) {
    forall n, a :: n in m && a in KeysOf(m[n]) ==> n in NamesIn(r, a)
  }

  predicate AllUnique(m: map<string, Entries>) {
    forall n :: n in m ==> UniqueKeys(m[n])
  }

  /** Mirrored, except that the names still to visit may list addr. */
  predicate MirroredExcept(m: map<string, Entries>, r: map<Address, set<string>>, addr: Address, todo: set<string>) {
    forall n, a :: n in m && a in KeysOf(m[n]) ==> (if a == addr then n in todo else n in NamesIn(r, a))
  }

  /** Recording name at addr in both indices keeps them mirrored. */
  lemma MirroredMark(m: map<string, Entries>, r: map<Address, set<string>>, name: string, addr: Address, e: Entries)
    requires Mirrored(m, r)
    requires KeysOf(e) <= KeysOf(EntriesIn(m, name)) + {addr}
    ensures Mirrored(m[name := e], r[addr := NamesIn(r, addr) + {name}])
  {
    var m', r' := m[name := e], r[addr := NamesIn(r, addr) + {name}];
    forall n, a | n in m' && a in KeysOf(m'[n])
      ensures n in NamesIn(r', a)
    {
      assert NamesIn(r, a) <= NamesIn(r', a);
      if n == name && a != addr {
        assert a in KeysOf(EntriesIn(m, name));
        assert name in m;
        assert n in NamesIn(r, a);
      } else if n != name {
        assert n in NamesIn(r, a);
      }
    }
  }

  /** Dropping addresses from one name's entries keeps the indices
      mirrored. */
  lemma MirroredShrink(m: map<string, Entries>, r: map<Address, set<string>>, name: string, e: Entries)
    requires Mirrored(m, r)
    requires KeysOf(e) <= KeysOf(EntriesIn(m, name))
    ensures Mirrored(m[name := e], r)
  {
  }

  /** Forgetting the pair (name, addr) on both sides keeps them mirrored. */
  lemma MirroredForget(m: map<string, Entries>, r: map<Address, set<string>>, name: string, addr: Address, e: Entries)
    requires Mirrored(m, r)
    requires KeysOf(e) <= KeysOf(EntriesIn(m, name)) - {addr}
    ensures Mirrored(m[name := e], r[addr := NamesIn(r, addr) - {name}])
  {
    var m', r' := m[name := e], r[addr := NamesIn(r, addr) - {name}];
    forall n, a | n in m' && a in KeysOf(m'[n])
      ensures n in NamesIn(r', a)
    {
      if n == name {
        assert a in KeysOf(EntriesIn(m, name)) && a != addr;
        assert name in m;
        assert n in NamesIn(r, a);
      } else {
        assert n in NamesIn(r, a);
      }
      if a == addr {
        assert n != name;
      } else {
        assert NamesIn(r', a) == NamesIn(r, a);
      }
    }
  }

  lemma MirroredExceptStart(m: map<string, Entries>, r: map<Address, set<string>>, addr: Address)
    requires Mirrored(m, r)
    ensures MirroredExcept(m, r - {addr}, addr, NamesIn(r, addr))
  {
    forall n, a | n in m && a in KeysOf(m[n])
      ensures if a == addr then n in NamesIn(r, addr) else n in NamesIn(r - {addr}, a)
    {
      assert n in NamesIn(r, a);
    }
  }

  lemma MirroredExceptStep(m: map<string, Entries>, r: map<Address, set<string>>, addr: Address, todo: set<string>, n: string, e: Entries)
    requires MirroredExcept(m, r, addr, todo) && n in todo
    requires KeysOf(e) <= KeysOf(EntriesIn(m, n)) - {addr}
    ensures MirroredExcept(m[n := e], r, addr, todo - {n})
  {
  }

  lemma MirroredExceptEnd(m: map<string, Entries>, r: map<Address, set<string>>, addr: Address)
    requires MirroredExcept(m, r, addr, {})
    ensures Mirrored(m, r)
  {
  }

  /** The name index after addr was popped from the entries of every
      name in names (a name absent from m gets an empty entry, as the
      default dictionary does). */
  function Forgotten(m: map<string, Entries>, addr: Address, names: set<string>): map<string, Entries> {
    map n | n in m.Keys + names :: if n in names then DictPop(EntriesIn(m, n), addr) else m[n]
  }

  lemma ForgottenStep(m: map<string, Entries>, addr: Address, done: set<string>, n: string)
    requires n !in done
    ensures EntriesIn(Forgotten(m, addr, done), n) == EntriesIn(m, n)
    ensures Forgotten(m, addr, done + {n}) == Forgotten(m, addr, done)[n := DictPop(EntriesIn(m, n), addr)]
  {
  }

  /** One name visited by mark_server_disconnected. */
  lemma DisconnectStep(m0: map<string, Entries>, m: map<string, Entries>, r: map<Address, set<string>>,
                       addr: Address, all: set<string>, todo: set<string>, n: string)
    requires todo <= all && n in todo
    requires m == Forgotten(m0, addr, all - todo)
    requires AllUnique(m) && MirroredExcept(m, r, addr, todo)
    ensures m[n := DictPop(EntriesIn(m, n), addr)] == Forgotten(m0, addr, all - (todo - {n}))
    ensures AllUnique(m[n := DictPop(EntriesIn(m, n), addr)])
    ensures MirroredExcept(m[n := DictPop(EntriesIn(m, n), addr)], r, addr, todo - {n})
  {
    ForgottenStep(m0, addr, all - todo, n);
    assert (all - todo) + {n} == all - (todo - {n});
    DictPopSpec(EntriesIn(m, n), addr);
    if n !in m {
      assert UniqueKeys(EntriesIn(m, n));
    }
    MirroredExceptStep(m, r, addr, todo, n, DictPop(EntriesIn(m, n), addr));
  }

  /** Once every name listed for addr has dropped it, no name keeps addr. */
  lemma ForgottenClears(m: map<string, Entries>, r: map<Address, set<string>>, addr: Address)
    requires Mirrored(m, r)
    ensures forall n :: n in Forgotten(m, addr, NamesIn(r, addr)) ==> addr !in KeysOf(Forgotten(m, addr, NamesIn(r, addr))[n])
  {
    var f := Forgotten(m, addr, NamesIn(r, addr));
    forall n | n in f
      ensures addr !in KeysOf(f[n])
    {
      if n in NamesIn(r, addr) {
        DictPopSpec(EntriesIn(m, n), addr);
      }
    }
  }

  // ---------------------------------------------------------------------
  // cancel, as written and as intended.

  /** cancel as written: `_searches_by_name` holds the search item itself,
      so the value popped for a name is never a key of
      `_unanswered_searches` and the pending search stays. Returns the new
      by-name table and the new unanswered table. */
  function CancelAsWritten(byName: map<string, UnansweredSearch>, unanswered: map<nat, UnansweredSearch>,
                           names: seq<string>): (r: (map<string, UnansweredSearch>, map<nat, UnansweredSearch>))
    ensures r.1 == unanswered
    ensures forall n :: n in r.0 <==> n in byName && n !in names
    decreases |names|
  {
    if names == [] then (byName, unanswered)
    else CancelAsWritten(byName - {names[0]}, unanswered, names[1..])
  }

  /** A search for "pv" with id 7 followed by cancel("pv"): as written the
      search is still pending. */
  lemma CancelAsWrittenKeepsPending()
    ensures var item := UnansweredSearch("pv", 0, 0, 100);
            7 in CancelAsWritten(map["pv" := item], map[7 := item], ["pv"]).1
  {
  }

  class SearchResults {
    var nameToAddrs: map<string, Entries>
    var addrToNames: map<Address, set<string>>
    var unansweredSearches: map<nat, UnansweredSearch>
    var searches: map<nat, UnansweredSearch>
    /** The id of the latest search for each name (see cancel). */
    var searchesByName: map<string, nat>

    /** Every address recorded for a name lists that name in the reverse
        index, and no name holds an address twice. The reverse index may
        keep names whose result has expired: expiry only prunes the forward
        side. */
    predicate Valid()
      reads this
    {
      Mirrored(nameToAddrs, addrToNames) && AllUnique(nameToAddrs)
    }

    function Entries(name: string): Entries
      reads this
    {
      EntriesIn(nameToAddrs, name)
    }

    function Names(addr: Address): set<string>
      reads this
    {
      NamesIn(addrToNames, addr)
    }

    constructor()
      ensures Valid()
      ensures nameToAddrs == map[] && addrToNames == map[]
      ensures unansweredSearches == map[] && searches == map[] && searchesByName == map[]
    {
      nameToAddrs := map[];
      addrToNames := map[];
      unansweredSearches := map[];
      searches := map[];
      searchesByName := map[];
    }

    /** `name in results`: some address is on record for the name. */
    predicate Contains(name: string)
      reads this
      ensures Contains(name) <==> exists a :: Lookup(Entries(name), a).Some?
    {
      ContainsSpec(Entries(name));
      Entries(name) != []
    }

    /** Record a name at an address in both indices. */
    method Mark(name: string, addr: Address, stamp: Stamp)
      requires Valid()
      modifies this`nameToAddrs, this`addrToNames
      ensures Valid()
      ensures nameToAddrs == old(nameToAddrs)[name := DictSet(old(Entries(name)), addr, stamp)]
      ensures addrToNames == old(addrToNames)[addr := old(Names(addr)) + {name}]
      ensures Lookup(Entries(name), addr) == Some(stamp) && name in Names(addr)
    {
      DictSetSpec(Entries(name), addr, stamp);
      MirroredMark(nameToAddrs, addrToNames, name, addr, DictSet(Entries(name), addr, stamp));
      nameToAddrs := nameToAddrs[name := DictSet(Entries(name), addr, stamp)];
      addrToNames := addrToNames[addr := Names(addr) + {name}];
    }

    /** mark_name_found: the name answered from the address at time now. */
    method MarkNameFound(name: string, addr: Address, now: int)
      requires Valid()
      modifies this`nameToAddrs, this`addrToNames
      ensures Valid()
      ensures nameToAddrs == old(nameToAddrs)[name := DictSet(old(Entries(name)), addr, FoundAt(now))]
      ensures addrToNames == old(addrToNames)[addr := old(Names(addr)) + {name}]
      ensures Lookup(Entries(name), addr) == Some(FoundAt(now)) && name in Names(addr)
    {
      Mark(name, addr, FoundAt(now));
    }

    /** mark_channel_created: a channel to the name is connected at the
        address, which makes the result permanent. */
    method MarkChannelCreated(name: string, addr: Address)
      requires Valid()
      modifies this`nameToAddrs, this`addrToNames
      ensures Valid()
      ensures nameToAddrs == old(nameToAddrs)[name := DictSet(old(Entries(name)), addr, ValidChannel)]
      ensures addrToNames == old(addrToNames)[addr := old(Names(addr)) + {name}]
      ensures Lookup(Entries(name), addr) == Some(ValidChannel) && name in Names(addr)
    {
      Mark(name, addr, ValidChannel);
    }

    /** mark_channel_disconnected: forget the pair in both indices (the
        default dictionaries create empty entries for unknown keys). */
    method MarkChannelDisconnected(name: string, addr: Address)
      requires Valid()
      modifies this`nameToAddrs, this`addrToNames
      ensures Valid()
      ensures addrToNames == old(addrToNames)[addr := old(Names(addr)) - {name}]
      ensures nameToAddrs == old(nameToAddrs)[name := DictPop(old(Entries(name)), addr)]
      ensures addr !in KeysOf(Entries(name)) && name !in Names(addr)
    {
      DictPopSpec(Entries(name), addr);
      MirroredForget(nameToAddrs, addrToNames, name, addr, DictPop(Entries(name), addr));
      addrToNames := addrToNames[addr := Names(addr) - {name}];
      nameToAddrs := nameToAddrs[name := DictPop(Entries(name), addr)];
    }

    /** mark_server_disconnected: drop the address from the reverse index
        and from the entries of every name it listed. */
    method MarkServerDisconnected(addr: Address)
      requires Valid()
      modifies this`nameToAddrs, this`addrToNames
      ensures Valid()
      ensures addrToNames == old(addrToNames) - {addr}
      ensures nameToAddrs == Forgotten(old(nameToAddrs), addr, old(Names(addr)))
      ensures forall n :: n in nameToAddrs ==> addr !in KeysOf(nameToAddrs[n])
    {
      var names := Names(addr);
      ForgottenClears(nameToAddrs, addrToNames, addr);
      MirroredExceptStart(nameToAddrs, addrToNames, addr);
      addrToNames := addrToNames - {addr};
      ForgetNames(addr, names);
      MirroredExceptEnd(nameToAddrs, addrToNames, addr);
    }

    /** mark_server_disconnected's loop: pop addr from the entries of each
        of the names, one name at a time. */
    method ForgetNames(addr: Address, names: set<string>)
      requires AllUnique(nameToAddrs) && MirroredExcept(nameToAddrs, addrToNames, addr, names)
      modifies this`nameToAddrs
      ensures nameToAddrs == Forgotten(old(nameToAddrs), addr, names)
      ensures AllUnique(nameToAddrs) && MirroredExcept(nameToAddrs, addrToNames, addr, {})
    {
      ghost var m0 := nameToAddrs;
      var todo := names;
      assert nameToAddrs == Forgotten(m0, addr, names - todo);
      while todo != {}
        invariant todo <= names
        invariant nameToAddrs == Forgotten(m0, addr, names - todo)
        invariant AllUnique(nameToAddrs)
        invariant MirroredExcept(nameToAddrs, addrToNames, addr, todo)
        decreases |todo|
      {
        var n :| n in todo;
        DisconnectStep(m0, nameToAddrs, addrToNames, addr, names, todo, n);
        nameToAddrs := nameToAddrs[n := DictPop(Entries(n), addr)];
        todo := todo - {n};
      }
      assert names - todo == names;
    }

    /** get_cached_search_result: drop the expired entries of the name and
        answer with a marker address if there is one, else the last good
        address, else CaprotoKeyError. */
    method GetCachedSearchResult(name: string, now: int, threshold: int) returns (r: Result<Address>)
      requires Valid()
      modifies this`nameToAddrs
      ensures Valid()
      ensures nameToAddrs == old(nameToAddrs)[name := Keep(old(Entries(name)), now, threshold)]
      ensures r.Err? <==> CachedAddress(old(Entries(name)), now, threshold).None?
      ensures r.Err? ==> r.error == CaprotoKeyError
      ensures r.Ok? ==> Some(r.value) == CachedAddress(old(Entries(name)), now, threshold)
    {
      var entry := Entries(name);
      var kept: Entries := [];
      var resultAddr: Option<Address> := None;
      var resultIsMarker := false;
      var i := 0;
      while i < |entry|
        invariant 0 <= i <= |entry|
        invariant kept == Keep(entry[..i], now, threshold)
        invariant resultIsMarker <==> FirstMarker(entry[..i]).Some?
        invariant resultAddr == CachedAddress(entry[..i], now, threshold)
        invariant nameToAddrs == old(nameToAddrs)
      {
        var (a, t) := entry[i];
        ScanStep(entry, i, now, threshold);
        if Live(t, now, threshold) {
          if !resultIsMarker {
            resultAddr := Some(a);
            resultIsMarker := t.ValidChannel?;
          }
          kept := kept + [entry[i]];
        }
        i := i + 1;
      }
      assert entry[..i] == entry;
      assert kept == Keep(entry, now, threshold);
      KeepUnique(entry, now, threshold);
      MirroredShrink(nameToAddrs, addrToNames, name, kept);
      nameToAddrs := nameToAddrs[name := kept];
      if resultAddr.Some? {
        return Ok(resultAddr.value);
      }
      return Err(CaprotoKeyError);
    }

    /** received_search_response: the first answer to a pending search
        retires it and yields the name and its queue; an answer to a search
        answered before is a DuplicateSearchResponse and an unknown id an
        UnknownSearchResponse. Any known answer records the address. */
    method ReceivedSearchResponse(cid: nat, addr: Address, now: int) returns (r: Result<(string, nat)>)
      requires Valid()
      modifies this`nameToAddrs, this`addrToNames, this`unansweredSearches
      ensures Valid()
      ensures unansweredSearches == old(unansweredSearches) - {cid}
      ensures cid in old(unansweredSearches) || cid in searches ==>
        var info := if cid in old(unansweredSearches) then old(unansweredSearches[cid]) else searches[cid];
        nameToAddrs == old(nameToAddrs)[info.name := DictSet(old(Entries(info.name)), addr, FoundAt(now))] &&
        addrToNames == old(addrToNames)[addr := old(Names(addr)) + {info.name}] &&
        Lookup(Entries(info.name), addr) == Some(FoundAt(now))
      ensures cid in old(unansweredSearches) ==>
        var info := old(unansweredSearches[cid]);
        r == Ok((info.name, info.resultsQueue))
      ensures cid !in old(unansweredSearches) && cid in searches ==>
        r == Err(DuplicateSearchResponse)
      ensures cid !in old(unansweredSearches) && cid !in searches ==>
        r == Err(UnknownSearchResponse) && nameToAddrs == old(nameToAddrs) && addrToNames == old(addrToNames)
    {
      var info: UnansweredSearch;
      var first := true;
      if cid in unansweredSearches {
        info := unansweredSearches[cid];
        unansweredSearches := unansweredSearches - {cid};
      } else {
        first := false;
        if cid !in searches {
          return Err(UnknownSearchResponse);
        }
        info := searches[cid];
      }
      MarkNameFound(info.name, addr, now);
      if first {
        return Ok((info.name, info.resultsQueue));
      }
      return Err(DuplicateSearchResponse);
    }

    /** items_to_retry: every pending search when the threshold is falsy
        (None or 0), else those not yet retired and not sent since the
        resend deadline. */
    function ItemsToRetry(threshold: Option<int>, resendDeadline: int): (r: map<nat, UnansweredSearch>)
      reads this
      ensures forall id :: id in r ==> id in unansweredSearches && r[id] == unansweredSearches[id]
      ensures forall id :: id in unansweredSearches ==>
        (id in r <==> (threshold == None || threshold == Some(0) ||
          (unansweredSearches[id].retirementDeadline > threshold.value &&
           unansweredSearches[id].lastSent < resendDeadline)))
    {
      if threshold == None || threshold == Some(0) then unansweredSearches
      else map id | id in unansweredSearches &&
                    unansweredSearches[id].retirementDeadline > threshold.value &&
                    unansweredSearches[id].lastSent < resendDeadline :: unansweredSearches[id]
    }

    /** search: one new pending search per name, never sent yet, under the
        ids the counter hands out, which avoid the pending ones. */
    method Search(names: seq<string>, ids: seq<nat>, resultsQueue: nat, retirementDeadline: int)
      requires |ids| == |names|
      requires forall i, j :: 0 <= i < j < |ids| ==> ids[i] != ids[j]
      requires forall i :: 0 <= i < |ids| ==> ids[i] !in unansweredSearches
      modifies this`unansweredSearches, this`searches, this`searchesByName
      ensures forall i :: 0 <= i < |names| ==>
        var item := UnansweredSearch(names[i], resultsQueue, 0, retirementDeadline);
        ids[i] in unansweredSearches && unansweredSearches[ids[i]] == item &&
        ids[i] in searches && searches[ids[i]] == item
      ensures forall id :: id in unansweredSearches <==> id in old(unansweredSearches) || id in ids
      ensures forall id :: id in old(unansweredSearches) ==> unansweredSearches[id] == old(unansweredSearches[id])
      ensures forall n :: n in searchesByName <==> n in old(searchesByName) || n in names
      ensures forall n :: n in names ==> searchesByName[n] in ids && searches[searchesByName[n]].name == n
      ensures forall id :: id in searches <==> id in old(searches) || id in ids
      ensures forall id :: id in old(searches) && id !in ids ==> searches[id] == old(searches[id])
      ensures forall n :: n in old(searchesByName) && n !in names ==> searchesByName[n] == old(searchesByName[n])
    {
      var i := 0;
      while i < |names|
        invariant 0 <= i <= |names|
        invariant forall k :: 0 <= k < i ==>
          var item := UnansweredSearch(names[k], resultsQueue, 0, retirementDeadline);
          ids[k] in unansweredSearches && unansweredSearches[ids[k]] == item &&
          ids[k] in searches && searches[ids[k]] == item
        invariant forall id :: id in unansweredSearches <==> id in old(unansweredSearches) || id in ids[..i]
        invariant forall id :: id in old(unansweredSearches) ==> unansweredSearches[id] == old(unansweredSearches[id])
        invariant forall n :: n in searchesByName <==> n in old(searchesByName) || n in names[..i]
        invariant forall n :: n in names[..i] ==> searchesByName[n] in ids[..i] && searches[searchesByName[n]].name == n
        invariant forall id :: id in searches <==> id in old(searches) || id in ids[..i]
        invariant forall id :: id in old(searches) && id !in ids[..i] ==> searches[id] == old(searches[id])
        invariant forall n :: n in old(searchesByName) && n !in names[..i] ==> searchesByName[n] == old(searchesByName[n])
      {
        var item := UnansweredSearch(names[i], resultsQueue, 0, retirementDeadline);
        unansweredSearches := unansweredSearches[ids[i] := item];
        searches := searches[ids[i] := item];
        searchesByName := searchesByName[names[i] := ids[i]];
        assert names[..i + 1] == names[..i] + [names[i]];
        assert ids[..i + 1] == ids[..i] + [ids[i]];
        i := i + 1;
      }
      assert names[..i] == names && ids[..i] == ids;
    }

    /** cancel: forget the latest search for each name and retire it. */
    method Cancel(names: seq<string>)
      modifies this`searchesByName, this`unansweredSearches
      ensures forall n :: n in searchesByName <==> n in old(searchesByName) && n !in names
      ensures forall n :: n in names && n in old(searchesByName) ==> old(searchesByName[n]) !in unansweredSearches
      ensures forall id :: id in unansweredSearches <==>
        id in old(unansweredSearches) && forall n :: n in names && n in old(searchesByName) ==> id != old(searchesByName[n])
      ensures forall n :: n in searchesByName ==> searchesByName[n] == old(searchesByName[n])
      ensures forall id :: id in unansweredSearches ==> unansweredSearches[id] == old(unansweredSearches[id])
    {
      var i := 0;
      while i < |names|
        invariant 0 <= i <= |names|
        invariant forall n :: n in searchesByName <==> n in old(searchesByName) && n !in names[..i]
        invariant forall n :: n in searchesByName ==> searchesByName[n] == old(searchesByName[n])
        invariant forall id :: id in unansweredSearches <==>
          id in old(unansweredSearches) && forall n :: n in names[..i] && n in old(searchesByName) ==> id != old(searchesByName[n])
        invariant forall id :: id in unansweredSearches ==> unansweredSearches[id] == old(unansweredSearches[id])
      {
        assert names[..i + 1] == names[..i] + [names[i]];
        if names[i] in searchesByName {
          var cid := searchesByName[names[i]];
          searchesByName := searchesByName - {names[i]};
          unansweredSearches := unansweredSearches - {cid};
        }
        i := i + 1;
      }
      assert names[..i] == names;
    }

    /** clear: forget every result and every search. */
    method Clear()
      modifies this
      ensures Valid()
      ensures nameToAddrs == map[] && addrToNames == map[]
      ensures unansweredSearches == map[] && searches == map[] && searchesByName == map[]
    {
      nameToAddrs := map[];
      addrToNames := map[];
      unansweredSearches := map[];
      searches := map[];
      searchesByName := map[];
    }

    /** split_cached_results: look every name up in the cache; names with a
        good result are grouped by address, the others need a search. */
    method SplitCachedResults(names: seq<string>, now: int, threshold: int)
      returns (useCached: map<Address, seq<string>>, needsSearch: seq<string>)
      requires Valid()
      modifies this`nameToAddrs
      ensures Valid()
      ensures nameToAddrs == PruneAll(old(nameToAddrs), names, now, threshold)
      ensures needsSearch == NeedsSearch(old(nameToAddrs), names, now, threshold)
      ensures useCached == Grouping(old(nameToAddrs), names, now, threshold)
    {
      ghost var m0 := nameToAddrs;
      useCached := map[];
      needsSearch := [];
      var i := 0;
      while i < |names|
        invariant 0 <= i <= |names|
        invariant Valid()
        invariant nameToAddrs == PruneAll(m0, names[..i], now, threshold)
        invariant needsSearch == NeedsSearch(m0, names[..i], now, threshold)
        invariant useCached == Grouping(m0, names[..i], now, threshold)
      {
        var n := names[i];
        SplitStep(m0, names, i, now, threshold);
        var address := GetCachedSearchResult(n, now, threshold);
        if address.Err? {
          needsSearch := needsSearch + [n];
        } else {
          var bucket := if address.value in useCached then useCached[address.value] else [];
          useCached := useCached[address.value := bucket + [n]];
        }
        i := i + 1;
      }
      assert names[..i] == names;
    }
  }
}
