/** `DefaultDiscoveryEngine.discoverTokens`: one earliest sighting of every token. */
module Discovery {
  import opened Prelude

  datatype Source = Source(recordId: string, txHash: string, logIndex: nat)

  /** What a rule emits, and what the engine keeps of it. */
  datatype Sighting = Sighting(chainId: int, tokenAddress: string, blockNumber: nat, reason: string, source: Source)

  datatype RawRecord = RawRecord(recordType: Option<string>, fields: map<string, string>)

  /** `None` when the rule throws. */
  type Rule = RawRecord -> Option<seq<Sighting>>

  type Registry = string -> seq<Rule>

  datatype Batch = Batch(chainId: int, blockStart: nat, blockEnd: nat, tokens: seq<Sighting>)

  // --- The order of sightings --------------------------------------------------------------------------------

  /** `localeCompare` on the lower-case hexadecimal text of hashes: lexicographic. */
  function CompareText(a: string, b: string): int {
    if a == [] then (if b == [] then 0 else -1)
    else if b == [] then 1
    else if a[0] != b[0] then (if a[0] < b[0] then -1 else 1)
    else CompareText(a[1..], b[1..])
  }

  function Compare(a: Sighting, b: Sighting): int {
    if a.blockNumber != b.blockNumber then a.blockNumber - b.blockNumber
    else if a.source.txHash != b.source.txHash then CompareText(a.source.txHash, b.source.txHash)
    else a.source.logIndex - b.source.logIndex
  }

  lemma {:induction false} TextOrder(a: string, b: string, c: string)
    ensures CompareText(a, b) == -CompareText(b, a)
    ensures CompareText(a, b) == 0 <==> a == b
    ensures CompareText(a, b) <= 0 && CompareText(b, c) <= 0 ==> CompareText(a, c) <= 0
    decreases a
  {
    if a != [] {
      TextOrder(a[1..], if b == [] then [] else b[1..], if c == [] then [] else c[1..]);
      if b != [] {
        assert a == [a[0]] + a[1..] && b == [b[0]] + b[1..];
      }
    }
  }

  /** The comparator is a total preorder whose ties are equal coordinates. */
  lemma SightingOrder(a: Sighting, b: Sighting, c: Sighting)
    ensures Compare(a, b) <= 0 <==> Compare(b, a) >= 0
    ensures Compare(a, b) == 0 <==> Place(a) == Place(b)
    ensures Compare(a, b) <= 0 && Compare(b, c) <= 0 ==> Compare(a, c) <= 0
  {
    hide CompareText;
    TextOrder(a.source.txHash, b.source.txHash, c.source.txHash);
    TextOrder(b.source.txHash, c.source.txHash, a.source.txHash);
    TextOrder(a.source.txHash, c.source.txHash, b.source.txHash);
  }

  /** Where in the chain a sighting was made. */
  function Place(s: Sighting): (nat, string, nat) {
    (s.blockNumber, s.source.txHash, s.source.logIndex)
  }

  // --- Stable sorting ----------------------------------------------------------------------------------------

  predicate Ordered(s: seq<Sighting>) {
    forall i, j :: 0 <= i < j < |s| ==> Compare(s[i], s[j]) <= 0
  }

  /** The elements at the same place as `z`, in order. */
  function Ties(s: seq<Sighting>, z: Sighting): seq<Sighting> {
    if s == [] then [] else (if Compare(s[0], z) == 0 then [s[0]] else []) + Ties(s[1..], z)
  }

  function InsertBefore(x: Sighting, s: seq<Sighting>): (r: seq<Sighting>)
    ensures |r| == |s| + 1
  {
    if s == [] || Compare(x, s[0]) <= 0 then [x] + s else [s[0]] + InsertBefore(x, s[1..])
  }

  /** `Array.prototype.sort`, which is stable. */
  function Sorted(s: seq<Sighting>): (r: seq<Sighting>)
    ensures |r| == |s|
  {
    if s == [] then [] else InsertBefore(s[0], Sorted(s[1..]))
  }

  lemma OrderedCons(x: Sighting, s: seq<Sighting>)
    requires Ordered(s) && forall y :: y in s ==> Compare(x, y) <= 0
    ensures Ordered([x] + s)
  {
  }

  lemma HeadIsLeast(s: seq<Sighting>, y: Sighting)
    requires Ordered(s) && y in s
    ensures Compare(s[0], y) <= 0 && Ordered(s[1..])
  {
  }

  lemma {:induction false} InsertBeforePermutes(x: Sighting, s: seq<Sighting>)
    ensures multiset(InsertBefore(x, s)) == multiset{x} + multiset(s)
  {
    hide Compare;
    if s != [] {
      assert s == [s[0]] + s[1..];
      InsertBeforePermutes(x, s[1..]);
    }
  }

  lemma {:induction false} InsertBeforeOrders(x: Sighting, s: seq<Sighting>)
    requires Ordered(s)
    ensures Ordered(InsertBefore(x, s))
  {
    hide Compare, Ordered;
    if s == [] {
      OrderedCons(x, s);
    } else if Compare(x, s[0]) <= 0 {
      forall y | y in s
        ensures Compare(x, y) <= 0
      {
        HeadIsLeast(s, y);
        SightingOrder(x, s[0], y);
      }
      OrderedCons(x, s);
    } else {
      var rest := InsertBefore(x, s[1..]);
      HeadIsLeast(s, s[0]);
      InsertBeforeOrders(x, s[1..]);
      InsertBeforePermutes(x, s[1..]);
      forall y | y in rest
        ensures Compare(s[0], y) <= 0
      {
        SightingOrder(x, s[0], x);
        assert y in multiset(rest);
        if y != x {
          assert y in s;
          HeadIsLeast(s, y);
        }
      }
      OrderedCons(s[0], rest);
    }
  }

  lemma {:induction false} InsertBeforeKeepsTies(x: Sighting, s: seq<Sighting>, z: Sighting)
    ensures Ties(InsertBefore(x, s), z) == Ties([x] + s, z)
  {
    hide Compare;
    assert ([x] + s)[1..] == s;
    if s != [] && Compare(x, s[0]) > 0 {
      InsertBeforeKeepsTies(x, s[1..], z);
      assert InsertBefore(x, s)[1..] == InsertBefore(x, s[1..]) && ([x] + s[1..])[1..] == s[1..];
      NoCommonTie(x, s[0], z);
    }
  }

  lemma NoCommonTie(x: Sighting, y: Sighting, z: Sighting)
    requires Compare(x, y) > 0
    ensures !(Compare(x, z) == 0 && Compare(y, z) == 0)
  {
    hide CompareText;
    SightingOrder(x, z, y);
    SightingOrder(y, z, y);
    SightingOrder(x, y, x);
  }

  /** Sorting orders the elements and keeps the order of ties. */
  lemma {:induction false} SortedIsStable(s: seq<Sighting>, z: Sighting)
    ensures Ordered(Sorted(s)) && multiset(Sorted(s)) == multiset(s)
    ensures Ties(Sorted(s), z) == Ties(s, z)
  {
    if s != [] {
      SortedIsStable(s[1..], z);
      InsertBeforeOrders(s[0], Sorted(s[1..]));
      InsertBeforePermutes(s[0], Sorted(s[1..]));
      InsertBeforeKeepsTies(s[0], Sorted(s[1..]), z);
      assert s == [s[0]] + s[1..];
      assert ([s[0]] + Sorted(s[1..]))[1..] == Sorted(s[1..]);
    }
  }

  lemma {:induction false} TiesMembers(s: seq<Sighting>, z: Sighting)
    ensures forall x :: x in Ties(s, z) <==> x in s && Compare(x, z) == 0
  {
    if s != [] {
      TiesMembers(s[1..], z);
    }
  }

  /** So every stable sort gives the same sequence. */
  lemma {:induction false} StableSortIsUnique(s: seq<Sighting>, t: seq<Sighting>)
    requires Ordered(s) && Ordered(t) && forall z :: Ties(s, z) == Ties(t, z)
    ensures s == t
    decreases |s|
  {
    hide Compare;
    if s == [] || t == [] {
      var z := if s != [] then s[0] else if t != [] then t[0] else Sighting(0, "", 0, "", Source("", "", 0));
      SightingOrder(z, z, z);
      assert Ties(s, z) == Ties(t, z);
    } else {
      var x, y := s[0], t[0];
      SightingOrder(x, x, x);
      SightingOrder(y, y, y);
      SightingOrder(x, y, x);
      TiesMembers(t, x);
      TiesMembers(s, y);
      assert x in Ties(s, x) && Ties(s, x) == Ties(t, x) && x in t;
      assert y in Ties(t, y) && Ties(s, y) == Ties(t, y) && y in s;
      HeadIsLeast(s, y);
      HeadIsLeast(t, x);
      assert Ties(s, x)[0] == x && Ties(t, x)[0] == y;
      forall z
        ensures Ties(s[1..], z) == Ties(t[1..], z)
      {
        assert Ties(s, z) == Ties(t, z);
        var head := if Compare(x, z) == 0 then [x] else [];
        assert Ties(s[1..], z) == Ties(s, z)[|head|..] && Ties(t[1..], z) == Ties(t, z)[|head|..];
      }
      StableSortIsUnique(s[1..], t[1..]);
      assert s == [x] + s[1..] && t == [y] + t[1..];
    }
  }

  // --- Collecting, grouping, taking the first ----------------------------------------------------------------

  function FromRules(rules: seq<Rule>, rec: RawRecord): seq<Sighting> {
    if rules == [] then []
    else
      var last := rules[|rules| - 1](rec);
      FromRules(rules[..|rules| - 1], rec) + (if last.Some? then last.value else [])
  }

  function FromRecord(registry: Registry, rec: RawRecord): seq<Sighting> {
    if rec.recordType.None? then [] else FromRules(registry(rec.recordType.value), rec)
  }

  /** All candidates of the records, a throwing rule contributing none. */
  function Candidates(registry: Registry, records: seq<RawRecord>): seq<Sighting> {
    if records == [] then []
    else Candidates(registry, records[..|records| - 1]) + FromRecord(registry, records[|records| - 1])
  }

  function OnChain(cs: seq<Sighting>, chainId: int): seq<Sighting> {
    if cs == [] then []
    else
      var last := cs[|cs| - 1];
      OnChain(cs[..|cs| - 1], chainId) + (if last.chainId == chainId then [last] else [])
  }

  /** The addresses in the order in which the grouping map first meets them. */
  function Addresses(cs: seq<Sighting>): seq<string> {
    if cs == [] then []
    else
      var seen := Addresses(cs[..|cs| - 1]);
      var a := cs[|cs| - 1].tokenAddress;
      if a in seen then seen else seen + [a]
  }

  function Group(cs: seq<Sighting>, a: string): seq<Sighting> {
    if cs == [] then []
    else
      var last := cs[|cs| - 1];
      Group(cs[..|cs| - 1], a) + (if last.tokenAddress == a then [last] else [])
  }

  lemma {:induction false} GroupMembers(cs: seq<Sighting>, a: string)
    ensures forall c :: c in Group(cs, a) <==> c in cs && c.tokenAddress == a
    ensures a in Addresses(cs) <==> Group(cs, a) != []
  {
    if cs != [] {
      GroupMembers(cs[..|cs| - 1], a);
      assert cs == cs[..|cs| - 1] + [cs[|cs| - 1]];
    }
  }

  /** The winner of one address: the head of its sorted group. */
  function Winner(cs: seq<Sighting>, a: string): Sighting
    requires a in Addresses(cs)
  {
    GroupMembers(cs, a);
    Sorted(Group(cs, a))[0]
  }

  function Winners(cs: seq<Sighting>, addresses: seq<string>): seq<Sighting>
    requires forall a :: a in addresses ==> a in Addresses(cs)
  {
    seq(|addresses|, i requires 0 <= i < |addresses| => Winner(cs, addresses[i]))
  }

  function Discovered(cs: seq<Sighting>): seq<Sighting> {
    Sorted(Winners(cs, Addresses(cs)))
  }

  /** `discoverTokens`. */
  function Discover(registry: Registry, records: seq<RawRecord>, chainId: int): seq<Sighting> {
    Discovered(OnChain(Candidates(registry, records), chainId))
  }

  method ApplyRules(rules: seq<Rule>, rec: RawRecord) returns (found: seq<Sighting>)
    ensures found == FromRules(rules, rec)
  {
    found := [];
    for j := 0 to |rules|
      invariant found == FromRules(rules[..j], rec)
    {
      assert rules[..j + 1][..j] == rules[..j];
      var emitted := rules[j](rec);
      if emitted.Some? {
        found := found + emitted.value;
      }
    }
    assert rules[..|rules|] == rules;
  }

  method CollectCandidates(registry: Registry, records: seq<RawRecord>) returns (all: seq<Sighting>)
    ensures all == Candidates(registry, records)
  {
    hide FromRules;
    all := [];
    for i := 0 to |records|
      invariant all == Candidates(registry, records[..i])
    {
      assert records[..i + 1][..i] == records[..i];
      if records[i].recordType.Some? {
        var found := ApplyRules(registry(records[i].recordType.value), records[i]);
        all := all + found;
      }
    }
    assert records[..|records|] == records;
  }

  /** `order` is the iteration order of the map. */
  method GroupByAddress(all: seq<Sighting>, chainId: int)
    returns (order: seq<string>, grouped: map<string, seq<Sighting>>)
    ensures order == Addresses(OnChain(all, chainId)) && grouped.Keys == set a | a in order
    ensures forall a :: a in grouped ==> grouped[a] == Group(OnChain(all, chainId), a)
  {
    order, grouped := [], map[];
    ghost var cs: seq<Sighting> := [];
    for i := 0 to |all|
      invariant cs == OnChain(all[..i], chainId)
      invariant order == Addresses(cs) && grouped.Keys == set a | a in order
      invariant forall a :: a in grouped ==> grouped[a] == Group(cs, a)
    {
      assert all[..i + 1][..i] == all[..i];
      var c := all[i];
      if c.chainId == chainId {
        var key := c.tokenAddress;
        GroupMembers(cs, key);
        var list := if key in grouped then grouped[key] else [];
        order := if key in grouped then order else order + [key];
        grouped := grouped[key := list + [c]];
        assert (cs + [c])[..|cs|] == cs;
        cs := cs + [c];
      }
    }
    assert all[..|all|] == all;
  }

  method DiscoverTokens(registry: Registry, records: seq<RawRecord>, chainId: int, blockStart: nat, blockEnd: nat)
    returns (batch: Batch)
    ensures batch == Batch(chainId, blockStart, blockEnd, Discover(registry, records, chainId))
  {
    hide Group, Addresses, OnChain, Candidates, Sorted;
    var all := CollectCandidates(registry, records);
    var order, grouped := GroupByAddress(all, chainId);
    ghost var cs := OnChain(all, chainId);
    var unique: seq<Sighting> := [];
    for i := 0 to |order|
      invariant unique == Winners(cs, order[..i])
    {
      GroupMembers(cs, order[i]);
      var sorted := Sorted(grouped[order[i]]);
      unique := unique + [sorted[0]];
    }
    assert order[..|order|] == order;
    batch := Batch(chainId, blockStart, blockEnd, Sorted(unique));
  }

  // --- Discovery is a per-address minimum ----------------------------------------------------------------------

  /** `t` is a candidate, and no candidate for its address comes before it. */
  predicate IsEarliest(cs: seq<Sighting>, t: Sighting) {
    t in cs && forall c :: c in cs && c.tokenAddress == t.tokenAddress ==> Compare(t, c) <= 0
  }

  predicate DistinctAddresses(tokens: seq<Sighting>) {
    forall i, j :: 0 <= i < j < |tokens| ==> tokens[i].tokenAddress != tokens[j].tokenAddress
  }

  lemma WinnerIsEarliest(cs: seq<Sighting>, a: string)
    requires a in Addresses(cs)
    ensures Winner(cs, a).tokenAddress == a && IsEarliest(cs, Winner(cs, a))
  {
    hide Compare, Addresses, Group, Sorted;
    var g := Group(cs, a);
    GroupMembers(cs, a);
    var w := Winner(cs, a);
    var s := Sorted(g);
    SortedIsStable(g, w);
    assert w == s[0] && w in multiset(s) && w in multiset(g) && w in g;
    forall c | c in cs && c.tokenAddress == a
      ensures Compare(w, c) <= 0
    {
      assert c in g && c in multiset(g) && c in multiset(s) && c in s;
      SightingOrder(w, w, w);
    }
  }

  lemma {:induction false} AddressesDiffer(cs: seq<Sighting>)
    ensures forall i, j :: 0 <= i < j < |Addresses(cs)| ==> Addresses(cs)[i] != Addresses(cs)[j]
  {
    if cs != [] {
      AddressesDiffer(cs[..|cs| - 1]);
    }
  }

  lemma {:induction false} CountOfDistinct(s: seq<Sighting>, x: Sighting)
    requires DistinctAddresses(s)
    ensures multiset(s)[x] <= 1
  {
    if s != [] {
      assert s == [s[0]] + s[1..];
      CountOfDistinct(s[1..], x);
      forall n | 0 <= n < |s[1..]|
        ensures s[1..][n] != s[0]
      {
        assert s[1..][n] == s[n + 1];
      }
    }
  }

  /** Reordering keeps addresses distinct. */
  lemma DistinctByCount(s: seq<Sighting>, t: seq<Sighting>)
    requires multiset(s) == multiset(t) && DistinctAddresses(s)
    ensures DistinctAddresses(t)
  {
    forall i, j | 0 <= i < j < |t|
      ensures t[i].tokenAddress != t[j].tokenAddress
    {
      assert t[i] in multiset(t) && t[j] in multiset(t);
      assert t[i] in s && t[j] in s;
      assert t == t[..i] + [t[i]] + t[i + 1..j] + [t[j]] + t[j + 1..];
      assert multiset(t) >= multiset{t[i], t[j]};
      CountOfDistinct(s, t[i]);
    }
  }

  /** Each address of a candidate appears once, with an earliest sighting, in order of place. */
  lemma DiscoveryIsMinimum(cs: seq<Sighting>)
    ensures Ordered(Discovered(cs)) && DistinctAddresses(Discovered(cs))
    ensures forall t :: t in Discovered(cs) ==> IsEarliest(cs, t)
    ensures forall c :: c in cs ==> exists t :: t in Discovered(cs) && t.tokenAddress == c.tokenAddress
  {
    hide Compare, Group, Sorted, Winner, IsEarliest;
    var addresses := Addresses(cs);
    var ws := Winners(cs, addresses);
    var tokens := Discovered(cs);
    SortedIsStable(ws, Sighting(0, "", 0, "", Source("", "", 0)));
    forall i | 0 <= i < |ws|
      ensures ws[i].tokenAddress == addresses[i] && IsEarliest(cs, ws[i])
    {
      WinnerIsEarliest(cs, addresses[i]);
    }
    AddressesDiffer(cs);
    DistinctByCount(ws, tokens);
    forall t | t in tokens
      ensures IsEarliest(cs, t)
    {
      assert t in multiset(tokens) && t in multiset(ws) && t in ws;
    }
    forall c | c in cs
      ensures exists t :: t in tokens && t.tokenAddress == c.tokenAddress
    {
      GroupMembers(cs, c.tokenAddress);
      var i :| 0 <= i < |addresses| && addresses[i] == c.tokenAddress;
      assert ws[i] in multiset(ws) && ws[i] in multiset(tokens);
    }
  }

  // --- What does not depend on the order of the records ----------------------------------------------------------

  type Fact = (string, (nat, string, nat))

  /** The address and place of every token: all that later stages use. */
  function Facts(tokens: seq<Sighting>): set<Fact> {
    set t | t in tokens :: (t.tokenAddress, Place(t))
  }

  /** An earliest sighting in `a` and one in `b`, where neither list has an earlier one to offer, coincide. */
  lemma SameMinimum(t: Sighting, v: Sighting, u: Sighting, w: Sighting)
    requires Compare(t, w) <= 0 && Place(w) == Place(u)
    requires Compare(u, v) <= 0 && Place(v) == Place(t)
    ensures Place(t) == Place(u)
  {
    hide CompareText;
    SightingOrder(t, u, t);
    SightingOrder(u, t, u);
  }

  /** Candidates for the same places give the same result. */
  lemma SameCandidates(a: seq<Sighting>, b: seq<Sighting>)
    requires Facts(a) == Facts(b)
    ensures Facts(Discovered(a)) <= Facts(Discovered(b))
  {
    hide Discovered, Compare, Place;
    DiscoveryIsMinimum(a);
    DiscoveryIsMinimum(b);
    forall t | t in Discovered(a)
      ensures (t.tokenAddress, Place(t)) in Facts(Discovered(b))
    {
      assert (t.tokenAddress, Place(t)) in Facts(b);
      var v :| v in b && v.tokenAddress == t.tokenAddress && Place(v) == Place(t);
      var u :| u in Discovered(b) && u.tokenAddress == t.tokenAddress;
      assert (u.tokenAddress, Place(u)) in Facts(a);
      var w :| w in a && w.tokenAddress == u.tokenAddress && Place(w) == Place(u);
      SameMinimum(t, v, u, w);
    }
  }

  lemma {:induction false} OnChainMembers(cs: seq<Sighting>, chainId: int)
    ensures forall c :: c in OnChain(cs, chainId) <==> c in cs && c.chainId == chainId
  {
    if cs != [] {
      OnChainMembers(cs[..|cs| - 1], chainId);
      assert cs == cs[..|cs| - 1] + [cs[|cs| - 1]];
    }
  }

  lemma {:induction false} CandidatesMembers(registry: Registry, records: seq<RawRecord>, c: Sighting)
    ensures c in Candidates(registry, records) <==> exists rec :: rec in records && c in FromRecord(registry, rec)
  {
    if records != [] {
      CandidatesMembers(registry, records[..|records| - 1], c);
      assert records == records[..|records| - 1] + [records[|records| - 1]];
    }
  }

  /** The tokens depend on which records there are, not on their order or repetition. */
  lemma OrderOfRecordsIsInvisible(registry: Registry, a: seq<RawRecord>, b: seq<RawRecord>, chainId: int)
    requires forall rec :: rec in a <==> rec in b
    ensures Facts(Discover(registry, a, chainId)) == Facts(Discover(registry, b, chainId))
  {
    hide Discovered, FromRecord, Candidates, OnChain;
    var ca, cb := Candidates(registry, a), Candidates(registry, b);
    OnChainMembers(ca, chainId);
    OnChainMembers(cb, chainId);
    forall c
      ensures c in OnChain(ca, chainId) <==> c in OnChain(cb, chainId)
    {
      CandidatesMembers(registry, a, c);
      CandidatesMembers(registry, b, c);
    }
    assert Facts(OnChain(ca, chainId)) == Facts(OnChain(cb, chainId));
    SameCandidates(OnChain(ca, chainId), OnChain(cb, chainId));
    SameCandidates(OnChain(cb, chainId), OnChain(ca, chainId));
  }

  lemma MergedMinimum(a: seq<Sighting>, b: seq<Sighting>, t: Sighting, u: Sighting)
    requires IsEarliest(a + b, t) && IsEarliest(Discovered(a) + Discovered(b), u) && t.tokenAddress == u.tokenAddress
    ensures Place(t) == Place(u)
  {
    hide Discovered, Compare, Place;
    DiscoveryIsMinimum(a);
    DiscoveryIsMinimum(b);
    var v :| v in Discovered(a) + Discovered(b) && v.tokenAddress == t.tokenAddress && Compare(v, t) <= 0;
    assert u in a + b;
    SightingOrder(u, v, t);
    SightingOrder(t, u, t);
    SightingOrder(u, t, u);
  }

  lemma {:induction false} CandidatesConcat(registry: Registry, a: seq<RawRecord>, b: seq<RawRecord>)
    ensures Candidates(registry, a + b) == Candidates(registry, a) + Candidates(registry, b)
    decreases b
  {
    hide FromRecord;
    if b == [] {
      assert a + b == a;
    } else {
      assert (a + b)[..|a + b| - 1] == a + b[..|b| - 1];
      CandidatesConcat(registry, a, b[..|b| - 1]);
    }
  }

  lemma {:induction false} OnChainConcat(a: seq<Sighting>, b: seq<Sighting>, chainId: int)
    ensures OnChain(a + b, chainId) == OnChain(a, chainId) + OnChain(b, chainId)
    decreases b
  {
    if b == [] {
      assert a + b == a;
    } else {
      assert (a + b)[..|a + b| - 1] == a + b[..|b| - 1];
      OnChainConcat(a, b[..|b| - 1], chainId);
    }
  }

  /** Discovering two lists of records separately and merging by minimum is discovering them together. */
  lemma DiscoverMerges(registry: Registry, r1: seq<RawRecord>, r2: seq<RawRecord>, chainId: int)
    ensures Facts(Discover(registry, r1 + r2, chainId))
            == Facts(Discovered(Discover(registry, r1, chainId) + Discover(registry, r2, chainId)))
  {
    hide Candidates, OnChain, Discovered, Facts;
    CandidatesConcat(registry, r1, r2);
    OnChainConcat(Candidates(registry, r1), Candidates(registry, r2), chainId);
    DiscoveryMerges(OnChain(Candidates(registry, r1), chainId), OnChain(Candidates(registry, r2), chainId));
  }

  /** Discovering two lists of candidates separately and merging by minimum is discovering them together. */
  lemma DiscoveryMerges(a: seq<Sighting>, b: seq<Sighting>)
    ensures Facts(Discovered(a + b)) == Facts(Discovered(Discovered(a) + Discovered(b)))
  {
    hide Discovered, Place, Ordered, Compare;
    var m := Discovered(a) + Discovered(b);
    DiscoveryIsMinimum(a);
    DiscoveryIsMinimum(b);
    DiscoveryIsMinimum(a + b);
    DiscoveryIsMinimum(m);
    forall t | t in Discovered(a + b)
      ensures (t.tokenAddress, Place(t)) in Facts(Discovered(m))
    {
      assert t in a + b;
      var w :| w in m && w.tokenAddress == t.tokenAddress;
      var u :| u in Discovered(m) && u.tokenAddress == w.tokenAddress;
      MergedMinimum(a, b, t, u);
    }
    forall u | u in Discovered(m)
      ensures (u.tokenAddress, Place(u)) in Facts(Discovered(a + b))
    {
      assert u in a + b;
      var t :| t in Discovered(a + b) && t.tokenAddress == u.tokenAddress;
      MergedMinimum(a, b, t, u);
    }
  }

  // --- In numbers and characters --------------------------------------------------------------------------------

  /** At the first place where the texts part, `a` has ended or has the smaller character. */
  ghost predicate TextBefore(a: string, b: string) {
    exists i :: PartAt(a, b, i)
  }

  predicate PartAt(a: string, b: string, i: int) {
    && 0 <= i <= |a| && i < |b| && a[..i] == b[..i]
    && (i < |a| ==> a[i] < b[i])
  }

  lemma {:induction false} CompareTextMeans(a: string, b: string)
    ensures CompareText(a, b) < 0 <==> TextBefore(a, b)
  {
    if a == [] || b == [] {
      assert b != [] && a == [] ==> PartAt(a, b, 0);
    } else if a[0] != b[0] {
      assert a[0] < b[0] ==> PartAt(a, b, 0);
      assert forall i :: PartAt(a, b, i) ==> i == 0;
    } else {
      CompareTextMeans(a[1..], b[1..]);
      if i :| PartAt(a[1..], b[1..], i) {
        assert a[..i + 1] == [a[0]] + a[1..][..i] && b[..i + 1] == [b[0]] + b[1..][..i];
        assert PartAt(a, b, i + 1);
      }
      if i :| PartAt(a, b, i) {
        assert i > 0 && a[1..][..i - 1] == a[..i][1..] && b[1..][..i - 1] == b[..i][1..];
        assert PartAt(a[1..], b[1..], i - 1);
      }
    }
  }

  /** Seen in a lower block, or there in an earlier transaction by text, or in that at a lower log index. */
  ghost predicate Precedes(a: Sighting, b: Sighting) {
    || a.blockNumber < b.blockNumber
    || (a.blockNumber == b.blockNumber && TextBefore(a.source.txHash, b.source.txHash))
    || (a.blockNumber == b.blockNumber && a.source.txHash == b.source.txHash && a.source.logIndex < b.source.logIndex)
  }

  lemma CompareMeans(a: Sighting, b: Sighting)
    ensures Compare(a, b) < 0 <==> Precedes(a, b)
    ensures Compare(a, b) <= 0 <==> !Precedes(b, a)
  {
    hide CompareText, TextBefore;
    CompareTextMeans(a.source.txHash, b.source.txHash);
    CompareTextMeans(b.source.txHash, a.source.txHash);
    TextOrder(a.source.txHash, b.source.txHash, a.source.txHash);
    TextOrder(b.source.txHash, a.source.txHash, b.source.txHash);
  }

  /** A rule for the type of one of the records, which does not throw, emits the sighting. */
  ghost predicate Emitted(registry: Registry, records: seq<RawRecord>, c: Sighting) {
    exists rec :: rec in records && rec.recordType.Some? && SomeRuleEmits(registry(rec.recordType.value), rec, c)
  }

  ghost predicate SomeRuleEmits(rules: seq<Rule>, rec: RawRecord, c: Sighting) {
    exists j :: 0 <= j < |rules| && rules[j](rec).Some? && c in rules[j](rec).value
  }

  lemma {:induction false} FromRulesMembers(rules: seq<Rule>, rec: RawRecord, c: Sighting)
    ensures c in FromRules(rules, rec) <==> SomeRuleEmits(rules, rec, c)
  {
    if rules != [] {
      var n := |rules| - 1;
      FromRulesMembers(rules[..n], rec, c);
      if j :| 0 <= j < n && rules[..n][j](rec).Some? && c in rules[..n][j](rec).value {
        assert rules[j](rec).Some? && c in rules[j](rec).value;
      }
      if j :| 0 <= j < |rules| && rules[j](rec).Some? && c in rules[j](rec).value {
        assert j < n ==> rules[..n][j](rec).Some? && c in rules[..n][j](rec).value;
      }
    }
  }

  /**
   * Discovery announces exactly the addresses that some rule emits for the chain, once each, with an emitted
   * sighting that no other one of the address precedes, in the order in which they were seen.
   */
  lemma FirstSightingsAreFound(registry: Registry, records: seq<RawRecord>, chainId: int)
    ensures var tokens := Discover(registry, records, chainId);
            && (forall t :: t in tokens ==>
                  && t.chainId == chainId && Emitted(registry, records, t)
                  && forall c ::
                       Emitted(registry, records, c) && c.chainId == chainId && c.tokenAddress == t.tokenAddress ==>
                         !Precedes(c, t))
            && (forall c :: Emitted(registry, records, c) && c.chainId == chainId ==>
                  exists t :: t in tokens && t.tokenAddress == c.tokenAddress)
            && (forall i, j :: 0 <= i < j < |tokens| ==>
                  tokens[i].tokenAddress != tokens[j].tokenAddress && !Precedes(tokens[j], tokens[i]))
  {
    hide Candidates, OnChain, Discovered, Emitted, Precedes;
    var all := Candidates(registry, records);
    OnChainMembers(all, chainId);
    FirstCandidatesAreFound(OnChain(all, chainId));
    forall c
      ensures c in all <==> Emitted(registry, records, c)
    {
      EmittedAreCandidates(registry, records, c);
    }
  }

  lemma FirstCandidatesAreFound(cs: seq<Sighting>)
    ensures var tokens := Discovered(cs);
            && (forall t :: t in tokens ==> t in cs)
            && (forall t, c :: t in tokens && c in cs && c.tokenAddress == t.tokenAddress ==> !Precedes(c, t))
            && (forall c :: c in cs ==> exists t :: t in tokens && t.tokenAddress == c.tokenAddress)
            && (forall i, j :: 0 <= i < j < |tokens| ==>
                  tokens[i].tokenAddress != tokens[j].tokenAddress && !Precedes(tokens[j], tokens[i]))
  {
    hide Discovered, Compare, Precedes;
    var tokens := Discovered(cs);
    DiscoveryIsMinimum(cs);
    forall t, c | t in tokens && c in cs && c.tokenAddress == t.tokenAddress
      ensures !Precedes(c, t)
    {
      assert IsEarliest(cs, t);
      CompareMeans(t, c);
    }
    forall i, j | 0 <= i < j < |tokens|
      ensures tokens[i].tokenAddress != tokens[j].tokenAddress && !Precedes(tokens[j], tokens[i])
    {
      CompareMeans(tokens[i], tokens[j]);
    }
  }

  lemma EmittedAreCandidates(registry: Registry, records: seq<RawRecord>, c: Sighting)
    ensures c in Candidates(registry, records) <==> Emitted(registry, records, c)
  {
    hide FromRules, SomeRuleEmits;
    CandidatesMembers(registry, records, c);
    forall rec | rec in records && rec.recordType.Some?
      ensures c in FromRecord(registry, rec) <==> SomeRuleEmits(registry(rec.recordType.value), rec, c)
    {
      FromRulesMembers(registry(rec.recordType.value), rec, c);
    }
  }

  // --- Sightings at one place -----------------------------------------------------------------------------------

  /** Rules are asked in their order. */
  lemma {:induction false} RulesConcat(a: seq<Rule>, b: seq<Rule>, rec: RawRecord)
    ensures FromRules(a + b, rec) == FromRules(a, rec) + FromRules(b, rec)
    decreases b
  {
    if b == [] {
      assert a + b == a;
    } else {
      assert (a + b)[..|a + b| - 1] == a + b[..|b| - 1];
      RulesConcat(a, b[..|b| - 1], rec);
    }
  }

  predicate FirstAt(cs: seq<Sighting>, i: int, t: Sighting) {
    && 0 <= i < |cs| && cs[i] == t
    && forall j :: 0 <= j < i && cs[j].tokenAddress == t.tokenAddress ==> Place(cs[j]) != Place(t)
  }

  lemma {:induction false} TiesSnoc(s: seq<Sighting>, x: Sighting, z: Sighting)
    ensures Ties(s + [x], z) == Ties(s, z) + (if Compare(x, z) == 0 then [x] else [])
  {
    hide Compare;
    if s == [] {
      assert [] + [x] == [x] && [x][1..] == [];
    } else {
      assert (s + [x])[1..] == s[1..] + [x];
      TiesSnoc(s[1..], x, z);
    }
  }

  lemma {:induction false} FirstTieIsFirst(cs: seq<Sighting>, t: Sighting)
    requires var ties := Ties(Group(cs, t.tokenAddress), t); ties != [] && ties[0] == t
    ensures exists i :: FirstAt(cs, i, t)
  {
    hide Compare, Place;
    var before, x, a := cs[..|cs| - 1], cs[|cs| - 1], t.tokenAddress;
    assert cs == before + [x];
    assert Group(cs, a) == if x.tokenAddress == a then Group(before, a) + [x] else Group(before, a);
    TiesSnoc(Group(before, a), x, t);
    if Ties(Group(before, a), t) != [] {
      FirstTieIsFirst(before, t);
      var i :| FirstAt(before, i, t);
      assert FirstAt(cs, i, t);
    } else {
      assert x == t;
      forall j | 0 <= j < |before| && before[j].tokenAddress == a
        ensures Place(before[j]) != Place(t)
      {
        GroupMembers(before, a);
        TiesMembers(Group(before, a), t);
        SightingOrder(before[j], t, t);
        assert before[j] in before;
      }
      assert FirstAt(cs, |before|, t);
    }
  }

  /** Of several candidates for one address and place, the one that was emitted first is announced. */
  lemma FirstEmittedWins(cs: seq<Sighting>, t: Sighting)
    requires t in Discovered(cs)
    ensures exists i :: FirstAt(cs, i, t)
  {
    hide Compare, Group, Sorted, IsEarliest, Ties;
    var addresses := Addresses(cs);
    var ws := Winners(cs, addresses);
    SortedIsStable(ws, t);
    assert t in multiset(Sorted(ws)) && t in multiset(ws) && t in ws;
    var n :| 0 <= n < |ws| && ws[n] == t;
    WinnerIsEarliest(cs, addresses[n]);
    GroupMembers(cs, addresses[n]);
    WinnerIsFirstTie(Group(cs, addresses[n]), t);
    FirstTieIsFirst(cs, t);
  }

  lemma WinnerIsFirstTie(g: seq<Sighting>, t: Sighting)
    requires g != [] && Sorted(g)[0] == t
    ensures Ties(g, t) != [] && Ties(g, t)[0] == t
  {
    hide Sorted, Compare;
    SortedIsStable(g, t);
    SightingOrder(t, t, t);
  }
}
