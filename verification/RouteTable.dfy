/** The route cache of internal/router/table.go: a map plus a recency list with the CLOCK
    (second-chance) eviction scan, and the closed form it refines. */
module RouteTable {
  import opened Basics

  type Egress = string

  // One list element as a value; index 0 of a list is the front (most recent).
  datatype Item = Item(key: string, egress: Egress, referenced: bool)

  // --- The closed form -----------------------------------------------------------------

  predicate Distinct(v: seq<Item>) {
    forall i, j :: 0 <= i < j < |v| ==> v[i].key != v[j].key
  }

  function IndexOf(v: seq<Item>, k: string): int {
    if v == [] then -1 else if v[0].key == k then 0 else var i := IndexOf(v[1..], k); if i < 0 then -1 else i + 1
  }

  lemma IndexOfIs(v: seq<Item>, k: string)
    ensures -1 <= IndexOf(v, k) < |v|
    ensures IndexOf(v, k) >= 0 ==> v[IndexOf(v, k)].key == k
    ensures IndexOf(v, k) < 0 ==> forall i :: 0 <= i < |v| ==> v[i].key != k
    ensures Distinct(v) ==> forall i :: 0 <= i < |v| && v[i].key == k ==> IndexOf(v, k) == i
  {
    if v != [] {
      IndexOfIs(v[1..], k);
      assert forall i :: 0 < i < |v| ==> v[i] == v[1..][i - 1];
    }
  }

  function Lookup(v: seq<Item>, k: string): Option<Egress> {
    IndexOfIs(v, k);
    if IndexOf(v, k) < 0 then None else Some(v[IndexOf(v, k)].egress)
  }

  function Cleared(v: seq<Item>): (r: seq<Item>)
    ensures |r| == |v| && forall i :: 0 <= i < |v| ==> r[i] == v[i].(referenced := false)
  {
    seq(|v|, i requires 0 <= i < |v| => v[i].(referenced := false))
  }

  // Where the scan from the rear stops: the rearmost unreferenced entry, or the rearmost
  // entry when every one is referenced.
  function Victim(v: seq<Item>): (j: nat)
    requires v != []
    ensures j < |v|
    ensures (exists i :: 0 <= i < |v| && !v[i].referenced) ==> !v[j].referenced
    ensures (exists i :: 0 <= i < |v| && !v[i].referenced) ==> forall i :: j < i < |v| ==> v[i].referenced
    ensures (forall i :: 0 <= i < |v| ==> v[i].referenced) ==> j == |v| - 1
  {
    VictimFrom(v, |v| - 1)
  }

  function VictimFrom(v: seq<Item>, j: nat): (r: nat)
    requires j < |v| && forall i :: j < i < |v| ==> v[i].referenced
    ensures r < |v|
    ensures (exists i :: 0 <= i < |v| && !v[i].referenced) ==> !v[r].referenced
    ensures (exists i :: 0 <= i < |v| && !v[i].referenced) ==> forall i :: r < i < |v| ==> v[i].referenced
    ensures (forall i :: 0 <= i < |v| ==> v[i].referenced) ==> r == |v| - 1
  {
    if !v[j].referenced then j else if j == 0 then |v| - 1 else VictimFrom(v, j - 1)
  }

  /** The list after an eviction: what was scanned over, cleared and rotated to the front, then
      what was not reached, untouched. */
  function Evicted(v: seq<Item>): seq<Item>
    requires v != []
  {
    var j := Victim(v);
    if v[j].referenced then Cleared(v[..j]) else Cleared(v[j + 1..]) + v[..j]
  }

  function Without(v: seq<Item>, i: nat): seq<Item>
    requires i < |v|
  {
    v[..i] + v[i + 1..]
  }

  /** The whole effect of Set. */
  function SetList(v: seq<Item>, k: string, egress: Egress, maxSize: nat): seq<Item>
    requires maxSize > 0
  {
    IndexOfIs(v, k);
    var i := IndexOf(v, k);
    if i >= 0 then [v[i].(egress := egress)] + Without(v, i)
    else [Item(k, egress, false)] + (if |v| >= maxSize then Evicted(v) else v)
  }

  lemma SetPresent(v: seq<Item>, k: string, egress: Egress, maxSize: nat, i: nat)
    requires maxSize > 0 && i < |v| && IndexOf(v, k) == i
    ensures SetList(v, k, egress, maxSize) == [v[i].(egress := egress)] + Without(v, i)
  {
  }

  function GetList(v: seq<Item>, k: string): seq<Item> {
    IndexOfIs(v, k);
    if IndexOf(v, k) < 0 then v else v[IndexOf(v, k) := v[IndexOf(v, k)].(referenced := true)]
  }

  // Some element of `v` pairs the same key and egress as `x`.
  ghost predicate Has(v: seq<Item>, x: Item) {
    exists j :: 0 <= j < |v| && v[j].key == x.key && v[j].egress == x.egress
  }

  ghost predicate Keeps(v: seq<Item>, w: seq<Item>) {
    forall i :: 0 <= i < |w| ==> Has(v, w[i])
  }

  lemma EvictedKeeps(v: seq<Item>)
    requires v != [] && Distinct(v)
    ensures Distinct(Evicted(v)) && |Evicted(v)| == |v| - 1 && Keeps(v, Evicted(v))
  {
    var j, w := Victim(v), Evicted(v);
    EvictedFrom(v);
    forall i | 0 <= i < |w| ensures Has(v, w[i]) {
      var m := EvictedOrigin(v, i);
      assert v[m].key == w[i].key && v[m].egress == w[i].egress;
    }
  }

  // Where an entry stood before the eviction.
  function EvictedOrigin(v: seq<Item>, i: nat): int
    requires v != []
  {
    var j := Victim(v);
    if v[j].referenced then i else if i < |v| - j - 1 then j + 1 + i else i - (|v| - j - 1)
  }

  lemma EvictedFrom(v: seq<Item>)
    requires v != []
    ensures |Evicted(v)| == |v| - 1
    ensures forall i :: 0 <= i < |v| - 1 ==>
              && 0 <= EvictedOrigin(v, i) < |v| && Evicted(v)[i].key == v[EvictedOrigin(v, i)].key
              && Evicted(v)[i].egress == v[EvictedOrigin(v, i)].egress
  {
  }

  /** Nobody but the victim leaves. */
  lemma OnlyVictimLeaves(v: seq<Item>, m: nat)
    requires v != [] && m < |v| && m != Victim(v)
    ensures Has(Evicted(v), v[m])
  {
    var j, w := Victim(v), Evicted(v);
    var i := if v[j].referenced then m else if m > j then m - j - 1 else |v| - j - 1 + m;
    assert w[i].key == v[m].key && w[i].egress == v[m].egress;
  }

  // --- What Set does to the table, key by key -------------------------------------------

  // The whole entry of a key.
  function Find(v: seq<Item>, k: string): Option<Item> {
    IndexOfIs(v, k);
    if IndexOf(v, k) < 0 then None else Some(v[IndexOf(v, k)])
  }

  lemma FindAt(v: seq<Item>, i: nat)
    requires Distinct(v) && i < |v|
    ensures Find(v, v[i].key) == Some(v[i]) && Lookup(v, v[i].key) == Some(v[i].egress)
  {
    IndexOfIs(v, v[i].key);
  }

  lemma FindNothing(v: seq<Item>, k: string)
    ensures Find(v, k).None? <==> forall i :: 0 <= i < |v| ==> v[i].key != k
    ensures Find(v, k).None? <==> Lookup(v, k).None?
  {
    IndexOfIs(v, k);
  }

  /** Entry `m` is the one an eviction takes: the rearmost unreferenced entry, or the rearmost when every entry
      is referenced. */
  ghost predicate Doomed(v: seq<Item>, m: nat) {
    && m < |v|
    && if exists i :: 0 <= i < |v| && !v[i].referenced
       then !v[m].referenced && forall i :: m < i < |v| ==> v[i].referenced
       else m == |v| - 1
  }

  // The scan from the rear came past entry `i` before it took entry `m`: its bit is used up.
  predicate Passed(v: seq<Item>, m: nat, i: nat)
    requires m < |v|
  {
    v[m].referenced || m < i
  }

  ghost predicate Survives(v: seq<Item>, w: seq<Item>, m: nat, i: nat)
    requires m < |v| && i < |v|
  {
    Find(w, v[i].key) == Some(v[i].(referenced := v[i].referenced && !Passed(v, m, i)))
  }

  // `w` has lost entry `m` of `v` and nothing else; beside the rest it has at most `k`.
  ghost predicate LosesOnly(v: seq<Item>, w: seq<Item>, m: nat, k: string)
    requires m < |v|
  {
    && Find(w, v[m].key).None?
    && (forall i: nat {:trigger Survives(v, w, m, i)} :: i < |v| && i != m ==> Survives(v, w, m, i))
    && forall q :: q != k && Find(v, q).None? ==> Find(w, q).None?
  }

  /** The table before and after Set.  A key that is present gets the new egress, keeps its bit and changes nothing
      else; a new key below the capacity is added, unreferenced, to all that was there; a new key at the capacity costs
      exactly the one entry the eviction takes. */
  ghost predicate Stored(v: seq<Item>, w: seq<Item>, k: string, egress: Egress, maxSize: nat) {
    && Find(w, k) == Some(Item(k, egress, Find(v, k).Some? && Find(v, k).value.referenced))
    && |w| == |v| + (if Find(v, k).None? && |v| < maxSize then 1 else 0)
    && if Find(v, k).Some? || |v| < maxSize then forall q :: q != k ==> Find(w, q) == Find(v, q)
       else exists m: nat :: Doomed(v, m) && LosesOnly(v, w, m, k)
  }

  lemma SetListStored(v: seq<Item>, k: string, egress: Egress, maxSize: nat)
    requires maxSize > 0 && Distinct(v) && |v| <= maxSize
    ensures Distinct(SetList(v, k, egress, maxSize)) && Stored(v, SetList(v, k, egress, maxSize), k, egress, maxSize)
  {
    IndexOfIs(v, k);
    if IndexOf(v, k) >= 0 {
      StoredPresent(v, k, egress, maxSize, IndexOf(v, k));
    } else if |v| < maxSize {
      StoredAdded(v, k, egress, maxSize);
    } else {
      StoredEvicting(v, k, egress, maxSize);
    }
  }

  lemma StoredPresent(v: seq<Item>, k: string, egress: Egress, maxSize: nat, i: nat)
    requires maxSize > 0 && Distinct(v) && i < |v| && IndexOf(v, k) == i
    ensures var w := SetList(v, k, egress, maxSize); Distinct(w) && Stored(v, w, k, egress, maxSize)
  {
    IndexOfIs(v, k);
    var w := SetList(v, k, egress, maxSize);
    MovedAt(v, v[i].(egress := egress), i);
    FindAt(v, i);
    FindAt(w, 0);
    forall q | q != k ensures Find(w, q) == Find(v, q) { SameFind(v, w, i, q); }
  }

  lemma MovedAt(v: seq<Item>, x: Item, i: nat)
    requires i < |v| && Distinct(v) && x.key == v[i].key
    ensures var w := [x] + Without(v, i);
            && |w| == |v| && w[0] == x && Distinct(w)
            && forall j :: 0 <= j < |v| && j != i ==> w[if j < i then j + 1 else j] == v[j]
  {
    WithoutKeeps(v, i);
    FrontDistinct(x, Without(v, i));
    forall j | 0 <= j < |v| && j != i ensures ([x] + Without(v, i))[if j < i then j + 1 else j] == v[j] {
      WithoutAt(v, i, j);
    }
  }

  lemma WithoutAt(v: seq<Item>, i: nat, j: nat)
    requires i < |v| && j < |v| && j != i
    ensures Without(v, i)[if j < i then j else j - 1] == v[j]
  {
  }

  lemma SameFind(v: seq<Item>, w: seq<Item>, i: nat, q: string)
    requires Distinct(v) && Distinct(w) && |w| == |v| && i < |v| && w[0].key == v[i].key && q != v[i].key
    requires forall j :: 0 <= j < |v| && j != i ==> w[if j < i then j + 1 else j] == v[j]
    ensures Find(w, q) == Find(v, q)
  {
    IndexOfIs(v, q);
    IndexOfIs(w, q);
    var j, n := IndexOf(v, q), IndexOf(w, q);
    if j >= 0 { assert w[if j < i then j + 1 else j] == v[j]; }
    if n >= 0 { assert w[n] == v[if n <= i then n - 1 else n]; }
  }

  lemma StoredAdded(v: seq<Item>, k: string, egress: Egress, maxSize: nat)
    requires maxSize > 0 && Distinct(v) && |v| < maxSize && IndexOf(v, k) < 0
    ensures var w := SetList(v, k, egress, maxSize); Distinct(w) && Stored(v, w, k, egress, maxSize)
  {
    IndexOfIs(v, k);
    FrontDistinct(Item(k, egress, false), v);
    forall q | q != k ensures Find([Item(k, egress, false)] + v, q) == Find(v, q) {
      FindBehind(Item(k, egress, false), v, q);
    }
  }

  lemma FrontDistinct(x: Item, v: seq<Item>)
    requires Distinct(v) && forall i :: 0 <= i < |v| ==> v[i].key != x.key
    ensures Distinct([x] + v) && Find([x] + v, x.key) == Some(x)
  {
    FindAt([x] + v, 0);
  }

  lemma FindBehind(x: Item, v: seq<Item>, q: string)
    requires q != x.key
    ensures Find([x] + v, q) == Find(v, q)
  {
    assert ([x] + v)[1..] == v;
  }

  lemma StoredEvicting(v: seq<Item>, k: string, egress: Egress, maxSize: nat)
    requires 0 < maxSize == |v| && Distinct(v) && IndexOf(v, k) < 0
    ensures var w := SetList(v, k, egress, maxSize); Distinct(w) && Stored(v, w, k, egress, maxSize)
  {
    IndexOfIs(v, k);
    var x, rest, m := Item(k, egress, false), Evicted(v), Victim(v);
    EvictedKeeps(v);
    EvictedKeys(v);
    FrontDistinct(x, rest);
    FindNothing(rest, v[m].key);
    FindBehind(x, rest, v[m].key);
    forall i: nat | i < |v| && i != m ensures Survives(v, [x] + rest, m, i) {
      EvictedAt(v, i);
      FindBehind(x, rest, v[i].key);
    }
    forall q | q != k && Find(v, q).None? ensures Find([x] + rest, q).None? {
      FindNothing(v, q);
      FindNothing(rest, q);
      FindBehind(x, rest, q);
    }
    assert Doomed(v, m) && LosesOnly(v, [x] + rest, m, k);
  }

  // An eviction leaves keys that were there, and not the victim's.
  lemma EvictedKeys(v: seq<Item>)
    requires v != [] && Distinct(v)
    ensures forall i :: 0 <= i < |Evicted(v)| ==> Evicted(v)[i].key != v[Victim(v)].key
    ensures forall i :: 0 <= i < |Evicted(v)| ==> exists j :: 0 <= j < |v| && v[j].key == Evicted(v)[i].key
  {
    var j, w := Victim(v), Evicted(v);
    forall i | 0 <= i < |w| ensures w[i].key != v[j].key && exists n :: 0 <= n < |v| && v[n].key == w[i].key {
      var n := if v[j].referenced then i else if i < |v| - j - 1 then j + 1 + i else i - (|v| - j - 1);
      assert v[n].key == w[i].key && n != j;
    }
  }

  lemma EvictedAt(v: seq<Item>, m: nat)
    requires v != [] && Distinct(v) && m < |v| && m != Victim(v)
    ensures Survives(v, Evicted(v), Victim(v), m)
  {
    EvictedKeeps(v);
    var j, w := Victim(v), Evicted(v);
    var i := if v[j].referenced then m else if m > j then m - j - 1 else |v| - j - 1 + m;
    assert w[i] == v[m].(referenced := v[m].referenced && !Passed(v, j, m));
    FindAt(w, i);
  }

  /** A second chance: an entry that was read survives the next eviction while another is unreferenced. */
  lemma ReadSurvives(v: seq<Item>, k: string, n: nat, q: string, egress: Egress)
    requires Distinct(v) && Lookup(v, k).Some? && Lookup(v, q).None?
    requires n < |v| && v[n].key != k && !v[n].referenced
    ensures Lookup(SetList(GetList(v, k), q, egress, |v|), k) == Lookup(v, k)
  {
    var i := ReadMarks(v, k, n, q);
    var w := GetList(v, k);
    SetListStored(w, q, egress, |w|);
    MarkedSurvives(w, SetList(w, q, egress, |w|), q, i, n);
  }

  lemma ReadMarks(v: seq<Item>, k: string, n: nat, q: string) returns (i: nat)
    requires Distinct(v) && Lookup(v, k).Some? && Lookup(v, q).None? && n < |v| && v[n].key != k && !v[n].referenced
    ensures var w := GetList(v, k);
            && |w| == |v| && Distinct(w) && i < |w| && w[i].key == k && w[i].referenced && !w[n].referenced
            && Lookup(v, k) == Some(w[i].egress) && Find(w, q).None?
  {
    IndexOfIs(v, k);
    FindNothing(v, q);
    i := IndexOf(v, k);
    FindNothing(GetList(v, k), q);
  }

  lemma MarkedSurvives(w: seq<Item>, z: seq<Item>, q: string, i: nat, n: nat)
    requires i < |w| && n < |w| && w[i].referenced && !w[n].referenced
    requires exists m: nat :: Doomed(w, m) && LosesOnly(w, z, m, q)
    ensures Lookup(z, w[i].key) == Some(w[i].egress)
  {
    var m: nat :| Doomed(w, m) && LosesOnly(w, z, m, q);
    assert !w[m].referenced && Survives(w, z, m, i);
  }

  /** Set keeps keys distinct and the size bounded, stores the new pair, and changes no other
      pair it keeps. */
  lemma SetListCorrect(v: seq<Item>, k: string, egress: Egress, maxSize: nat)
    requires maxSize > 0 && Distinct(v) && |v| <= maxSize
    ensures var w := SetList(v, k, egress, maxSize);
            && Distinct(w) && 0 < |w| <= maxSize
            && Lookup(w, k) == Some(egress)
            && forall q :: q != k && Lookup(w, q).Some? ==> Lookup(w, q) == Lookup(v, q)
  {
    SetListStored(v, k, egress, maxSize);
    var w := SetList(v, k, egress, maxSize);
    assert Find(w, k).Some?;
    forall q | q != k && Lookup(w, q).Some? ensures Lookup(w, q) == Lookup(v, q) {
      StoredKeeps(v, w, k, egress, maxSize, q);
    }
  }

  lemma StoredKeeps(v: seq<Item>, w: seq<Item>, k: string, egress: Egress, maxSize: nat, q: string)
    requires Distinct(v) && Stored(v, w, k, egress, maxSize) && q != k && Lookup(w, q).Some?
    ensures Lookup(w, q) == Lookup(v, q)
  {
    IndexOfIs(v, q);
    FindNothing(v, q);
    FindNothing(w, q);
    if Find(v, k).None? && |v| >= maxSize {
      var m: nat :| Doomed(v, m) && LosesOnly(v, w, m, k);
      assert Survives(v, w, m, IndexOf(v, q));
    } else {
      assert Find(w, q) == Find(v, q);
    }
  }

  lemma WithoutKeeps(v: seq<Item>, i: nat)
    requires i < |v| && Distinct(v)
    ensures Distinct(Without(v, i)) && Keeps(v, Without(v, i)) && |Without(v, i)| == |v| - 1
    ensures forall m :: 0 <= m < |v| - 1 ==> Without(v, i)[m].key != v[i].key
  {
    var w := Without(v, i);
    forall m | 0 <= m < |w| ensures Has(v, w[m]) {
      assert w[m] == v[if m < i then m else m + 1];
    }
  }

  function Rotated(v: seq<Item>, i: nat): seq<Item>
    requires i <= |v|
  {
    Cleared(v[|v| - i..]) + v[..|v| - i]
  }

  ghost predicate RearReferenced(v: seq<Item>, i: nat) {
    forall m :: 0 <= m < |v| && m >= |v| - i ==> v[m].referenced
  }

  // One second chance: the rear entry, cleared, in front.
  function Turned(v: seq<Item>): seq<Item>
    requires v != []
  {
    [v[|v| - 1].(referenced := false)] + v[..|v| - 1]
  }

  lemma RotateOnce(v: seq<Item>, i: nat)
    requires i <= |v| && v != [] && Rotated(v, i)[|v| - 1].referenced && RearReferenced(v, i)
    ensures i < |v| && RearReferenced(v, i + 1)
    ensures Rotated(v, i + 1) == Turned(Rotated(v, i))
  {
  }

  // `i` entries were rotated before an unreferenced one came to the rear: dropping that one
  // gives the closed form.
  lemma RotationIsEvicted(v: seq<Item>, i: nat)
    requires v != [] && i <= |v|
    requires RearReferenced(v, i)
    requires !Rotated(v, i)[|v| - 1].referenced
    ensures Evicted(v) == Rotated(v, i)[..|v| - 1]
  {
    if i < |v| {
      assert Victim(v) == |v| - i - 1;
      DropLast(Cleared(v[|v| - i..]), v[..|v| - i]);
      assert v[..|v| - i][..|v| - i - 1] == v[..|v| - i - 1];
    } else {
      RotatedAll(v);
    }
  }

  // The scan ended here, the rear turned as often as it was found referenced.
  ghost predicate Reached(v: seq<Item>, i: nat, w: seq<Item>) {
    w != [] && i <= |v| && RearReferenced(v, i) && w == Rotated(v, i) && !w[|w| - 1].referenced
  }

  function ButLast(w: seq<Item>): seq<Item>
    requires w != []
  {
    w[..|w| - 1]
  }

  lemma EvictedBy(v: seq<Item>, i: nat, w: seq<Item>)
    requires v != [] && Reached(v, i, w)
    ensures ButLast(w) == Evicted(v)
  {
    RotationIsEvicted(v, i);
  }

  lemma DropLast(a: seq<Item>, b: seq<Item>)
    requires b != []
    ensures (a + b)[..|a| + |b| - 1] == a + b[..|b| - 1]
  {
  }

  lemma RotatedAll(v: seq<Item>)
    requires v != [] && RearReferenced(v, |v|)
    ensures Evicted(v) == Rotated(v, |v|)[..|v| - 1]
  {
    assert Victim(v) == |v| - 1;
    assert v[0..] == v && v[..0] == [];
    assert Cleared(v)[..|v| - 1] == Cleared(v[..|v| - 1]);
  }

  // --- The mutable object ------------------------------------------------------------------

  class CacheEntry {
    const key: string
    var egress: Egress
    var referenced: bool

    constructor (key: string, egress: Egress)
      ensures this.key == key && this.egress == egress && !referenced
    {
      this.key, this.egress, this.referenced := key, egress, false;
    }

    function Value(): Item
      reads this
    {
      Item(key, egress, referenced)
    }
  }

  ghost predicate NoDuplicates(list: seq<CacheEntry>) {
    forall i, j :: 0 <= i < j < |list| ==> list[i] != list[j]
  }

  /** Map and list name each other: every element is found under its own key, and nothing else. */
  ghost predicate Bijection(cache: map<string, CacheEntry>, list: seq<CacheEntry>) {
    && NoDuplicates(list)
    && (forall i :: 0 <= i < |list| ==> list[i].key in cache && cache[list[i].key] == list[i])
    && (forall k {:trigger Listed(cache, list, k)} :: k in cache ==> Listed(cache, list, k))
  }

  ghost predicate Listed(cache: map<string, CacheEntry>, list: seq<CacheEntry>, k: string) {
    k in cache && cache[k] in list && cache[k].key == k
  }

  lemma DropBijection(cache: map<string, CacheEntry>, list: seq<CacheEntry>)
    requires Bijection(cache, list) && list != []
    ensures Bijection(cache - {list[|list| - 1].key}, list[..|list| - 1])
  {
    var last, r := list[|list| - 1], list[..|list| - 1];
    var rest := cache - {last.key};
    forall k | k in rest ensures Listed(rest, r, k) {
      assert Listed(cache, list, k);
      var m :| 0 <= m < |list| && list[m] == cache[k];
      assert r[m] == cache[k];
    }
  }

  lemma FrontedBijection(cache: map<string, CacheEntry>, list: seq<CacheEntry>, i: nat)
    requires Bijection(cache, list) && i < |list|
    ensures Bijection(cache, [list[i]] + list[..i] + list[i + 1..])
  {
    var r := [list[i]] + list[..i] + list[i + 1..];
    FrontedAt(list, i);
    FrontedDistinct(list, r, i);
    forall k | k in cache ensures Listed(cache, r, k) {
      assert Listed(cache, list, k);
      var m :| 0 <= m < |list| && list[m] == cache[k];
      assert r[if m == i then 0 else if m < i then m + 1 else m] == cache[k];
    }
  }

  lemma FrontedAt<T>(list: seq<T>, i: nat)
    requires i < |list|
    ensures var r := [list[i]] + list[..i] + list[i + 1..];
            forall m :: 0 <= m < |r| ==> r[m] == list[if m == 0 then i else if m <= i then m - 1 else m]
  {
  }

  lemma SameMembers(list: seq<CacheEntry>, i: nat)
    requires i < |list|
    ensures forall e :: e in list <==> e in [list[i]] + list[..i] + list[i + 1..]
  {
    assert list == list[..i] + [list[i]] + list[i + 1..];
  }

  lemma FrontedTail(w: seq<Item>, v: seq<Item>, i: nat)
    requires i < |v| && w == [v[i]] + Without(v, i)
    ensures w[0] == v[i] && w[1..] == Without(v, i)
  {
  }

  lemma FrontedDistinct(list: seq<CacheEntry>, r: seq<CacheEntry>, i: nat)
    requires NoDuplicates(list) && i < |list| == |r|
    requires forall m :: 0 <= m < |r| ==> r[m] == list[if m == 0 then i else if m <= i then m - 1 else m]
    ensures NoDuplicates(r)
  {
  }

  lemma PushedBijection(cache: map<string, CacheEntry>, list: seq<CacheEntry>, e: CacheEntry)
    requires Bijection(cache, list) && e.key !in cache
    ensures Bijection(cache[e.key := e], [e] + list)
  {
    var r, c := [e] + list, cache[e.key := e];
    PushedDistinct(cache, list, e);
    forall k | k in c ensures Listed(c, r, k) {
      if k != e.key { PushedListed(cache, list, e, k); } else { assert r[0] == e; }
    }
  }

  lemma PushedDistinct(cache: map<string, CacheEntry>, list: seq<CacheEntry>, e: CacheEntry)
    requires Bijection(cache, list) && e.key !in cache
    ensures NoDuplicates([e] + list)
    ensures forall i :: 0 <= i < |list| + 1 ==> ([e] + list)[i] == (if i == 0 then e else list[i - 1])
  {
  }

  lemma PushedListed(cache: map<string, CacheEntry>, list: seq<CacheEntry>, e: CacheEntry, k: string)
    requires Bijection(cache, list) && k in cache && k != e.key
    ensures Listed(cache[e.key := e], [e] + list, k)
  {
    assert Listed(cache, list, k);
    var m :| 0 <= m < |list| && list[m] == cache[k];
    assert ([e] + list)[m + 1] == cache[k];
  }
  lemma KeyAt(cache: map<string, CacheEntry>, list: seq<CacheEntry>, k: string) returns (i: nat)
    requires Bijection(cache, list) && k in cache
    ensures i < |list| && list[i] == cache[k] && list[i].key == k
    ensures forall j :: 0 <= j < |list| && list[j].key == k ==> j == i
  {
    assert Listed(cache, list, k);
    i :| 0 <= i < |list| && list[i] == cache[k];
  }

  class Table {
    var cache: map<string, CacheEntry>
    var lruList: seq<CacheEntry>
    const maxSize: nat

    ghost predicate Linked()
      reads this
    {
      maxSize > 0 && |lruList| <= maxSize && Bijection(cache, lruList)
    }

    ghost function Entries(): set<CacheEntry>
      reads this
    {
      set e | e in lruList
    }

    ghost function View(): (v: seq<Item>)
      reads this, Entries()
      ensures |v| == |lruList| && forall i :: 0 <= i < |v| ==> v[i] == lruList[i].Value()
    {
      seq(|lruList|, i requires 0 <= i < |lruList| reads this, Entries() => lruList[i].Value())
    }

    constructor (maxSize: int)
      ensures Linked() && View() == [] && this.maxSize == if maxSize <= 0 then 10000 else maxSize
    {
      this.cache, this.lruList := map[], [];
      this.maxSize := if maxSize <= 0 then 10000 else maxSize;
    }

    method Get(k: string) returns (egress: Option<Egress>)
      requires Linked()
      modifies Entries()
      ensures Linked() && lruList == old(lruList) && cache == old(cache)
      ensures egress == Lookup(old(View()), k) && View() == GetList(old(View()), k)
    {
      ghost var v := View();
      IndexOfIs(v, k);
      if k !in cache {
        return None;
      }
      var entry := cache[k];
      ghost var i := KeyAt(cache, lruList, k);
      assert v[i].key == k;
      assert forall j :: 0 <= j < |v| && v[j].key == k ==> j == i;
      entry.referenced := true;
      assert View() == v[i := v[i].(referenced := true)];
      return Some(entry.egress);
    }

    // A referenced entry at the rear loses its bit and moves to the front.
    method SecondChance()
      requires Linked() && lruList != []
      modifies this`lruList, Entries()
      ensures Linked() && |lruList| == |old(lruList)| && Entries() == old(Entries())
      ensures View() == Turned(old(View()))
    {
      var n := |lruList|;
      Fronted(n - 1);
      Clear(n - 1);
      ghost var w := View();
      Reorder(n - 1);
      assert Without(w, n - 1) == w[..n - 1];
    }

    method Clear(i: nat)
      requires i < |lruList| && NoDuplicates(lruList)
      modifies Entries()
      ensures View() == old(View())[i := old(View())[i].(referenced := false)]
    {
      lruList[i].referenced := false;
    }

    method RemoveRear()
      requires Linked() && lruList != []
      modifies this
      ensures Linked() && lruList == old(lruList)[..|old(lruList)| - 1] && cache.Keys <= old(cache.Keys)
      ensures View() == old(View())[..|old(View())| - 1] && Entries() <= old(Entries())
    {
      DropBijection(cache, lruList);
      var victim := lruList[|lruList| - 1];
      cache := cache - {victim.key};
      lruList := lruList[..|lruList| - 1];
    }

    // The scan from the rear: second chances until an unreferenced entry is there.  Every round
    // leaves one referenced entry fewer.
    method Scan() returns (ghost i: nat)
      requires Linked() && lruList != []
      modifies this`lruList, Entries()
      ensures Linked() && |lruList| == |old(lruList)| && Entries() == old(Entries())
      ensures Reached(old(View()), i, View())
    {
      ghost var v, n := View(), |lruList|;
      i := 0;
      while lruList[|lruList| - 1].referenced
        invariant 0 <= i <= n && |lruList| == n && Linked()
        invariant Entries() == old(Entries())
        invariant View() == Rotated(v, i)
        invariant RearReferenced(v, i)
        decreases n - i
      {
        assert View()[n - 1] == lruList[n - 1].Value();
        RotateOnce(v, i);
        SecondChance();
        i := i + 1;
      }
    }

    // The scan as far as it matters: what stands before the rear is what remains.
    method FindVictim()
      requires Linked() && lruList != []
      modifies this`lruList, Entries()
      ensures Linked() && |lruList| == |old(lruList)| && Entries() == old(Entries())
      ensures ButLast(View()) == Evicted(old(View()))
    {
      ghost var v := View();
      ghost var i := Scan();
      EvictedBy(v, i, View());
    }

    method Evict()
      requires Linked() && lruList != []
      modifies this, Entries()
      ensures Linked() && |lruList| == |old(lruList)| - 1 && cache.Keys <= old(cache.Keys)
      ensures Entries() <= old(Entries())
      ensures View() == Evicted(old(View()))
    {
      FindVictim();
      RemoveRear();
    }

    method Reorder(i: nat)
      requires i < |lruList|
      modifies this`lruList
      ensures Entries() == old(Entries())
      ensures lruList == [old(lruList)[i]] + old(lruList)[..i] + old(lruList)[i + 1..]
      ensures View() == [old(View())[i]] + Without(old(View()), i)
    {
      ghost var l, v := lruList, View();
      lruList := [lruList[i]] + lruList[..i] + lruList[i + 1..];
      SameMembers(l, i);
      FrontedAt(l, i);
      FrontedAt(v, i);
      assert [v[i]] + Without(v, i) == [v[i]] + v[..i] + v[i + 1..];
      assert forall m :: 0 <= m < |l| ==> View()[m] == v[if m == 0 then i else if m <= i then m - 1 else m];
    }

    method Restamp(egress: Egress)
      requires lruList != [] && NoDuplicates(lruList)
      modifies Entries()
      ensures View() == [old(View())[0].(egress := egress)] + old(View())[1..]
    {
      lruList[0].egress := egress;
    }

    // Element `i` with a new egress before all others.
    method Front(i: nat, egress: Egress)
      requires Linked() && i < |lruList|
      modifies this`lruList, Entries()
      ensures Linked() && Entries() == old(Entries())
      ensures View() == [old(View())[i].(egress := egress)] + Without(old(View()), i)
    {
      ghost var v := View();
      Fronted(i);
      Reorder(i);
      ghost var w := View();
      FrontedTail(w, v, i);
      Restamp(egress);
    }

    method MoveToFront(k: string, egress: Egress)
      requires Linked() && k in cache
      modifies this`lruList, Entries()
      ensures Linked() && View() == SetList(old(View()), k, egress, maxSize)
      ensures Entries() == old(Entries())
    {
      ghost var at := KeyAt(cache, lruList, k);
      var i :| 0 <= i < |lruList| && lruList[i] == cache[k];
      Present(k, i);
      SetPresent(View(), k, egress, maxSize, i);
      Front(i, egress);
    }

    lemma Fronted(i: nat)
      requires Linked() && i < |lruList|
      ensures Bijection(cache, [lruList[i]] + lruList[..i] + lruList[i + 1..])
    {
      FrontedBijection(cache, lruList, i);
    }

    lemma Present(k: string, i: nat)
      requires Linked() && k in cache && i < |lruList| && lruList[i] == cache[k]
      ensures IndexOf(View(), k) == i
    {
      IndexOfIs(View(), k);
      assert Listed(cache, lruList, k);
      assert View()[i].key == k;
    }

    method PushFront(k: string, egress: Egress)
      requires Linked() && k !in cache && |lruList| < maxSize
      modifies this
      ensures Linked() && View() == [Item(k, egress, false)] + old(View())
      ensures fresh(Entries() - old(Entries()))
    {
      var entry := new CacheEntry(k, egress);
      Prepend(entry);
    }

    method Prepend(entry: CacheEntry)
      requires Linked() && entry.key !in cache && |lruList| < maxSize
      modifies this
      ensures Linked() && lruList == [entry] + old(lruList) && View() == [entry.Value()] + old(View())
    {
      PushedBijection(cache, lruList, entry);
      lruList := [entry] + lruList;
      cache := cache[entry.key := entry];
    }

    method Set(k: string, egress: Egress)
      requires Linked()
      modifies this, Entries()
      ensures Linked() && View() == SetList(old(View()), k, egress, maxSize)
      ensures Stored(old(View()), View(), k, egress, maxSize)
      ensures fresh(Entries() - old(Entries()))
    {
      LinkedBounded();
      SetListStored(View(), k, egress, maxSize);
      if k in cache {
        MoveToFront(k, egress);
        return;
      }
      Absent(k);
      if |lruList| >= maxSize {
        Evict();
      }
      PushFront(k, egress);
    }

    // Linked tables have distinct keys and stay within bounds.
    lemma LinkedBounded()
      requires Linked()
      ensures Distinct(View()) && |View()| <= maxSize
    {
    }

    lemma Absent(k: string)
      requires Linked() && k !in cache
      ensures IndexOf(View(), k) < 0
    {
      IndexOfIs(View(), k);
    }

    method Reset()
      requires Linked()
      modifies this
      ensures Linked() && View() == []
    {
      cache := map[];
      lruList := [];
    }
  }
}
