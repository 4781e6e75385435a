/** The record-level diff between a live and a declared partition table, and the patch
    that undoes it. */
module PartitionDiff {
  import opened PartitionTable

  /** A record whose weight or label changes. */
  datatype Change = Change(keys: seq<string>, oldWeight: int, newWeight: int, oldTag: string, newTag: string)
  {
    function Flipped(): Change { Change(keys, newWeight, oldWeight, newTag, oldTag) }
  }

  function ChangeId(c: Change): string { CanonicalId(c.keys) }

  function ChangeOf(l: Partition, d: Partition): Change {
    Change(d.keys, l.weight, d.weight, l.tag, d.tag)
  }

  predicate Differ(l: Partition, d: Partition) {
    l.weight != d.weight || l.tag != d.tag
  }

  // ---- Sorting by identity

  /** The byte order of strings.Compare. */
  predicate Less(a: string, b: string) {
    if b == [] then false
    else if a == [] then true
    else if a[0] != b[0] then a[0] < b[0]
    else Less(a[1..], b[1..])
  }

  lemma {:induction false} LessTotal(a: string, b: string)
    ensures a == b || Less(a, b) || Less(b, a)
  {
    if a != [] && b != [] && a[0] == b[0] {
      LessTotal(a[1..], b[1..]);
      assert a == [a[0]] + a[1..] && b == [b[0]] + b[1..];
    }
  }

  lemma {:induction false} LessTransitive(a: string, b: string, c: string)
    requires Less(a, b) && Less(b, c)
    ensures Less(a, c)
  {
    if a != [] && a[0] == b[0] == c[0] { LessTransitive(a[1..], b[1..], c[1..]); }
  }

  predicate Sorted<T>(s: seq<T>, id: T -> string) {
    forall i, j :: 0 <= i < j < |s| ==> Less(id(s[i]), id(s[j]))
  }

  predicate IdsDistinct<T>(s: seq<T>, id: T -> string) {
    forall i, j :: 0 <= i < j < |s| ==> id(s[i]) != id(s[j])
  }

  function Insert<T>(s: seq<T>, x: T, id: T -> string): seq<T> {
    if s == [] then [x]
    else if Less(id(x), id(s[0])) then [x] + s
    else [s[0]] + Insert(s[1..], x, id)
  }

  lemma {:induction false} InsertAdds<T>(s: seq<T>, x: T, id: T -> string)
    ensures multiset(Insert(s, x, id)) == multiset(s) + multiset{x}
  {
    if s != [] {
      InsertAdds(s[1..], x, id);
      assert s == [s[0]] + s[1..];
    }
  }

  lemma ConsSorted<T>(x: T, s: seq<T>, id: T -> string)
    requires Sorted(s, id) && forall y :: y in s ==> Less(id(x), id(y))
    ensures Sorted([x] + s, id)
  {
  }

  lemma {:induction false} InsertSorted<T>(s: seq<T>, x: T, id: T -> string)
    requires Sorted(s, id) && forall y :: y in s ==> id(y) != id(x)
    ensures Sorted(Insert(s, x, id), id)
  {
    if s == [] { return; }
    LessTotal(id(x), id(s[0]));
    if Less(id(x), id(s[0])) {
      forall y | y in s ensures Less(id(x), id(y)) {
        if y != s[0] { LessTransitive(id(x), id(s[0]), id(y)); }
      }
      ConsSorted(x, s, id);
    } else {
      var rest := Insert(s[1..], x, id);
      InsertSorted(s[1..], x, id);
      InsertAdds(s[1..], x, id);
      forall y | y in rest ensures Less(id(s[0]), id(y)) {
        assert y in multiset(rest);
        assert y == x || y in s[1..];
      }
      ConsSorted(s[0], rest, id);
    }
  }

  method SortById<T>(s: seq<T>, id: T -> string) returns (r: seq<T>)
    requires IdsDistinct(s, id)
    ensures Sorted(r, id) && multiset(r) == multiset(s)
    ensures forall x :: x in r <==> x in s
  {
    r := [];
    for i := 0 to |s|
      invariant Sorted(r, id) && multiset(r) == multiset(s[..i])
    {
      forall y | y in r ensures id(y) != id(s[i]) { assert y in multiset(r); assert y in s[..i]; }
      InsertSorted(r, s[i], id);
      InsertAdds(r, s[i], id);
      r := Insert(r, s[i], id);
      assert s[..i + 1] == s[..i] + [s[i]];
    }
    assert s[..|s|] == s;
    forall x ensures x in r <==> x in s { assert x in multiset(r) <==> x in multiset(s); }
  }

  // ---- What a diff is

  ghost predicate WellKeyed(m: Index) {
    forall id :: id in m ==> Id(m[id]) == id
  }

  /** The three parts hold exactly the new, the gone and the altered records. */
  ghost predicate IsDiff(live: Index, desired: Index, added: Table, removed: Table, changed: seq<Change>) {
    && (forall p :: p in added <==> Id(p) in desired && desired[Id(p)] == p && Id(p) !in live)
    && (forall p :: p in removed <==> Id(p) in live && live[Id(p)] == p && Id(p) !in desired)
    && (forall c :: c in changed <==> Altered(live, desired, ChangeId(c), c))
  }

  predicate Altered(live: Index, desired: Index, id: string, c: Change) {
    id in live && id in desired && Differ(live[id], desired[id]) && c == ChangeOf(live[id], desired[id])
  }

  ghost predicate Ordered(added: Table, removed: Table, changed: seq<Change>) {
    Sorted(added, Id) && Sorted(removed, Id) && Sorted(changed, ChangeId)
  }

  lemma TableIsWellKeyed(t: Table)
    ensures WellKeyed(ById(t))
  {
    forall id | id in ById(t) ensures Id(ById(t)[id]) == id { ByIdKeys(t, id); }
  }

  /** diffPartitions. */
  method Diff(live: Table, desired: Table) returns (added: Table, removed: Table, changed: seq<Change>)
    ensures IsDiff(ById(live), ById(desired), added, removed, changed)
    ensures Ordered(added, removed, changed)
  {
    var liveById := Indexed(live);
    var desiredById := Indexed(desired);
    TableIsWellKeyed(live);
    TableIsWellKeyed(desired);
    var newcomers := Missing(desiredById, liveById);
    var altered := CollectAltered(liveById, desiredById);
    var gone := Missing(liveById, desiredById);
    added := SortById(newcomers, Id);
    removed := SortById(gone, Id);
    changed := SortById(altered, ChangeId);
  }

  /** The records of `from` whose id `other` lacks. */
  method Missing(from: Index, other: Index) returns (r: Table)
    requires WellKeyed(from)
    ensures IdsDistinct(r, Id)
    ensures forall p :: p in r <==> Id(p) in from && from[Id(p)] == p && Id(p) !in other
  {
    var todo := from.Keys;
    r := [];
    while todo != {}
      invariant todo <= from.Keys
      invariant IdsDistinct(r, Id)
      invariant forall p :: p in r <==> Id(p) in from.Keys - todo && from[Id(p)] == p && Id(p) !in other
      decreases |todo|
    {
      var id :| id in todo;
      todo := todo - {id};
      if id !in other { r := r + [from[id]]; }
    }
  }

  method CollectAltered(live: Index, desired: Index) returns (r: seq<Change>)
    requires WellKeyed(live) && WellKeyed(desired)
    ensures IdsDistinct(r, ChangeId)
    ensures forall c :: c in r <==> Altered(live, desired, ChangeId(c), c)
  {
    var todo := desired.Keys;
    r := [];
    while todo != {}
      invariant todo <= desired.Keys
      invariant IdsDistinct(r, ChangeId)
      invariant forall c :: c in r <==> ChangeId(c) !in todo && Altered(live, desired, ChangeId(c), c)
      decreases |todo|
    {
      var id :| id in todo;
      todo := todo - {id};
      if id in live && Differ(live[id], desired[id]) { r := r + [ChangeOf(live[id], desired[id])]; }
    }
  }

  // ---- Patching

  function Ids(t: Table): set<string> { set p | p in t :: Id(p) }

  function Put(m: Index, t: Table): Index {
    if t == [] then m else Put(m, t[..|t| - 1])[Id(t[|t| - 1]) := t[|t| - 1]]
  }

  function Rewrite(m: Index, cs: seq<Change>): Index {
    if cs == [] then m
    else
      var c := cs[|cs| - 1];
      Rewrite(m, cs[..|cs| - 1])[ChangeId(c) := Partition(c.keys, c.newWeight, c.newTag)]
  }

  /** Drops the removed records, rewrites the changed ones and adds the new ones. */
  function Patch(m: Index, added: Table, removed: Table, changed: seq<Change>): Index {
    Put(Rewrite(m - Ids(removed), changed), added)
  }

  lemma {:induction false} PutAt(m: Index, t: Table, id: string)
    ensures id in Put(m, t) <==> id in m || exists p :: p in t && Id(p) == id
    ensures id in Put(m, t) ==>
      || (Put(m, t)[id] in t && Id(Put(m, t)[id]) == id)
      || ((forall p :: p in t ==> Id(p) != id) && id in m && Put(m, t)[id] == m[id])
  {
    if t != [] {
      var last := t[|t| - 1];
      PutAt(m, t[..|t| - 1], id);
      assert t == t[..|t| - 1] + [last];
    }
  }

  lemma {:induction false} RewriteAt(m: Index, cs: seq<Change>, id: string)
    ensures id in Rewrite(m, cs) <==> id in m || exists c :: c in cs && ChangeId(c) == id
    ensures id in Rewrite(m, cs) ==>
      || (exists c :: c in cs && ChangeId(c) == id && Rewrite(m, cs)[id] == Partition(c.keys, c.newWeight, c.newTag))
      || ((forall c :: c in cs ==> ChangeId(c) != id) && id in m && Rewrite(m, cs)[id] == m[id])
  {
    if cs != [] {
      var last := cs[|cs| - 1];
      RewriteAt(m, cs[..|cs| - 1], id);
      assert cs == cs[..|cs| - 1] + [last];
    }
  }

  lemma PatchAt(live: Index, desired: Index, added: Table, removed: Table, changed: seq<Change>, id: string)
    requires WellKeyed(live) && WellKeyed(desired) && IsDiff(live, desired, added, removed, changed)
    ensures var r := Patch(live, added, removed, changed);
      (id in r <==> id in desired) && (id in desired ==> r[id] == desired[id])
  {
    var kept := live - Ids(removed);
    RewriteAt(kept, changed, id);
    PutAt(Rewrite(kept, changed), added, id);
    if id in desired && id !in live {
      assert desired[id] in added;
    } else if id in desired {
      assert id in kept;
      SameRecord(live[id], desired[id]);
      if Differ(live[id], desired[id]) { assert ChangeOf(live[id], desired[id]) in changed; }
    } else if id in live {
      assert live[id] in removed;
    }
  }

  /** Applying a diff to the live table gives exactly the declared one. */
  lemma PatchMakesDesired(live: Index, desired: Index, added: Table, removed: Table, changed: seq<Change>)
    requires WellKeyed(live) && WellKeyed(desired) && IsDiff(live, desired, added, removed, changed)
    ensures Patch(live, added, removed, changed) == desired
  {
    forall id
      ensures var r := Patch(live, added, removed, changed);
        (id in r <==> id in desired) && (id in desired ==> r[id] == desired[id])
    {
      PatchAt(live, desired, added, removed, changed, id);
    }
  }

  function Flip(cs: seq<Change>): (r: seq<Change>)
    ensures |r| == |cs| && forall i :: 0 <= i < |cs| ==> r[i] == cs[i].Flipped()
  {
    seq(|cs|, i requires 0 <= i < |cs| => cs[i].Flipped())
  }

  lemma FlipHolds(cs: seq<Change>, c: Change)
    ensures c in Flip(cs) <==> c.Flipped() in cs
  {
    if c.Flipped() in cs {
      var i :| 0 <= i < |cs| && cs[i] == c.Flipped();
      assert Flip(cs)[i] == c;
    }
  }

  /** Swapping added with removed and old with new undoes the patch. */
  lemma PatchUndone(live: Index, desired: Index, added: Table, removed: Table, changed: seq<Change>)
    requires WellKeyed(live) && WellKeyed(desired) && IsDiff(live, desired, added, removed, changed)
    ensures Patch(desired, removed, added, Flip(changed)) == live
  {
    forall c ensures c in Flip(changed) <==> Altered(desired, live, ChangeId(c), c) {
      FlipHolds(changed, c);
      var id := ChangeId(c);
      if id in live && id in desired { SameKeys(live[id], desired[id]); }
    }
    PatchMakesDesired(desired, live, removed, added, Flip(changed));
  }

  lemma SameKeys(p: Partition, q: Partition)
    requires Id(p) == Id(q)
    ensures p.keys == q.keys
  {
    CanonicalIdIsInjective(p.keys, q.keys);
  }

  /** No record is in two parts. */
  lemma PartsDisjoint(live: Index, desired: Index, added: Table, removed: Table, changed: seq<Change>)
    requires IsDiff(live, desired, added, removed, changed)
    ensures forall p, q :: p in added && q in removed ==> Id(p) != Id(q)
    ensures forall p, c :: p in added && c in changed ==> Id(p) != ChangeId(c)
    ensures forall p, c :: p in removed && c in changed ==> Id(p) != ChangeId(c)
  {
  }

  lemma EmptyExactlyWhenEqual(live: Index, desired: Index, added: Table, removed: Table, changed: seq<Change>)
    requires WellKeyed(live) && WellKeyed(desired) && IsDiff(live, desired, added, removed, changed)
    ensures added == [] && removed == [] && changed == [] <==> live == desired
  {
    if added != [] { assert added[0] in added; }
    if removed != [] { assert removed[0] in removed; }
    if changed != [] { assert changed[0] in changed; }
    if added == [] && removed == [] && changed == [] {
      PatchMakesDesired(live, desired, added, removed, changed);
      assert Ids([]) == {};
      assert live - {} == live;
    }
  }

  /** PlanPartitions emits a write exactly when the applier's comparison sees a
      difference, and the write it emits turns live into declared and back. */
  method PlanWrite(live: Table, desired: Table)
    returns (needed: bool, added: Table, removed: Table, changed: seq<Change>)
    requires Distinct(live) && Distinct(desired)
    ensures needed <==> ById(live) != ById(desired)
    ensures Ordered(added, removed, changed)
    ensures Patch(ById(live), added, removed, changed) == ById(desired)
    ensures Patch(ById(desired), removed, added, Flip(changed)) == ById(live)
  {
    added, removed, changed := Diff(live, desired);
    needed := |added| != 0 || |removed| != 0 || |changed| != 0;
    TableIsWellKeyed(live);
    TableIsWellKeyed(desired);
    EmptyExactlyWhenEqual(ById(live), ById(desired), added, removed, changed);
    PatchMakesDesired(ById(live), ById(desired), added, removed, changed);
    PatchUndone(ById(live), ById(desired), added, removed, changed);
  }
}
