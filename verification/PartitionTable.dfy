/** The partition table of the partition source: record identity, the record-level
    diff, and the comparison and removal count the applier gates on. */
module PartitionTable {
  datatype Partition = Partition(keys: seq<string>, weight: int, tag: string)

  type Table = seq<Partition>

  // ---- Identity

  function Digit(n: nat): char
    requires n < 10
  {
    "0123456789"[n]
  }

  function Digits(n: nat): (s: string)
    ensures s != []
  {
    if n < 10 then [Digit(n)] else Digits(n / 10) + [Digit(n % 10)]
  }

  function EncodeKey(k: string): string { Digits(|k|) + ":" + k }

  /** CanonicalID: each key prefixed by its length, joined by slashes. */
  function CanonicalId(keys: seq<string>): string {
    if keys == [] then ""
    else if |keys| == 1 then EncodeKey(keys[0])
    else EncodeKey(keys[0]) + ("/" + CanonicalId(keys[1..]))
  }

  function Id(p: Partition): string { CanonicalId(p.keys) }

  lemma {:induction false} DigitsHaveNoColon(n: nat, i: nat)
    requires i < |Digits(n)|
    ensures Digits(n)[i] != ':'
  {
    if n >= 10 && i < |Digits(n / 10)| { DigitsHaveNoColon(n / 10, i); }
  }

  lemma {:induction false} DigitsInjective(m: nat, n: nat)
    requires Digits(m) == Digits(n)
    ensures m == n
  {
    var a, b := Digits(m), Digits(n);
    assert a[|a| - 1] == Digit(m % 10) && b[|b| - 1] == Digit(n % 10);
    if m >= 10 && n >= 10 {
      assert a[..|a| - 1] == Digits(m / 10) && b[..|b| - 1] == Digits(n / 10);
      DigitsInjective(m / 10, n / 10);
    }
  }

  /** The length prefix makes the first key recoverable whatever follows it. */
  lemma FirstKeyRecovered(k: string, s: string, k': string, s': string)
    requires EncodeKey(k) + s == EncodeKey(k') + s'
    ensures k == k' && s == s'
  {
    var a, b := EncodeKey(k) + s, EncodeKey(k') + s';
    var m, n := |Digits(|k|)|, |Digits(|k'|)|;
    assert a[..m] == Digits(|k|) && b[..n] == Digits(|k'|);
    assert a[m] == ':' && b[n] == ':';
    if m < n { DigitsHaveNoColon(|k'|, m); }
    if n < m { DigitsHaveNoColon(|k|, n); }
    assert m == n;
    DigitsInjective(|k|, |k'|);
    assert a[m + 1..m + 1 + |k|] == k && b[m + 1..m + 1 + |k|] == k';
    assert a[m + 1 + |k|..] == s && b[m + 1 + |k|..] == s';
  }

  /** Two key tuples with one canonical id are the same tuple. */
  lemma {:induction false} CanonicalIdIsInjective(a: seq<string>, b: seq<string>)
    requires CanonicalId(a) == CanonicalId(b)
    ensures a == b
  {
    if a != [] && b != [] {
      var s := if |a| == 1 then "" else "/" + CanonicalId(a[1..]);
      var s' := if |b| == 1 then "" else "/" + CanonicalId(b[1..]);
      assert EncodeKey(a[0]) + s == CanonicalId(a) && EncodeKey(b[0]) + s' == CanonicalId(b);
      FirstKeyRecovered(a[0], s, b[0], s');
      if |a| > 1 && |b| > 1 {
        assert s[1..] == CanonicalId(a[1..]) && s'[1..] == CanonicalId(b[1..]);
        CanonicalIdIsInjective(a[1..], b[1..]);
      }
    }
  }

  // ---- Tables as finite maps

  predicate Distinct(t: Table) {
    forall i, j :: 0 <= i < j < |t| ==> Id(t[i]) != Id(t[j])
  }

  type Index = map<string, Partition>

  function ById(t: Table): Index {
    if t == [] then map[] else ById(t[..|t| - 1])[Id(t[|t| - 1]) := t[|t| - 1]]
  }

  lemma {:induction false} ByIdHolds(t: Table, p: Partition)
    requires Distinct(t)
    ensures p in t <==> Id(p) in ById(t) && ById(t)[Id(p)] == p
  {
    if t != [] {
      var rest := t[..|t| - 1];
      ByIdHolds(rest, p);
      ByIdKeys(rest, Id(t[|t| - 1]));
      assert t == rest + [t[|t| - 1]];
    }
  }

  lemma {:induction false} ByIdKeys(t: Table, id: string)
    ensures id in ById(t) <==> exists i :: 0 <= i < |t| && Id(t[i]) == id
    ensures id in ById(t) ==> Id(ById(t)[id]) == id
  {
    if t != [] { ByIdKeys(t[..|t| - 1], id); }
  }

  lemma {:induction false} ByIdSize(t: Table)
    requires Distinct(t)
    ensures |ById(t)| == |t|
  {
    if t != [] {
      ByIdSize(t[..|t| - 1]);
      ByIdKeys(t[..|t| - 1], Id(t[|t| - 1]));
    }
  }

  method Indexed(t: Table) returns (m: Index)
    ensures m == ById(t)
  {
    m := map[];
    for i := 0 to |t|
      invariant m == ById(t[..i])
    {
      assert t[..i + 1][..i] == t[..i];
      m := m[Id(t[i]) := t[i]];
    }
    assert t[..|t|] == t;
  }

  // ---- Comparison

  /** Same weight and label; with the same id, the same record. */
  lemma SameRecord(p: Partition, q: Partition)
    requires Id(p) == Id(q)
    ensures p.weight == q.weight && p.tag == q.tag <==> p == q
  {
    CanonicalIdIsInjective(p.keys, q.keys);
  }

  lemma SubIndexOfSameSize(a: Index, b: Index)
    requires |a| == |b| && forall id :: id in b ==> id in a && a[id] == b[id]
    ensures a == b
  {
    assert |a.Keys| == |a| && |b.Keys| == |b| && b.Keys <= a.Keys;
    assert |a.Keys - b.Keys| + |b.Keys| == |a.Keys|;
    assert a.Keys - b.Keys == {};
    forall id | id in a ensures id in b { assert id !in a.Keys - b.Keys; }
  }

  /** partitionTablesEqual: equal length and one-way lookup decide equality. */
  method TablesEqual(a: Table, b: Table) returns (same: bool)
    requires Distinct(a) && Distinct(b)
    ensures same <==> ById(a) == ById(b)
  {
    ByIdSize(a);
    ByIdSize(b);
    if |a| != |b| { return false; }
    var byId := Indexed(a);
    for i := 0 to |b|
      invariant forall k :: 0 <= k < i ==> Id(b[k]) in byId && byId[Id(b[k])] == b[k]
    {
      ByIdHolds(b, b[i]);
      ByIdKeys(a, Id(b[i]));
      if Id(b[i]) !in byId { return false; }
      SameRecord(byId[Id(b[i])], b[i]);
      if byId[Id(b[i])].weight != b[i].weight || byId[Id(b[i])].tag != b[i].tag { return false; }
    }
    forall id | id in ById(b) ensures id in ById(a) && ById(a)[id] == ById(b)[id] {
      ByIdKeys(b, id);
      var k :| 0 <= k < |b| && Id(b[k]) == id;
      ByIdHolds(b, b[k]);
    }
    SubIndexOfSameSize(ById(a), ById(b));
    return true;
  }

  lemma RemovalStep(t: Table, i: nat, ids: set<string>)
    requires Distinct(t) && i < |t|
    ensures |ById(t[..i + 1]).Keys - ids| == |ById(t[..i]).Keys - ids| + (if Id(t[i]) in ids then 0 else 1)
  {
    var seen, id := t[..i], Id(t[i]);
    assert t[..i + 1][..i] == seen;
    ByIdKeys(seen, id);
    assert id !in ById(seen);
    assert ById(t[..i + 1]).Keys == ById(seen).Keys + {id};
    if id in ids {
      assert ById(t[..i + 1]).Keys - ids == ById(seen).Keys - ids;
    } else {
      assert ById(t[..i + 1]).Keys - ids == (ById(seen).Keys - ids) + {id};
    }
  }

  /** countRemovals. */
  method CountRemovals(current: Table, target: Table) returns (n: nat)
    requires Distinct(current)
    ensures n == |ById(current).Keys - ById(target).Keys|
  {
    var ids := Indexed(target);
    n := 0;
    for i := 0 to |current|
      invariant n == |ById(current[..i]).Keys - ids.Keys|
    {
      RemovalStep(current, i, ids.Keys);
      if Id(current[i]) !in ids { n := n + 1; }
    }
    assert current[..|current|] == current;
  }
}
