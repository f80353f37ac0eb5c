/** Canonical object-key order of `kuberic-dex/src/typed.rs`. */
module CanonicalJson {
  import opened Base

  /** Keys are compared by their bytes; numbers and strings are opaque text here. */
  datatype Value =
    | Null
    | Bool(flag: bool)
    | Number(text: string)
    | Text(text: string)
    | Array(items: seq<Value>)
    | Object(entries: seq<Entry>)

  datatype Entry = Entry(key: Bytes, value: Value)

  // ---------------------------------------------------------------- key order

  /** Lexicographic byte order. */
  predicate AtMost(a: Bytes, b: Bytes)
  {
    a == [] || (b != [] && (a[0] < b[0] || (a[0] == b[0] && AtMost(a[1..], b[1..]))))
  }

  lemma {:induction false} AtMostTotal(a: Bytes, b: Bytes)
    ensures AtMost(a, b) || AtMost(b, a)
    ensures AtMost(a, b) && AtMost(b, a) ==> a == b
  {
    if a != [] && b != [] && a[0] == b[0] {
      AtMostTotal(a[1..], b[1..]);
      if a[1..] == b[1..] { assert a == [a[0]] + a[1..] && b == [b[0]] + b[1..]; }
    }
  }

  lemma {:induction false} AtMostTransitive(a: Bytes, b: Bytes, c: Bytes)
    requires AtMost(a, b) && AtMost(b, c)
    ensures AtMost(a, c)
  {
    if a != [] && a[0] == b[0] && b[0] == c[0] { AtMostTransitive(a[1..], b[1..], c[1..]); }
  }

  // ---------------------------------------------------------------- sorting entries

  predicate Sorted(entries: seq<Entry>)
  {
    forall i, j :: 0 <= i < j < |entries| ==> AtMost(entries[i].key, entries[j].key)
  }

  predicate DistinctKeys(entries: seq<Entry>)
  {
    forall i, j :: 0 <= i < j < |entries| ==> entries[i].key != entries[j].key
  }

  function Insert(entry: Entry, entries: seq<Entry>): (r: seq<Entry>)
    ensures |r| == |entries| + 1
    ensures forall e :: e in r <==> e == entry || e in entries
  {
    if entries == [] then [entry]
    else if AtMost(entry.key, entries[0].key) then [entry] + entries
    else
      assert entries == [entries[0]] + entries[1..];
      [entries[0]] + Insert(entry, entries[1..])
  }

  function Sort(entries: seq<Entry>): (r: seq<Entry>)
    ensures |r| == |entries|
    ensures forall e :: e in r <==> e in entries
  {
    if entries == [] then []
    else
      assert entries == [entries[0]] + entries[1..];
      Insert(entries[0], Sort(entries[1..]))
  }

  lemma {:induction false} InsertSorted(entry: Entry, entries: seq<Entry>)
    requires Sorted(entries)
    ensures Sorted(Insert(entry, entries))
  {
    var r := Insert(entry, entries);
    if entries != [] {
      if AtMost(entry.key, entries[0].key) {
        forall i, j | 0 <= i < j < |r| ensures AtMost(r[i].key, r[j].key) {
          if i == 0 && j > 1 { AtMostTransitive(entry.key, entries[0].key, entries[j - 1].key); }
        }
      } else {
        AtMostTotal(entry.key, entries[0].key);
        InsertSorted(entry, entries[1..]);
        var rest := Insert(entry, entries[1..]);
        forall j | 0 <= j < |rest| ensures AtMost(entries[0].key, rest[j].key) {
          assert rest[j] in rest;
          if rest[j] in entries[1..] {
            var k :| 0 <= k < |entries[1..]| && entries[1..][k] == rest[j];
            assert entries[k + 1] == rest[j];
          }
        }
      }
    }
  }

  lemma {:induction false} SortSorted(entries: seq<Entry>)
    ensures Sorted(Sort(entries))
  {
    if entries != [] {
      SortSorted(entries[1..]);
      InsertSorted(entries[0], Sort(entries[1..]));
    }
  }

  /** A sorted sequence is left as it is. */
  lemma {:induction false} SortKeepsSorted(entries: seq<Entry>)
    requires Sorted(entries)
    ensures Sort(entries) == entries
  {
    if entries != [] {
      SortKeepsSorted(entries[1..]);
      assert entries == [entries[0]] + entries[1..];
    }
  }

  ghost predicate SameEntries(a: seq<Entry>, b: seq<Entry>)
  {
    forall e :: e in a <==> e in b
  }

  /** Without repeated keys, the entries alone determine the sorted sequence. */
  lemma {:induction false} SortedUnique(a: seq<Entry>, b: seq<Entry>)
    requires Sorted(a) && Sorted(b) && DistinctKeys(a) && DistinctKeys(b) && SameEntries(a, b)
    ensures a == b
  {
    assert b != [] ==> b[0] in b;
    if a != [] {
      assert a[0] in b;
      var j :| 0 <= j < |b| && b[j] == a[0];
      assert b[0] in a;
      var i :| 0 <= i < |a| && a[i] == b[0];
      AtMostTotal(a[0].key, b[0].key);
      assert a[0] == b[0];
      TailEntries(a, b);
      SortedUnique(a[1..], b[1..]);
      assert a == [a[0]] + a[1..] && b == [b[0]] + b[1..];
    }
  }

  lemma TailEntries(a: seq<Entry>, b: seq<Entry>)
    requires a != [] && b != [] && a[0] == b[0] && DistinctKeys(a) && DistinctKeys(b) && SameEntries(a, b)
    ensures SameEntries(a[1..], b[1..])
  {
    forall e ensures e in a[1..] <==> e in b[1..] {
      TailMember(a, e);
      TailMember(b, e);
      assert e in a <==> e in b;
    }
  }

  lemma TailMember(a: seq<Entry>, e: Entry)
    requires a != [] && DistinctKeys(a)
    ensures e in a[1..] <==> e in a && e != a[0]
  {
    if e in a[1..] {
      var k :| 0 <= k < |a[1..]| && a[1..][k] == e;
      assert a[k + 1] == e;
    }
    if e in a && e != a[0] {
      var k :| 0 <= k < |a| && a[k] == e;
      assert a[1..][k - 1] == e;
    }
  }

  /** Sorting does not repeat keys. */
  lemma {:induction false} SortDistinct(entries: seq<Entry>)
    requires DistinctKeys(entries)
    ensures DistinctKeys(Sort(entries))
  {
    if entries != [] {
      SortDistinct(entries[1..]);
      forall e | e in Sort(entries[1..]) ensures e.key != entries[0].key {
        var k :| 0 <= k < |entries[1..]| && entries[1..][k] == e;
        assert entries[k + 1] == e;
      }
      InsertDistinct(entries[0], Sort(entries[1..]));
    }
  }

  lemma {:induction false} InsertDistinct(entry: Entry, entries: seq<Entry>)
    requires DistinctKeys(entries) && forall e :: e in entries ==> e.key != entry.key
    ensures DistinctKeys(Insert(entry, entries))
  {
    if entries != [] && !AtMost(entry.key, entries[0].key) {
      InsertDistinct(entry, entries[1..]);
      var rest := Insert(entry, entries[1..]);
      forall j | 0 <= j < |rest| ensures entries[0].key != rest[j].key {
        assert rest[j] in rest;
        if rest[j] in entries[1..] {
          var k :| 0 <= k < |entries[1..]| && entries[1..][k] == rest[j];
          assert entries[k + 1] == rest[j];
        }
      }
    }
  }

  // ---------------------------------------------------------------- canonical form

  function Canon(value: Value): (r: Value)
    decreases value
  {
    match value
    case Array(items) => Array(seq(|items|, i requires 0 <= i < |items| => Canon(items[i])))
    case Object(entries) => Object(Sort(seq(|entries|, i requires 0 <= i < |entries| => Entry(entries[i].key, Canon(entries[i].value)))))
    case _ => value
  }

  /** The entries of an object with every value already canonical, in their original order. */
  function CanonEntries(entries: seq<Entry>): (r: seq<Entry>)
    ensures |r| == |entries|
    ensures forall i :: 0 <= i < |r| ==> r[i] == Entry(entries[i].key, Canon(entries[i].value))
  {
    seq(|entries|, i requires 0 <= i < |entries| => Entry(entries[i].key, Canon(entries[i].value)))
  }

  lemma CanonObject(entries: seq<Entry>)
    ensures Canon(Object(entries)) == Object(Sort(CanonEntries(entries)))
  {
    assert CanonEntries(entries) == seq(|entries|, i requires 0 <= i < |entries| => Entry(entries[i].key, Canon(entries[i].value)));
  }

  /** Key sorting is idempotent. */
  lemma {:induction false} CanonIdempotent(value: Value)
    ensures Canon(Canon(value)) == Canon(value)
    decreases value
  {
    match value
    case Array(items) =>
      forall i | 0 <= i < |items| ensures Canon(Canon(items[i])) == Canon(items[i]) { CanonIdempotent(items[i]); }
      assert Canon(Canon(value)).items == Canon(value).items;
    case Object(entries) =>
      CanonObject(entries);
      var sorted := Sort(CanonEntries(entries));
      SortSorted(CanonEntries(entries));
      forall i | 0 <= i < |sorted| ensures Canon(sorted[i].value) == sorted[i].value {
        assert sorted[i] in CanonEntries(entries);
        var k :| 0 <= k < |entries| && CanonEntries(entries)[k] == sorted[i];
        CanonIdempotent(entries[k].value);
      }
      assert CanonEntries(sorted) == sorted;
      CanonObject(sorted);
      SortKeepsSorted(sorted);
    case _ =>
  }

  // ---------------------------------------------------------------- lookups

  /** One step into a value: an array position or an object key. */
  datatype Selector = Position(index: nat) | Member(key: Bytes)

  function Find(entries: seq<Entry>, key: Bytes): (v: Option<Value>)
  {
    if entries == [] then None
    else if entries[0].key == key then Some(entries[0].value)
    else Find(entries[1..], key)
  }

  function Select(value: Value, selector: Selector): (v: Option<Value>)
  {
    match (value, selector)
    case (Array(items), Position(index)) => if index < |items| then Some(items[index]) else None
    case (Object(entries), Member(key)) => Find(entries, key)
    case _ => None
  }

  function Get(value: Value, path: seq<Selector>): (v: Option<Value>)
    decreases |path|
  {
    if path == [] then Some(value)
    else
      var next := Select(value, path[0]);
      if next.None? then None else Get(next.value, path[1..])
  }

  /** No object repeats a key, at any depth. */
  predicate WellFormed(value: Value)
    decreases value
  {
    match value
    case Array(items) => forall i :: 0 <= i < |items| ==> WellFormed(items[i])
    case Object(entries) => DistinctKeys(entries) && forall i :: 0 <= i < |entries| ==> WellFormed(entries[i].value)
    case _ => true
  }

  lemma {:induction false} FindMember(entries: seq<Entry>, key: Bytes)
    ensures Find(entries, key).Some? ==> Entry(key, Find(entries, key).value) in entries
    ensures Find(entries, key).None? ==> forall e :: e in entries ==> e.key != key
  {
    if entries != [] {
      assert entries == [entries[0]] + entries[1..];
      if entries[0].key != key { FindMember(entries[1..], key); }
    }
  }

  /** Without repeated keys, a lookup depends only on the entries. */
  lemma FindUnique(a: seq<Entry>, b: seq<Entry>, key: Bytes)
    requires DistinctKeys(a) && SameEntries(a, b)
    ensures Find(a, key) == Find(b, key)
  {
    FindMember(a, key);
    FindMember(b, key);
    if Find(a, key).Some? && Find(b, key).Some? {
      var x, y := Entry(key, Find(a, key).value), Entry(key, Find(b, key).value);
      var i :| 0 <= i < |a| && a[i] == x;
      assert y in a;
      var j :| 0 <= j < |a| && a[j] == y;
      assert i == j;
    }
  }

  lemma {:induction false} FindCanon(entries: seq<Entry>, key: Bytes)
    ensures
      var found := Find(entries, key);
      Find(CanonEntries(entries), key) == (if found.None? then None else Some(Canon(found.value)))
  {
    if entries != [] {
      FindCanon(entries[1..], key);
      assert CanonEntries(entries)[1..] == CanonEntries(entries[1..]);
    }
  }

  lemma SelectCanon(value: Value, selector: Selector)
    requires WellFormed(value)
    ensures
      var next := Select(value, selector);
      Select(Canon(value), selector) == (if next.None? then None else Some(Canon(next.value)))
  {
    match (value, selector)
    case (Object(entries), Member(key)) =>
      CanonObject(entries);
      var mapped := CanonEntries(entries);
      FindCanon(entries, key);
      FindUnique(mapped, Sort(mapped), key);
    case _ =>
  }

  lemma SelectWellFormed(value: Value, selector: Selector)
    requires WellFormed(value) && Select(value, selector).Some?
    ensures WellFormed(Select(value, selector).value)
  {
    match (value, selector)
    case (Object(entries), Member(key)) =>
      FindMember(entries, key);
      var i :| 0 <= i < |entries| && entries[i] == Entry(key, Find(entries, key).value);
      assert WellFormed(entries[i].value);
    case _ =>
  }

  /** Every lookup at every depth finds the canonical form of what it found before. */
  lemma {:induction false} LookupsPreserved(value: Value, path: seq<Selector>)
    requires WellFormed(value)
    ensures
      var found := Get(value, path);
      Get(Canon(value), path) == (if found.None? then None else Some(Canon(found.value)))
    decreases |path|
  {
    if path != [] {
      SelectCanon(value, path[0]);
      var next := Select(value, path[0]);
      if next.Some? {
        SelectWellFormed(value, path[0]);
        LookupsPreserved(next.value, path[1..]);
      }
    }
  }

  // ---------------------------------------------------------------- equality up to key order

  /** Equal up to the order of object keys, at every depth. */
  ghost predicate Similar(a: Value, b: Value)
    decreases a
  {
    match a
    case Array(items) =>
      b.Array? && |items| == |b.items| && forall i :: 0 <= i < |items| ==> Similar(items[i], b.items[i])
    case Object(entries) =>
      && b.Object?
      && (forall i :: 0 <= i < |entries| ==> HasSimilar(entries[i], b.entries))
      && (forall j :: 0 <= j < |b.entries| ==> IsSimilarTo(b.entries[j], entries))
    case _ => a == b
  }

  /** Some entry of `others` has this key and a similar value. */
  ghost predicate HasSimilar(entry: Entry, others: seq<Entry>)
    decreases entry
  {
    exists j :: 0 <= j < |others| && others[j].key == entry.key && Similar(entry.value, others[j].value)
  }

  /** Some entry of `others` has this key and a value this one is similar to. */
  ghost predicate IsSimilarTo(entry: Entry, others: seq<Entry>)
    decreases others
  {
    exists i :: 0 <= i < |others| && entry.key == others[i].key && Similar(others[i].value, entry.value)
  }

  /** Values equal up to key order have one canonical form, and only those do. */
  lemma {:induction false} CanonicalIff(a: Value, b: Value)
    requires WellFormed(a) && WellFormed(b)
    ensures Similar(a, b) <==> Canon(a) == Canon(b)
    decreases a
  {
    if a.Array? && b.Array? {
      ArrayIff(a, b);
    } else if a.Object? && b.Object? {
      ObjectIff(a, b);
    }
  }

  lemma {:induction false} ArrayIff(a: Value, b: Value)
    requires WellFormed(a) && WellFormed(b) && a.Array? && b.Array?
    ensures Similar(a, b) <==> Canon(a) == Canon(b)
    decreases a, 0
  {
    if |a.items| == |b.items| {
      forall i | 0 <= i < |a.items| ensures Similar(a.items[i], b.items[i]) <==> Canon(a.items[i]) == Canon(b.items[i]) {
        CanonicalIff(a.items[i], b.items[i]);
      }
      if Similar(a, b) { assert Canon(a).items == Canon(b).items; }
      if Canon(a) == Canon(b) {
        forall i | 0 <= i < |a.items| ensures Similar(a.items[i], b.items[i]) {
          assert Canon(a).items[i] == Canon(b).items[i];
        }
      }
    } else {
      assert |Canon(a).items| == |a.items| && |Canon(b).items| == |b.items|;
    }
  }

  lemma HasSimilarIff(entry: Entry, others: seq<Entry>)
    requires forall j :: 0 <= j < |others| ==> (Similar(entry.value, others[j].value) <==> Canon(entry.value) == Canon(others[j].value))
    ensures HasSimilar(entry, others) <==> Entry(entry.key, Canon(entry.value)) in CanonEntries(others)
  {
    hide Similar;
    hide Canon;
    var mapped := CanonEntries(others);
    if HasSimilar(entry, others) {
      var j :| 0 <= j < |others| && others[j].key == entry.key && Similar(entry.value, others[j].value);
      assert mapped[j] == Entry(entry.key, Canon(entry.value));
    }
    if Entry(entry.key, Canon(entry.value)) in mapped {
      var j :| 0 <= j < |mapped| && mapped[j] == Entry(entry.key, Canon(entry.value));
      assert others[j].key == entry.key && Similar(entry.value, others[j].value);
    }
  }

  lemma IsSimilarToIff(entry: Entry, others: seq<Entry>)
    requires forall i :: 0 <= i < |others| ==> (Similar(others[i].value, entry.value) <==> Canon(others[i].value) == Canon(entry.value))
    ensures IsSimilarTo(entry, others) <==> Entry(entry.key, Canon(entry.value)) in CanonEntries(others)
  {
    hide Similar;
    hide Canon;
    var mapped := CanonEntries(others);
    if IsSimilarTo(entry, others) {
      var i :| 0 <= i < |others| && entry.key == others[i].key && Similar(others[i].value, entry.value);
      assert mapped[i] == Entry(entry.key, Canon(entry.value));
    }
    if Entry(entry.key, Canon(entry.value)) in mapped {
      var i :| 0 <= i < |mapped| && mapped[i] == Entry(entry.key, Canon(entry.value));
      assert entry.key == others[i].key && Similar(others[i].value, entry.value);
    }
  }

  lemma SortedSame(left: seq<Entry>, right: seq<Entry>)
    requires DistinctKeys(left) && DistinctKeys(right)
    ensures SameEntries(left, right) <==> Sort(left) == Sort(right)
  {
    SortSorted(left);
    SortSorted(right);
    SortDistinct(left);
    SortDistinct(right);
    if SameEntries(left, right) { SortedUnique(Sort(left), Sort(right)); }
    if Sort(left) == Sort(right) {
      forall e ensures e in left <==> e in right { assert e in Sort(left) <==> e in Sort(right); }
    }
  }

  lemma {:induction false} ObjectIff(a: Value, b: Value)
    requires WellFormed(a) && WellFormed(b) && a.Object? && b.Object?
    ensures Similar(a, b) <==> Canon(a) == Canon(b)
    decreases a, 0
  {
    hide Canon;
    hide Sort;
    hide HasSimilar;
    hide IsSimilarTo;
    var left, right := CanonEntries(a.entries), CanonEntries(b.entries);
    CanonObject(a.entries);
    CanonObject(b.entries);
    SortedSame(left, right);
    forall i | 0 <= i < |a.entries| ensures HasSimilar(a.entries[i], b.entries) <==> left[i] in right {
      forall j | 0 <= j < |b.entries|
        ensures Similar(a.entries[i].value, b.entries[j].value) <==> Canon(a.entries[i].value) == Canon(b.entries[j].value)
      {
        CanonicalIff(a.entries[i].value, b.entries[j].value);
      }
      HasSimilarIff(a.entries[i], b.entries);
    }
    forall j | 0 <= j < |b.entries| ensures IsSimilarTo(b.entries[j], a.entries) <==> right[j] in left {
      forall i | 0 <= i < |a.entries|
        ensures Similar(a.entries[i].value, b.entries[j].value) <==> Canon(a.entries[i].value) == Canon(b.entries[j].value)
      {
        CanonicalIff(a.entries[i].value, b.entries[j].value);
      }
      IsSimilarToIff(b.entries[j], a.entries);
    }
    assert SameEntries(left, right) <==> (forall i :: 0 <= i < |left| ==> left[i] in right) && (forall j :: 0 <= j < |right| ==> right[j] in left);
  }

  // ---------------------------------------------------------------- the recursive pass

  /** Insertion into the already sorted part, one entry at a time. */
  method SortEntries(entries: seq<Entry>) returns (sorted: seq<Entry>)
    ensures sorted == Sort(entries)
  {
    sorted := [];
    var i := |entries|;
    assert entries[i..] == [];
    while i > 0
      invariant 0 <= i <= |entries|
      invariant sorted == Sort(entries[i..])
    {
      i := i - 1;
      assert entries[i..][1..] == entries[i + 1..];
      sorted := Insert(entries[i], sorted);
    }
    assert entries[0..] == entries;
  }

  /** The pass over a whole value: children in place, then the entries of each object in key order. */
  method CanonicalizeObjectKeys(value: Value) returns (r: Value)
    ensures r == Canon(value)
    decreases value
  {
    match value {
      case Array(items) =>
        var done: seq<Value> := [];
        for i := 0 to |items|
          invariant |done| == i
          invariant forall k :: 0 <= k < i ==> done[k] == Canon(items[k])
        {
          var item := CanonicalizeObjectKeys(items[i]);
          done := done + [item];
        }
        return Array(done);
      case Object(entries) =>
        var done: seq<Entry> := [];
        for i := 0 to |entries|
          invariant |done| == i
          invariant forall k :: 0 <= k < i ==> done[k] == Entry(entries[k].key, Canon(entries[k].value))
        {
          var item := CanonicalizeObjectKeys(entries[i].value);
          done := done + [Entry(entries[i].key, item)];
        }
        CanonObject(entries);
        assert done == CanonEntries(entries);
        var sorted := SortEntries(done);
        return Object(sorted);
      case _ => return value;
    }
  }
}
