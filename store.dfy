/**
 The value behind `identifier_map`: a `defaultdict(list)` from file name to
 record list. Python dictionaries iterate in insertion order, so the store
 keeps its keys in that order beside the map.
 */
module Store {
  import opened Syntax
  import opened Identifiers
  import opened Sequences

  datatype Store = Store(keys: seq<string>, entries: map<string, seq<Record>>)

  const Empty := Store([], map[])

  /** No name occurs twice in `ks`. */
  predicate NoDuplicates(ks: seq<string>)
    decreases |ks|
  {
    ks == [] || (NoDuplicates(ks[..|ks| - 1]) && ks[|ks| - 1] !in ks[..|ks| - 1])
  }

  /** Keys are distinct, are exactly the map's keys, and every key holds at
      least one record: `defaultdict` creates a key only on the access that
      appends to it. */
  ghost predicate WellFormed(s: Store) {
    && NoDuplicates(s.keys)
    && (forall f {:trigger f in s.keys} :: f in s.keys ==> f in s.entries)
    && (forall f {:trigger f in s.entries} :: f in s.entries ==> f in s.keys && s.entries[f] != [])
  }

  /** The list `identifier_map[f]` would show: empty for a missing key. */
  function Lookup(s: Store, f: string): seq<Record> {
    if f in s.entries then s.entries[f] else []
  }

  /** `identifier_map[f].append(x)` for each `x` of `rs`, in order. */
  function Append(s: Store, f: string, rs: seq<Record>): (r: Store)
    ensures WellFormed(s) ==> WellFormed(r)
    ensures Lookup(r, f) == Lookup(s, f) + rs
    ensures forall g :: g != f ==> Lookup(r, g) == Lookup(s, g)
    ensures f in r.entries <==> f in s.entries || rs != []
    ensures forall g :: g != f ==> (g in r.entries <==> g in s.entries)
    ensures r.keys == s.keys || (f !in s.entries && rs != [] && r.keys == s.keys + [f])
  {
    if rs == [] then s
    else if f in s.entries then Store(s.keys, s.entries[f := s.entries[f] + rs])
    else
      assert (s.keys + [f])[..|s.keys|] == s.keys;
      Store(s.keys + [f], s.entries[f := rs])
  }

  /** Appending in two steps is appending the concatenation. */
  lemma {:induction false} AppendTwice(s: Store, f: string, a: seq<Record>, b: seq<Record>)
    ensures Append(Append(s, f, a), f, b) == Append(s, f, a + b)
  {
    if a == [] {
      assert a + b == b;
    } else if b == [] {
      assert a + b == a;
    } else if f in s.entries {
      assert s.entries[f] + a + b == s.entries[f] + (a + b);
    }
  }

  /** The store `check` builds from `s` over `files`: each file's records
      appended under its own name, file after file. Nothing is taken away:
      existing keys keep their places at the front of the key order, and
      every list keeps its old contents as a prefix. */
  function Accumulate(s: Store, files: seq<SourceFile>): (r: Store)
    ensures s.keys <= r.keys
    ensures forall f :: Lookup(s, f) <= Lookup(r, f)
    decreases |files|
  {
    if files == [] then s
    else
      var last := files[|files| - 1];
      var t := Accumulate(s, files[..|files| - 1]);
      var r := Append(t, last.path, Collect(last.tree));
      assert forall f :: Lookup(t, f) <= Lookup(r, f);
      r
  }

  /** `Accumulate` over one more file of a list: the step of `check`'s loop. */
  lemma {:induction false} AccumulatePrefix(s: Store, files: seq<SourceFile>, i: nat)
    requires i < |files|
    ensures Accumulate(s, files[..i + 1]) == Append(Accumulate(s, files[..i]), files[i].path, Collect(files[i].tree))
  {
    assert files[..i + 1][..i] == files[..i];
  }

  /** Reference definition: the records of every file named `f`, in order. */
  function FileRecords(files: seq<SourceFile>, f: string): seq<Record>
    decreases |files|
  {
    if files == [] then []
    else
      var last := files[|files| - 1];
      FileRecords(files[..|files| - 1], f) + (if last.path == f then Collect(last.tree) else [])
  }

  /** Each file name ends up holding exactly the records of all files with
      that name, after what it held before; a name given twice accumulates
      both passes under one key. */
  lemma {:induction false} AccumulateLookup(s: Store, files: seq<SourceFile>, f: string)
    ensures Lookup(Accumulate(s, files), f) == Lookup(s, f) + FileRecords(files, f)
    decreases |files|
  {
    if files != [] {
      var init := files[..|files| - 1];
      var last := files[|files| - 1];
      AccumulateLookup(s, init, f);
      var before := Accumulate(s, init);
      var rs := Collect(last.tree);
      assert Accumulate(s, files) == Append(before, last.path, rs);
      if last.path == f {
        assert FileRecords(files, f) == FileRecords(init, f) + rs;
        ConcatAssoc(Lookup(s, f), FileRecords(init, f), rs);
      } else {
        assert FileRecords(files, f) == FileRecords(init, f) + [];
        assert FileRecords(init, f) + [] == FileRecords(init, f);
      }
    }
  }

  /** `check` keeps the store well formed, and a name becomes a key only when
      some file of that name produced a record: a file without identifiers
      has no entry. */
  lemma {:induction false} AccumulateKeys(s: Store, files: seq<SourceFile>, f: string)
    requires WellFormed(s)
    ensures WellFormed(Accumulate(s, files))
    ensures f in Accumulate(s, files).entries <==> f in s.entries || FileRecords(files, f) != []
    decreases |files|
  {
    if files != [] {
      var init := files[..|files| - 1];
      AccumulateKeys(s, init, f);
      AccumulateLookup(s, init, f);
      AccumulateLookup(s, files, f);
    }
  }

  /** Reference definition of dictionary key order: `ks` followed by every
      name of `ps` not seen before, at its first occurrence. */
  function Extend(ks: seq<string>, ps: seq<string>): seq<string>
    decreases |ps|
  {
    if ps == [] then ks
    else
      var e := Extend(ks, ps[..|ps| - 1]);
      var p := ps[|ps| - 1];
      if p in e then e else e + [p]
  }

  /** The names of the files, in order, that produced at least one record. */
  function ProducingPaths(files: seq<SourceFile>): (r: seq<string>)
    ensures |r| <= |files|
    decreases |files|
  {
    if files == [] then []
    else
      var last := files[|files| - 1];
      var init := ProducingPaths(files[..|files| - 1]);
      if Collect(last.tree) != [] then init + [last.path] else init
  }

  /** Keys appear in first-insertion order: the key list after `check` is the
      old key list followed by the names of the files that produced records,
      each at its first producing occurrence. */
  lemma {:induction false} AccumulateKeyOrder(s: Store, files: seq<SourceFile>)
    requires WellFormed(s)
    ensures Accumulate(s, files).keys == Extend(s.keys, ProducingPaths(files))
    decreases |files|
  {
    if files != [] {
      var init := files[..|files| - 1];
      var last := files[|files| - 1];
      AccumulateKeyOrder(s, init);
      var t := Accumulate(s, init);
      AccumulateKeys(s, init, last.path);
      if Collect(last.tree) != [] {
        assert ProducingPaths(files) == ProducingPaths(init) + [last.path];
        assert ProducingPaths(files)[..|ProducingPaths(files)| - 1] == ProducingPaths(init);
      }
    }
  }
}
