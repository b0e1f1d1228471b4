/**
 The records the visitor emits, and `Collect`: the specification of what one
 visit of a tree appends to the current file's record list.
 */
module Identifiers {
  import opened Syntax
  import opened Sequences

  /** The three `type` strings of pyidenticounter.py. */
  datatype Kind = Variable | FuncOrMethod | Class

  /** The tuple `(name, type, lineno)`. */
  datatype Record = Record(name: string, kind: Kind, line: nat)

  /** The records `visit_Assign` emits: one `variable` record per target whose
      `id` is present and non-empty (the walrus test is Python truthiness),
      in target order, all at the statement's line. */
  function AssignRecords(targets: seq<Target>, line: nat): (r: seq<Record>)
    ensures |r| <= |targets|
    ensures forall i :: 0 <= i < |r| ==> r[i].kind == Variable && r[i].line == line && r[i].name != ""
    decreases |targets|
  {
    if targets == [] then []
    else
      var init := AssignRecords(targets[..|targets| - 1], line);
      var t := targets[|targets| - 1];
      assert targets == targets[..|targets| - 1] + [t];
      if t.NameT? && t.id != "" then init + [Record(t.id, Variable, line)] else init
  }

  /** Some record in `rs` carries the name `x`. */
  predicate Names(rs: seq<Record>, x: string) {
    exists i :: 0 <= i < |rs| && rs[i].name == x
  }

  /** A non-empty name gets a `variable` record exactly when it is one of the
      targets. */
  lemma {:induction false} AssignRecordsNames(targets: seq<Target>, line: nat, x: string)
    requires x != ""
    ensures NameT(x) in targets <==> Names(AssignRecords(targets, line), x)
    decreases |targets|
  {
    if targets != [] {
      var init := targets[..|targets| - 1];
      var t := targets[|targets| - 1];
      assert targets == init + [t];
      AssignRecordsNames(init, line, x);
      var r0 := AssignRecords(init, line);
      var r := AssignRecords(targets, line);
      assert NameT(x) in targets <==> NameT(x) in init || t == NameT(x);
      if t.NameT? && t.id != "" {
        assert r == r0 + [Record(t.id, Variable, line)];
        if Names(r0, x) {
          var j :| 0 <= j < |r0| && r0[j].name == x;
          assert r[j] == r0[j];
        }
        if t.id == x {
          assert r[|r0|].name == x;
        } else if Names(r, x) {
          var i :| 0 <= i < |r| && r[i].name == x;
          assert i < |r0| && r0[i].name == x;
        }
      } else {
        assert r == r0;
      }
    }
  }

  /** The records of consecutive target lists follow each other: records come
      out in target order. */
  lemma {:induction false} AssignRecordsAppend(a: seq<Target>, b: seq<Target>, line: nat)
    ensures AssignRecords(a + b, line) == AssignRecords(a, line) + AssignRecords(b, line)
    decreases |b|
  {
    if b == [] {
      assert a + b == a;
    } else {
      var b0, x := b[..|b| - 1], b[|b| - 1];
      var ab := a + b;
      assert ab[..|ab| - 1] == a + b0 && ab[|ab| - 1] == x;
      AssignRecordsAppend(a, b0, line);
    }
  }

  /** Records a node emits by itself, before (or instead of) its subtree's:
      nodes without a handler emit none, a definition exactly one, and each
      record carries the node's line and the kind of its handler. */
  function OwnRecords(n: Node): (r: seq<Record>)
    ensures n.Other? ==> r == []
    ensures (n.FunctionDef? || n.ClassDef?) ==> |r| == 1 && r[0].name == n.name && r[0].line == n.line
    ensures n.Assign? ==> |r| <= |n.targets|
  {
    match n
    case Assign(ts, line, _) => AssignRecords(ts, line)
    case FunctionDef(name, line, _) => [Record(name, FuncOrMethod, line)]
    case ClassDef(name, line, _) => [Record(name, Class, line)]
    case Other(_) => []
  }

  /** Everything one visit of `n` appends, in order: an `Assign` emits only its
      targets (no `generic_visit` call), a definition its own record followed
      by its children's, any other node its children's. */
  function Collect(n: Node): (r: seq<Record>)
    ensures (n.FunctionDef? || n.ClassDef?) ==>
      r != [] && r[0] == Record(n.name, if n.ClassDef? then Class else FuncOrMethod, n.line)
    ensures n.Assign? ==> |r| <= |n.targets|
    decreases n, 1
  {
    match n
    case Assign(_, _, _) => OwnRecords(n)
    case _ => OwnRecords(n) + CollectAll(n.children)
  }

  /** `generic_visit`'s result: the children's records, child after child;
      an only child's records are the whole of it. */
  function CollectAll(cs: seq<Node>): (r: seq<Record>)
    ensures cs == [] ==> r == []
    ensures |cs| == 1 ==> r == Collect(cs[0])
    decreases cs, 0
  {
    if cs == [] then []
    else
      var init := cs[..|cs| - 1];
      assert |cs| == 1 ==> init == [];
      CollectAll(init) + Collect(cs[|cs| - 1])
  }

  /** The records of consecutive sibling lists follow each other. */
  lemma {:induction false} CollectAllAppend(a: seq<Node>, b: seq<Node>)
    ensures CollectAll(a + b) == CollectAll(a) + CollectAll(b)
    decreases |b|
  {
    if b == [] {
      assert a + b == a;
    } else {
      var b0, x := b[..|b| - 1], b[|b| - 1];
      var ab := a + b;
      assert ab[..|ab| - 1] == a + b0 && ab[|ab| - 1] == x;
      assert CollectAll(ab) == CollectAll(a + b0) + Collect(x);
      assert CollectAll(b) == CollectAll(b0) + Collect(x);
      CollectAllAppend(a, b0);
      ConcatAssoc(CollectAll(a), CollectAll(b0), Collect(x));
    }
  }

  /** The children's records split around child `i`. */
  lemma {:induction false} CollectAllSplit(cs: seq<Node>, i: nat)
    requires i < |cs|
    ensures CollectAll(cs) == CollectAll(cs[..i]) + Collect(cs[i]) + CollectAll(cs[i + 1..])
  {
    var upto := cs[..i + 1];
    assert cs == upto + cs[i + 1..];
    CollectAllAppend(upto, cs[i + 1..]);
    assert upto[..i] == cs[..i] && upto[i] == cs[i];
    assert CollectAll(upto) == CollectAll(cs[..i]) + Collect(cs[i]);
  }

  /** The first child's records come first. */
  lemma {:induction false} CollectAllFirst(cs: seq<Node>)
    requires cs != []
    ensures CollectAll(cs) == Collect(cs[0]) + CollectAll(cs[1..])
  {
    assert cs == [cs[0]] + cs[1..];
    CollectAllAppend([cs[0]], cs[1..]);
  }

  /** A record of the children comes from one of the children. */
  lemma {:induction false} CollectAllMember(cs: seq<Node>, r: Record)
    requires r in CollectAll(cs)
    ensures exists i :: 0 <= i < |cs| && r in Collect(cs[i])
    decreases |cs|
  {
    var init := cs[..|cs| - 1];
    if r in Collect(cs[|cs| - 1]) {
      assert 0 <= |cs| - 1 < |cs|;
    } else {
      CollectAllMember(init, r);
      var i :| 0 <= i < |init| && r in Collect(init[i]);
      assert init[i] == cs[i];
    }
  }

  /** `d` is a node the visitor reaches when it visits `n`: `n` itself, or a
      node below a child of `n` unless `n` is an `Assign`, whose handler
      stops the descent. */
  ghost predicate Visited(n: Node, d: Node)
    decreases n
  {
    d == n || (!n.Assign? && exists i :: 0 <= i < |n.children| && Visited(n.children[i], d))
  }

  /** The records added below a node by the descent that follows its own. */
  function Descent(d: Node): seq<Record> {
    if d.Assign? then [] else CollectAll(d.children)
  }

  /** Pre-order and completeness: for every node `d` the visitor reaches, the
      records of `d` itself, followed by those of its subtree, occur as one
      contiguous block of `Collect(n)`; `pre` and `post` are what surrounds it. */
  lemma {:induction false} VisitedSlice(n: Node, d: Node) returns (pre: seq<Record>, post: seq<Record>)
    requires Visited(n, d)
    ensures Collect(n) == pre + (OwnRecords(d) + Descent(d)) + post
    decreases n
  {
    if d == n {
      pre, post := [], [];
      assert Collect(n) == OwnRecords(d) + Descent(d);
    } else {
      var cs := n.children;
      var i :| 0 <= i < |cs| && Visited(cs[i], d);
      var p, q := VisitedSlice(cs[i], d);
      CollectAllSplit(cs, i);
      var own, left, right := OwnRecords(n), CollectAll(cs[..i]), CollectAll(cs[i + 1..]);
      var block := OwnRecords(d) + Descent(d);
      pre, post := own + left + p, q + right;
      calc {
        Collect(n);
        own + (left + (p + block + q) + right);
        { ConcatAssoc(own, left + (p + block + q), right);
          ConcatAssoc(own, left, p + block + q); }
        own + left + (p + block + q) + right;
        { ConcatAssoc(own + left, p + block, q);
          ConcatAssoc(own + left, p, block); }
        pre + block + q + right;
        { ConcatAssoc(pre + block, q, right); }
        pre + block + post;
      }
    }
  }

  /** Outer before inner: a node reached below a definition has its own
      records after the definition's, at any depth; `pre`, `mid` and `post`
      are what lies before, between and after the two. */
  lemma {:induction false} NestedAfterEnclosing(n: Node, d: Node, i: nat, e: Node) returns (pre: seq<Record>, mid: seq<Record>, post: seq<Record>)
    requires Visited(n, d) && (d.FunctionDef? || d.ClassDef?)
    requires i < |d.children| && Visited(d.children[i], e)
    ensures Collect(n) == pre + OwnRecords(d) + mid + OwnRecords(e) + post
  {
    var before, after := VisitedSlice(n, d);
    var wrapper := Other(d.children);
    assert Visited(wrapper, e) by {
      assert wrapper.children[i] == d.children[i];
    }
    var inner, post2 := VisitedSlice(wrapper, e);
    var own, below := OwnRecords(e), Descent(e);
    assert Collect(wrapper) == [] + CollectAll(d.children) == Descent(d);
    assert Descent(d) == inner + (own + below) + post2;
    var outer := before + OwnRecords(d);
    calc {
      Collect(n);
      before + (OwnRecords(d) + (inner + (own + below) + post2)) + after;
      { ConcatAssoc(before, OwnRecords(d), inner + (own + below) + post2); }
      outer + (inner + (own + below) + post2) + after;
      { ConcatAssoc(outer, inner + (own + below), post2);
        ConcatAssoc(outer, inner, own + below);
        ConcatAssoc(outer + inner, own, below); }
      outer + inner + own + below + post2 + after;
      { ConcatAssoc(outer + inner + own, below, post2);
        ConcatAssoc(outer + inner + own, below + post2, after); }
      outer + inner + own + (below + post2 + after);
    }
    pre, mid, post := before, inner, below + post2 + after;
  }

  /** Soundness: every record of `Collect(n)` is one that a node reached by
      the visitor emits itself. In particular `Other` nodes (AnnAssign,
      AsyncFunctionDef, Call, ...) contribute nothing of their own, and
      nothing below an `Assign` is reported. */
  lemma {:induction false} RecordOrigin(n: Node, r: Record)
    requires r in Collect(n)
    ensures exists d :: Visited(n, d) && r in OwnRecords(d)
    decreases n
  {
    if r !in OwnRecords(n) {
      var cs := n.children;
      CollectAllMember(cs, r);
      var i :| 0 <= i < |cs| && r in Collect(cs[i]);
      RecordOrigin(cs[i], r);
      var d :| Visited(cs[i], d) && r in OwnRecords(d);
      assert Visited(n, d);
    }
  }
}
