/**
 The trees of the repository's test programs, and what the visitor as
 written in pyidenticounter.py reports for them. Line numbers are those of
 the dedented test sources.
 */
module Examples {
  import opened Syntax
  import opened Identifiers
  import opened Store
  import opened Report
  import opened Counter

  /** The names of the records of kind `k`, in order: the list comprehension
      `[report.name for report in identifiers if report.type == ...]` through
      which the tests read the records (test_pyidenticycle.py). */
  function NamesOfKind(rs: seq<Record>, k: Kind): seq<string>
    decreases |rs|
  {
    if rs == [] then []
    else (if rs[0].kind == k then [rs[0].name] else []) + NamesOfKind(rs[1..], k)
  }

  /** A list of two children yields the first child's records, then the
      second's. */
  lemma {:induction false} Pair(a: Node, b: Node)
    ensures CollectAll([a, b]) == Collect(a) + Collect(b)
  {
    CollectAllFirst([a, b]);
    assert [a, b][1..] == [b];
  }

  /** `x = ...` with a plain name target. */
  lemma {:induction false} AssignName(x: string, line: nat, value: seq<Node>)
    requires x != ""
    ensures Collect(Assign([NameT(x)], line, value)) == [Record(x, Variable, line)]
  {
    assert [NameT(x)][..0] == [];
  }

  /** A module of three statements. */
  lemma {:induction false} TopLevel3(a: Node, b: Node, c: Node, ra: seq<Record>, rb: seq<Record>, rc: seq<Record>)
    requires Collect(a) == ra && Collect(b) == rb && Collect(c) == rc
    ensures Collect(Other([a, b, c])) == ra + rb + rc
  {
    CollectAllFirst([a, b, c]);
    assert [a, b, c][1..] == [b, c];
    Pair(b, c);
  }

  /** `print(...)` and other expression statements, calls, constants,
      argument lists. */
  const Leaf := Other([])

  lemma {:induction false} LeafEmpty()
    ensures Collect(Leaf) == [] && CollectAll([Leaf]) == [] && CollectAll([Leaf, Leaf]) == []
  {
    Pair(Leaf, Leaf);
  }

  // test_variable_names

  const Greeting := FunctionDef("greeting", 3, [Leaf, Leaf])
  const SecondGreeting := FunctionDef("second_greeting", 6, [
    Leaf,
    Assign([NameT("age")], 7, [Leaf]),
    Assign([NameT("name")], 8, [Leaf]),
    Assign([NameT("text")], 9, [Leaf]),
    Leaf])
  const VariablesTree := Other([Assign([NameT("city")], 1, [Leaf]), Greeting, SecondGreeting])

  const VariableRecords := [Record("city", Variable, 1), Record("greeting", FuncOrMethod, 3),
    Record("second_greeting", FuncOrMethod, 6), Record("age", Variable, 7), Record("name", Variable, 8),
    Record("text", Variable, 9)]

  /** The last three statements of `second_greeting`'s body. */
  lemma {:induction false} SecondGreetingTail()
    ensures CollectAll(SecondGreeting.children[2..]) == VariableRecords[4..]
  {
    var body := SecondGreeting.children;
    LeafEmpty();
    AssignName("name", 8, [Leaf]);
    AssignName("text", 9, [Leaf]);
    assert body[2..] == [body[2], body[3], body[4]];
    TopLevel3(body[2], body[3], body[4], [Record("name", Variable, 8)], [Record("text", Variable, 9)], []);
    assert Collect(Other(body[2..])) == [] + CollectAll(body[2..]);
  }

  lemma {:induction false} SecondGreetingCollected()
    ensures Collect(SecondGreeting) == VariableRecords[2..]
  {
    LeafEmpty();
    AssignName("age", 7, [Leaf]);
    SecondGreetingTail();
    var body := SecondGreeting.children;
    CollectAllFirst(body);
    CollectAllFirst(body[1..]);
    assert body[1..][1..] == body[2..];
    assert CollectAll(body) == VariableRecords[3..];
  }

  lemma {:induction false} GreetingCollected()
    ensures Collect(Greeting) == VariableRecords[1..2]
  {
    LeafEmpty();
  }

  lemma {:induction false} VariablesCollected()
    ensures Collect(VariablesTree) == VariableRecords
  {
    var city := VariablesTree.children[0];
    AssignName("city", 1, [Leaf]);
    GreetingCollected();
    SecondGreetingCollected();
    TopLevel3(city, Greeting, SecondGreeting, VariableRecords[..1], VariableRecords[1..2], VariableRecords[2..]);
  }

  /** Variables at top level and inside a function, in source order. */
  lemma {:induction false} VariableNames()
    ensures NamesOfKind(Collect(VariablesTree), Variable) == ["city", "age", "name", "text"]
  {
    VariablesCollected();
  }

  // test_func_method_names

  const Func1 := FunctionDef("func1", 3, [Leaf, FunctionDef("func2", 4, [Leaf, Leaf]), FunctionDef("func3", 6, [Leaf, Leaf]), Leaf])
  const InnerClass := ClassDef("InnerClass", 14, [FunctionDef("method2", 15, [Leaf, Leaf])])
  const MyClass := ClassDef("MyClass", 10, [FunctionDef("new", 11, [Leaf, Leaf]), InnerClass])
  const DefinitionsTree := Other([Assign([NameT("city")], 1, [Leaf]), Func1, MyClass])

  const DefinitionRecords := [Record("city", Variable, 1), Record("func1", FuncOrMethod, 3),
    Record("func2", FuncOrMethod, 4), Record("func3", FuncOrMethod, 6), Record("MyClass", Class, 10),
    Record("new", FuncOrMethod, 11), Record("InnerClass", Class, 14), Record("method2", FuncOrMethod, 15)]

  lemma {:induction false} Func1Collected()
    ensures Collect(Func1) == DefinitionRecords[1..4]
  {
    LeafEmpty();
    var cs := Func1.children;
    assert Collect(cs[1]) == [Record("func2", FuncOrMethod, 4)];
    assert Collect(cs[2]) == [Record("func3", FuncOrMethod, 6)];
    CollectAllFirst(cs);
    assert cs[1..] == [cs[1], cs[2], cs[3]];
    TopLevel3(cs[1], cs[2], cs[3], Collect(cs[1]), Collect(cs[2]), []);
  }

  lemma {:induction false} MyClassCollected()
    ensures Collect(MyClass) == DefinitionRecords[4..]
  {
    LeafEmpty();
    var method2 := InnerClass.children[0];
    assert Collect(method2) == [Record("method2", FuncOrMethod, 15)];
    assert Collect(InnerClass) == DefinitionRecords[6..];
    var cs := MyClass.children;
    assert Collect(cs[0]) == [Record("new", FuncOrMethod, 11)];
    Pair(cs[0], cs[1]);
  }

  lemma {:induction false} DefinitionsCollected()
    ensures Collect(DefinitionsTree) == DefinitionRecords
  {
    var cs := DefinitionsTree.children;
    AssignName("city", 1, [Leaf]);
    Func1Collected();
    MyClassCollected();
    TopLevel3(cs[0], cs[1], cs[2], DefinitionRecords[..1], DefinitionRecords[1..4], DefinitionRecords[4..]);
  }

  /** Nested definitions are found at any depth, outer before inner. */
  lemma {:induction false} FunctionNames()
    ensures NamesOfKind(Collect(DefinitionsTree), FuncOrMethod) == ["func1", "func2", "func3", "new", "method2"]
  {
    DefinitionsCollected();
  }

  // test_func_class_names: `self.name = name` is an attribute target, and a
  // class built by calling `type(...)` is only a variable.

  const InitMethod := FunctionDef("__init__", 2, [Leaf, Assign([NoId], 3, [Leaf])])
  const Person := ClassDef("Person", 1, [InitMethod])
  const Meta := ClassDef("Meta", 7, [Assign([NameT("model")], 8, [Leaf]), Assign([NameT("fields")], 9, [Leaf])])
  const UserModel := ClassDef("UserModel", 6, [Meta])
  const ClassesTree := Other([Person, UserModel, Assign([NameT("DynamicClass")], 13, [Other([Leaf, Leaf, Leaf, Leaf])])])

  const ClassRecords := [Record("Person", Class, 1), Record("__init__", FuncOrMethod, 2),
    Record("UserModel", Class, 6), Record("Meta", Class, 7), Record("model", Variable, 8),
    Record("fields", Variable, 9), Record("DynamicClass", Variable, 13)]

  lemma {:induction false} PersonCollected()
    ensures Collect(Person) == ClassRecords[..2]
  {
    LeafEmpty();
    assert [NoId][..0] == [];
    assert Collect(InitMethod.children[1]) == [];
    Pair(InitMethod.children[0], InitMethod.children[1]);
  }

  lemma {:induction false} MetaCollected()
    ensures Collect(Meta) == ClassRecords[3..6]
  {
    AssignName("model", 8, [Leaf]);
    AssignName("fields", 9, [Leaf]);
    Pair(Meta.children[0], Meta.children[1]);
  }

  lemma {:induction false} UserModelCollected()
    ensures Collect(UserModel) == ClassRecords[2..6]
  {
    MetaCollected();
    assert Collect(UserModel) == [ClassRecords[2]] + Collect(Meta);
  }

  lemma {:induction false} ClassesCollected()
    ensures Collect(ClassesTree) == ClassRecords
  {
    var cs := ClassesTree.children;
    PersonCollected();
    UserModelCollected();
    AssignName("DynamicClass", 13, cs[2].children);
    TopLevel3(cs[0], cs[1], cs[2], ClassRecords[..2], ClassRecords[2..6], ClassRecords[6..]);
  }

  lemma {:induction false} ClassNames()
    ensures NamesOfKind(Collect(ClassesTree), Class) == ["Person", "UserModel", "Meta"]
  {
    ClassesCollected();
  }

  // test_func_variable_with_annotations: `AnnAssign` has no handler of its
  // own, so the annotated declarations are not reported (the test expects
  // four variables).

  const AgeDecl := Other([Leaf, Leaf])
  const AgeWithDefault := Other([Leaf, Leaf, Leaf])
  const AnnotationsTree := Other([ClassDef("Person", 1, [AgeDecl, AgeWithDefault]), AgeDecl, AgeWithDefault])

  lemma {:induction false} DeclarationsEmpty()
    ensures Collect(AgeDecl) == [] && Collect(AgeWithDefault) == []
  {
    LeafEmpty();
    TopLevel3(Leaf, Leaf, Leaf, [], [], []);
  }

  lemma {:induction false} AnnotatedClassCollected()
    ensures Collect(AnnotationsTree.children[0]) == [Record("Person", Class, 1)]
  {
    DeclarationsEmpty();
    Pair(AgeDecl, AgeWithDefault);
  }

  lemma {:induction false} AnnotationsUnreported()
    ensures Collect(AnnotationsTree) == [Record("Person", Class, 1)]
    ensures NamesOfKind(Collect(AnnotationsTree), Variable) == []
  {
    var cs := AnnotationsTree.children;
    AnnotatedClassCollected();
    DeclarationsEmpty();
    TopLevel3(cs[0], cs[1], cs[2], [Record("Person", Class, 1)], [], []);
  }

  /** `check` over `a.py`, `b.py`, `a.py`, where `b.py` has no identifiers. */
  /** The files of `TwoPassesAccumulated`. */
  function TwoPasses(t: Node, e: Node): seq<SourceFile> {
    [SourceFile("a.py", t), SourceFile("b.py", e), SourceFile("a.py", t)]
  }

  lemma {:induction false} TwoPassesRecords(t: Node, e: Node)
    ensures FileRecords(TwoPasses(t, e), "a.py") == Collect(t) + Collect(t)
  {
    var a, b := SourceFile("a.py", t), SourceFile("b.py", e);
    var files := TwoPasses(t, e);
    assert files[..2] == [a, b] && [a, b][..1] == [a] && [a][..0] == [];
    assert FileRecords([a], "a.py") == [] + Collect(t) == Collect(t);
    assert FileRecords([a, b], "a.py") == Collect(t) + [] == Collect(t);
  }

  lemma {:induction false} TwoPassesProducing(t: Node, e: Node)
    requires Collect(t) != [] && Collect(e) == []
    ensures ProducingPaths(TwoPasses(t, e)) == ["a.py", "a.py"]
  {
    var a, b := SourceFile("a.py", t), SourceFile("b.py", e);
    var files := TwoPasses(t, e);
    assert files[..2] == [a, b] && [a, b][..1] == [a] && [a][..0] == [];
    assert ProducingPaths([a]) == [] + ["a.py"] == ["a.py"];
    assert ProducingPaths([a, b]) == ["a.py"];
  }

  lemma {:induction false} TwoPassesKeys(t: Node, e: Node)
    requires Collect(t) != [] && Collect(e) == []
    ensures Extend([], ProducingPaths(TwoPasses(t, e))) == ["a.py"]
  {
    TwoPassesProducing(t, e);
    var ps: seq<string> := ["a.py", "a.py"];
    assert ps[..1] == ["a.py"] && ps[..1][..0] == [];
    assert Extend([], ps[..1]) == ["a.py"];
  }

  lemma {:induction false} TwoPassesAccumulated(t: Node, e: Node)
    requires Collect(t) != [] && Collect(e) == []
    ensures var s := Accumulate(Empty, [SourceFile("a.py", t), SourceFile("b.py", e), SourceFile("a.py", t)]);
      s.keys == ["a.py"] && Lookup(s, "a.py") == Collect(t) + Collect(t)
  {
    TwoPassesRecords(t, e);
    TwoPassesKeys(t, e);
    AccumulateLookup(Empty, TwoPasses(t, e), "a.py");
    AccumulateKeyOrder(Empty, TwoPasses(t, e));
  }

  lemma {:induction false} TwoPassesCounted(s: Store, rs: seq<Record>)
    requires s.keys == ["a.py"] && Lookup(s, "a.py") == rs + rs && |rs| == 6
    ensures var lines := ReportLines(s, false);
      |lines| == 1 && FormatLine(lines[0]) == "a.py: 12"
  {
    assert Decimal(1) == "1" && Decimal(12) == "12";
  }

  /** `check` followed by `report(False)` on a file given twice and a file
      without identifiers: the repeated name accumulates both passes under
      one key, and the other file gets no line. */
  method CheckAndCount() returns (out: seq<string>)
    ensures out == ["a.py: 12"]
  {
    var counter := new IdentifierCounter();
    VariablesCollected();
    LeafEmpty();
    TwoPassesAccumulated(VariablesTree, Leaf);
    counter.Check([SourceFile("a.py", VariablesTree), SourceFile("b.py", Leaf), SourceFile("a.py", VariablesTree)]);
    out := counter.Report(false);
    TwoPassesCounted(counter.State(), VariableRecords);
  }
}
