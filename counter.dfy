/**
 `PyIdentifierCounter`: an `ast.NodeVisitor` that appends the identifiers it
 finds to `identifier_map[self.filename]`, driven file by file by `check`.
 */
module Counter {
  import opened Syntax
  import opened Identifiers
  import opened Store
  import opened Report

  class IdentifierCounter {
    /** `identifier_map`: its keys in insertion order, and the lists. */
    var keys: seq<string>
    var identifierMap: map<string, seq<Record>>
    /** `self.filename`: the file whose records the visit methods append to. */
    var filename: string

    /** The dictionary as a value. */
    function State(): Store
      reads this`keys, this`identifierMap
    {
      Store(keys, identifierMap)
    }

    ghost predicate Valid()
      reads this`keys, this`identifierMap
    {
      WellFormed(State())
    }

    /** `__init__`: an empty `defaultdict(list)`. */
    constructor ()
      ensures Valid() && State() == Empty && filename == ""
    {
      keys, identifierMap, filename := [], map[], "";
    }

    /** `self.identifier_map[self.filename].append(rec)`. */
    method AppendRecord(rec: Record)
      requires Valid()
      modifies this
      ensures Valid() && filename == old(filename)
      ensures State() == Append(old(State()), filename, [rec])
    {
      if filename in identifierMap {
        identifierMap := identifierMap[filename := identifierMap[filename] + [rec]];
      } else {
        keys := keys + [filename];
        identifierMap := identifierMap[filename := [rec]];
      }
    }

    /** `NodeVisitor.visit`: dispatch on the node's class. Appends exactly
        `Collect(node)` to the current file's list; every other file's list
        and the key order of existing keys stay as they were. */
    method Visit(node: Node)
      requires Valid()
      modifies this
      ensures Valid() && filename == old(filename)
      ensures State() == Append(old(State()), filename, Collect(node))
      decreases node, 2
    {
      match node
      case Assign(targets, line, _) =>
        assert Collect(node) == AssignRecords(targets, line);
        VisitAssign(node);
      case FunctionDef(name, line, children) =>
        assert Collect(node) == [Record(name, FuncOrMethod, line)] + CollectAll(children);
        VisitFunctionDef(node);
      case ClassDef(name, line, children) =>
        assert Collect(node) == [Record(name, Class, line)] + CollectAll(children);
        VisitClassDef(node);
      case Other(_) =>
        GenericVisit(node);
        assert Collect(node) == CollectAll(node.children);
    }

    /** `visit_Assign`: one `variable` record per target with an `id`, at the
        statement's line; the value is not visited. */
    method VisitAssign(node: Node)
      requires node.Assign? && Valid()
      modifies this
      ensures Valid() && filename == old(filename)
      ensures State() == Append(old(State()), filename, AssignRecords(node.targets, node.line))
    {
      var targets := node.targets;
      for i := 0 to |targets|
        invariant Valid() && filename == old(filename)
        invariant State() == Append(old(State()), filename, AssignRecords(targets[..i], node.line))
      {
        var t := targets[i];
        ghost var done := AssignRecords(targets[..i], node.line);
        ghost var step := if t.NameT? && t.id != "" then [Record(t.id, Variable, node.line)] else [];
        assert targets[..i + 1] == targets[..i] + [t];
        AssignRecordsAppend(targets[..i], [t], node.line);
        assert AssignRecords([t], node.line) == step;
        if t.NameT? && t.id != "" {
          AppendRecord(Record(t.id, Variable, node.line));
        }
        AppendTwice(old(State()), filename, done, step);
      }
      assert targets[..|targets|] == targets;
    }

    /** `visit_FunctionDef`: its own record, then `generic_visit`. */
    method VisitFunctionDef(node: Node)
      requires node.FunctionDef? && Valid()
      modifies this
      ensures Valid() && filename == old(filename)
      ensures State() == Append(old(State()), filename, [Record(node.name, FuncOrMethod, node.line)] + CollectAll(node.children))
      decreases node, 1
    {
      AppendRecord(Record(node.name, FuncOrMethod, node.line));
      GenericVisit(node);
      AppendTwice(old(State()), filename, [Record(node.name, FuncOrMethod, node.line)], CollectAll(node.children));
    }

    /** `visit_ClassDef`: its own record, then `generic_visit`. */
    method VisitClassDef(node: Node)
      requires node.ClassDef? && Valid()
      modifies this
      ensures Valid() && filename == old(filename)
      ensures State() == Append(old(State()), filename, [Record(node.name, Class, node.line)] + CollectAll(node.children))
      decreases node, 1
    {
      AppendRecord(Record(node.name, Class, node.line));
      GenericVisit(node);
      AppendTwice(old(State()), filename, [Record(node.name, Class, node.line)], CollectAll(node.children));
    }

    /** `NodeVisitor.generic_visit`: visit the children in order. */
    method GenericVisit(node: Node)
      requires Valid()
      modifies this
      ensures Valid() && filename == old(filename)
      ensures State() == Append(old(State()), filename, CollectAll(node.children))
      decreases node, 0
    {
      var cs := node.children;
      for i := 0 to |cs|
        invariant Valid() && filename == old(filename)
        invariant State() == Append(old(State()), filename, CollectAll(cs[..i]))
      {
        assert cs[..i + 1][..i] == cs[..i];
        assert CollectAll(cs[..i + 1]) == CollectAll(cs[..i]) + Collect(cs[i]);
        Visit(cs[i]);
        AppendTwice(old(State()), filename, CollectAll(cs[..i]), Collect(cs[i]));
      }
      assert cs[..|cs|] == cs;
    }

    /** `check`: for each file in list order, make it the current file and
        visit its tree. */
    method Check(files: seq<SourceFile>)
      requires Valid()
      modifies this
      ensures Valid()
      ensures State() == Accumulate(old(State()), files)
      ensures files == [] ==> filename == old(filename)
      ensures files != [] ==> filename == files[|files| - 1].path
    {
      ghost var start := State();
      for i := 0 to |files|
        invariant Valid()
        invariant State() == Accumulate(start, files[..i])
        invariant i == 0 ==> filename == old(filename)
        invariant 0 < i ==> filename == files[i - 1].path
      {
        AccumulatePrefix(start, files, i);
        filename := files[i].path;
        Visit(files[i].tree);
      }
      assert files[..|files|] == files;
    }

    /** `report`: with `verbose`, one line per record of each file; without,
        one count line per file; files in key insertion order. */
    method Report(verbose: bool := true) returns (out: seq<string>)
      requires Valid()
      ensures Renders(out, ReportLines(State(), verbose))
    {
      ghost var s := State();
      out := [];
      for k := 0 to |keys|
        invariant verbose ==> Renders(out, DetailLines(s, keys[..k]))
        invariant !verbose ==> Renders(out, CountLines(s, keys[..k]))
      {
        var f := keys[k];
        assert f in keys;
        var identifiers := identifierMap[f];
        assert identifiers == Lookup(s, f);
        ReportStep(s, keys, k);
        if verbose {
          var lines := RenderRecords(f, identifiers);
          RendersAppend(out, DetailLines(s, keys[..k]), lines, RecordLines(f, identifiers));
          out := out + lines;
        } else {
          RendersSnoc(out, CountLines(s, keys[..k]), CountLine(f, |identifiers|));
          out := out + [FormatLine(CountLine(f, |identifiers|))];
        }
      }
      assert keys[..|keys|] == keys;
    }
  }
}
