# pyidenticounter in Dafny

A verified model of `PyIdentifierCounter`, the `ast.NodeVisitor` of
pyidenticounter. The visitor walks the syntax tree of each Python file it is
given and appends a record `(name, type, lineno)` to
`identifier_map[filename]` for:

- each simple-name target of an assignment (`"variable"`);
- each function or method definition (`"func_or_method"`);
- each class definition (`"class"`).

`identifier_map` is a `defaultdict(list)`. `report` then prints, for each
file in insertion order, either the number of its records or one line per
record.

Modules:

- `Syntax` (syntax.dfy): the slice of the Python `ast` the visitor looks at.
  - `Node` has four forms: `Assign`, `FunctionDef`, `ClassDef` and `Other`.
  - `Target` is either a plain name or `NoId`: an attribute, subscript,
    tuple or starred target.
  - A `SourceFile` is a path together with its already parsed tree.
- `Identifiers` (collect.dfy): the records, and `Collect`, the pure
  specification of what one visit appends. It also holds the structural
  properties of the traversal:
  - pre-order order;
  - outer definitions before the ones nested in them;
  - no descent below an assignment;
  - every record comes from a reached node.
- `Store` (store.dfy): the dictionary as a value.
  - It is an insertion-ordered key list and a map, kept well formed: every
    key holds at least one record, because a `defaultdict` key appears only
    when something is appended to it.
  - `Append` is one `identifier_map[f].append(...)` run.
  - `Accumulate` is the store that `check` builds.
  - Reference definitions (`FileRecords`, `Extend`) describe what each key
    holds and the order of the keys.
- `Report` (report.dfy): the lines of `report`, both as a line datatype and
  formatted as strings, with `str` of a non-negative integer written out.
- `Counter` (counter.dfy): the class `IdentifierCounter`.
  - It has the fields `keys`, `identifierMap` and `filename`.
  - Its visit methods have `modifies this`, and `VisitAssign`, `GenericVisit`,
    `Check` and `Report` use loops.
  - `Visit` and its handlers are proved to append exactly what `Collect`
    prescribes for the node. `Check` is proved to leave the dictionary equal
    to `Accumulate` over its files. `Report` appends nothing and returns the
    formatted `ReportLines`.
- `Examples` (examples.dfy): the trees of the repository's test programs,
  with what the visitor as written reports for them. It also contains an
  end-to-end client that calls `check` and then `report(False)`.

Where the tests and the code disagree, the model follows the code:

- `test_pyidenticycle.py` imports an `IdentifierType` that the code does not
  define, and it calls `check` on a source string expecting records back.
- The tests expect records for annotated declarations and for parameters.
  `pyidenticounter.py` has no handler for those (see `AnnotationsUnreported`).

## Model

| member | source | states |
|---|---|---|
| Identifiers.AssignRecords | pyidenticounter.py:17-22 | an assignment emits at most one record per target; every record is a `variable` record at the statement's line with a non-empty name |
| Identifiers.AssignRecordsNames | pyidenticounter.py:18-19 | a non-empty name receives a `variable` record if and only if it is a plain-name target, so attribute, subscript and tuple targets add nothing |
| Identifiers.OwnRecords | pyidenticounter.py:17-32 | a node without a handler emits no record of its own; a function or class definition emits exactly one, carrying its name and line; an assignment emits at most one per target |
| Identifiers.Collect | pyidenticounter.py:7-32 | a visit of a function or class definition starts with the definition's own record: its name, its line, and `class` for a class or `func_or_method` for a function; a visit of an assignment yields at most one record per target |
| Identifiers.CollectAll | pyidenticounter.py:28 | descending into no children appends nothing, and descending into one child appends exactly that child's visit output |
| Identifiers.CollectAllFirst | pyidenticounter.py:28 | the first child's records come before those of the remaining children |
| Identifiers.AssignRecordsAppend | pyidenticounter.py:18-22 | the records of a target list are the records of its parts, one after the other, so records come out in target order |
| Identifiers.CollectAllAppend | pyidenticounter.py:28 | visiting consecutive sibling lists appends their records one after the other |
| Identifiers.CollectAllSplit | pyidenticounter.py:28 | the records of a child list split around any one child, into those of the children before it, its own and those after it |
| Identifiers.CollectAllMember | pyidenticounter.py:28 | every record from a child list comes from one particular child |
| Identifiers.VisitedSlice | pyidenticounter.py:24-32 | for every node the visitor reaches, that node's own records followed by its subtree's form one contiguous block of the visit's output (pre-order, no node skipped) |
| Identifiers.NestedAfterEnclosing | pyidenticounter.py:24-32 | a node reached below a function or class definition has its records after that definition's record, at any depth |
| Identifiers.RecordOrigin | pyidenticounter.py:7-32 | every record in the output is the own record of a node the visitor reaches; nodes without a handler contribute none of their own, and nothing below an assignment is reached |
| Store.Append | pyidenticounter.py:20-21 | appending to one key keeps the store well formed; that key's list gains exactly the new records after its old contents, and every other key's list and membership stay as they were; a key is added only by a non-empty append, and then at the end of the key order |
| Store.AppendTwice | pyidenticounter.py:25-28 | appending `a` and then `b` to a key is the same as appending `a + b` |
| Store.Accumulate | pyidenticounter.py:11-15 | `check` only adds: the old keys stay at the front of the key order, and every list keeps its old contents as a prefix |
| Store.AccumulateLookup | pyidenticounter.py:11-15 | after `check`, each name holds its old records followed by the records of every file given under that name, in list order; a name given twice accumulates both passes |
| Store.AccumulateKeys | pyidenticounter.py:9 | `check` keeps the store well formed, and a name is a key afterwards if and only if it was one before or some file of that name produced a record |
| Store.AccumulateKeyOrder | pyidenticounter.py:35 | after `check`, the key order is the old key order followed by the files that produced records, each at its first producing occurrence |
| Report.KindName | pyidenticounter.py:21-31 | the three `type` strings read back as their kinds, so no two kinds share a string |
| Report.Decimal | pyidenticounter.py:37 | `str(n)` is a non-empty digit string whose decimal value is `n` and that has no leading zero |
| Report.FormatCountLine | pyidenticounter.py:37 | a count line reads back as the file name, then `": "`, then digits whose value is the count |
| Report.FormatLine | pyidenticounter.py:37-40 | both printed forms begin with the file name followed by a colon |
| Report.FormatDetailLine | pyidenticounter.py:40 | a detail line reads back as the file name, `":"`, digits whose value is the line number, `": "`, the `type` string of the kind, `" '"`, the name and `"'"` |
| Report.RecordLines | pyidenticounter.py:39-40 | one detail line per record of the file, in stored order, with the record's line, type and name |
| Report.CountLines | pyidenticounter.py:35-38 | one count line per key, in key order, carrying the length of that key's list |
| Report.DetailLines | pyidenticounter.py:35-40 | every verbose line is a detail line about one of the files being reported |
| Report.ReportLines | pyidenticounter.py:34-40 | with `verbose`, every line is a detail line about a key of the dictionary; without it, there is exactly one count line per key, in key order |
| Report.DetailLinesAppend | pyidenticounter.py:35-40 | the detail lines of consecutive key lists follow each other |
| Report.DetailLinesBlock | pyidenticounter.py:35-40 | in the verbose report, each file's records form one contiguous block, after all earlier files' lines and before all later ones |
| Report.CountsAddUpToDetails | pyidenticounter.py:34-40 | the counts of the short report add up to the number of lines of the verbose report |
| Report.RenderRecords | pyidenticounter.py:39-40 | the inner loop of `report` prints exactly the formatted detail line of each record, in stored order |
| Counter.IdentifierCounter.constructor | pyidenticounter.py:8-9 | a new counter has an empty, well-formed dictionary |
| Counter.IdentifierCounter.AppendRecord | pyidenticounter.py:20-21 | one append puts the record at the end of the current file's list and touches nothing else |
| Counter.IdentifierCounter.Visit | pyidenticounter.py:7-32 | a visit of any node appends exactly `Collect(node)` to the current file's list, keeps the dictionary well formed and leaves `filename` alone |
| Counter.IdentifierCounter.VisitAssign | pyidenticounter.py:17-22 | the target loop appends exactly the records of the assignment's targets, and does not visit the value |
| Counter.IdentifierCounter.VisitFunctionDef | pyidenticounter.py:24-28 | the function's own `func_or_method` record is appended, then the records of its whole body |
| Counter.IdentifierCounter.VisitClassDef | pyidenticounter.py:30-32 | the class's own `class` record is appended, then the records of its whole body |
| Counter.IdentifierCounter.GenericVisit | pyidenticounter.py:28 | the inherited descent visits the children in order and appends exactly their records |
| Counter.IdentifierCounter.Check | pyidenticounter.py:11-15 | the file loop leaves the dictionary equal to `Accumulate` over the files, and `filename` equal to the last file's path |
| Counter.IdentifierCounter.Report | pyidenticounter.py:34-40 | the output is exactly the formatted report over the keys in insertion order: count lines without `verbose`, one line per record with it |
| Examples.VariablesCollected | test_pyidenticycle.py:6-20 | the first test program yields, in order, `city`, `greeting`, `second_greeting`, `age`, `name` and `text` at their lines |
| Examples.VariableNames | test_pyidenticycle.py:23 | the variables reported, in order, are `["city", "age", "name", "text"]`; the `name` reported is the assignment at line 8 |
| Examples.DefinitionsCollected | test_pyidenticycle.py:30-50 | the nested-definitions program yields its eight records in pre-order |
| Examples.FunctionNames | test_pyidenticycle.py:53 | the functions reported are `["func1", "func2", "func3", "new", "method2"]`, outer before inner |
| Examples.ClassesCollected | test_pyidenticycle.py:60-77 | the classes program yields its seven records: `self.name` adds nothing, and `DynamicClass` is a variable |
| Examples.ClassNames | test_pyidenticycle.py:80 | the classes reported are `["Person", "UserModel", "Meta"]`; the class built by `type(...)` is not one of them |
| Examples.AnnotationsUnreported | test_pyidenticycle.py:87-101 | as the code is written, the annotated-declarations program yields only the class `Person` and no variables, whereas the test expects four |
| Examples.TwoPassesAccumulated | pyidenticounter.py:11-15 | checking `a.py`, an empty `b.py` and `a.py` again leaves a single key `a.py` holding both passes |
| Examples.TwoPassesCounted | pyidenticounter.py:35-37 | for that store, the short report is the single line `a.py: 12` |
| Examples.CheckAndCount | pyidenticounter.py:49-51 | building a counter, checking those three files and reporting without `verbose` prints exactly `["a.py: 12"]` |

## Left out

- `ast.parse` and `Path(...).read_text()` (pyidenticounter.py:14) are not modelled. They are a foreign parser and file I/O, so each file arrives already parsed, as a `SourceFile`. `SyntaxError` and I/O errors are not modelled.
- The Python `ast` has separate fields inside `FunctionDef` and `ClassDef` (arguments, body, decorators, bases, returns), and they are visited in field order. The model collapses them into one ordered `children` sequence. Expression fields cannot contain a recorded node.
- The `print` calls of `report` (pyidenticounter.py:37, 40). `Report` returns the printed lines as a sequence, in order.
- `main` and its `argparse` handling (pyidenticounter.py:43-55) are command-line glue. `CheckAndCount` plays the role of a client instead.
- Counter.IdentifierCounter.constructor: Python leaves `self.filename` unset until the first `check`, so a visit before it that appends a record would raise `AttributeError`. The model starts with `filename == ""`.
- Report.Decimal: formats non-negative integers only, because line numbers and counts are never negative.
- Identifiers.AssignRecords: `lineno` is an unbounded `nat`, and the `id` of a target is either a string or absent. The walrus test discards an empty `id` as falsy, and the model does the same.
- The behaviour the tests exercise but the code lacks is not modelled: `IdentifierType`, `check(code)` returning records, annotated declarations and parameter records (test_pyidenticycle.py:3, 22, 87-134).
