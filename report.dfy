/**
 What `report` prints: one count line per file, or one line per record.
 Lines are produced as values; printing them is left to the caller.
 */
module Report {
  import opened Identifiers
  import opened Store
  import opened Sequences

  /** `f"{filename}: {len(identifiers)}"` and
      `f"{filename}:{lineno}: {type} '{name}'"`, before formatting. */
  datatype Line =
    | CountLine(file: string, count: nat)
    | DetailLine(file: string, line: nat, kind: Kind, name: string)

  datatype Option<T> = None | Some(value: T)

  /** Reads a `type` string back. */
  function ParseKind(t: string): Option<Kind> {
    if t == "variable" then Some(Variable)
    else if t == "func_or_method" then Some(FuncOrMethod)
    else if t == "class" then Some(Class)
    else None
  }

  /** The `type` string stored in each record; it reads back as its kind,
      so the three strings are distinct. */
  function KindName(k: Kind): (r: string)
    ensures ParseKind(r) == Some(k)
  {
    match k
    case Variable => "variable"
    case FuncOrMethod => "func_or_method"
    case Class => "class"
  }

  /** The value of a string of decimal digits. */
  function DecimalValue(s: string): nat
    decreases |s|
  {
    if s == [] then 0
    else
      var c := s[|s| - 1];
      DecimalValue(s[..|s| - 1]) * 10 + (if '0' <= c <= '9' then c as int - '0' as int else 0)
  }

  predicate IsDigits(s: string) {
    forall i :: 0 <= i < |s| ==> '0' <= s[i] <= '9'
  }

  /** `str(n)` for a non-negative integer: its shortest decimal digits. */
  function Decimal(n: nat): (r: string)
    ensures r != [] && IsDigits(r)
    ensures DecimalValue(r) == n
    ensures r[0] == '0' ==> r == "0"
    decreases n
  {
    var d := ['0' + ((n % 10) as char)];
    if n < 10 then d else Decimal(n / 10) + d
  }

  /** The printed form of one line; both forms start with the file name and
      a colon. */
  function FormatLine(l: Line): (r: string)
    ensures |l.file| < |r| && r[..|l.file|] == l.file && r[|l.file|] == ':'
  {
    match l
    case CountLine(f, n) => f + ": " + Decimal(n)
    case DetailLine(f, lineno, k, name) => f + ":" + Decimal(lineno) + ": " + KindName(k) + " '" + name + "'"
  }

  /** A count line reads back as the file name, ": " and the count. */
  lemma {:induction false} FormatCountLine(f: string, n: nat)
    ensures var r := FormatLine(CountLine(f, n));
      |f| + 2 < |r| && r[..|f|] == f && r[|f|..|f| + 2] == ": "
      && IsDigits(r[|f| + 2..]) && DecimalValue(r[|f| + 2..]) == n
  {
    var r := FormatLine(CountLine(f, n));
    assert r[|f| + 2..] == Decimal(n);
  }

  /** A detail line reads back as the file name, ":", digits whose value is
      the line number, ": ", a type string naming the kind, " '", the name
      and "'"; `j` is where the digits end. */
  lemma {:induction false} FormatDetailLine(f: string, lineno: nat, k: Kind, name: string) returns (j: nat)
    ensures var r := FormatLine(DetailLine(f, lineno, k, name));
      && |f| + 1 < j && j + 2 + |name| + 3 <= |r|
      && r[..|f|] == f && r[|f|] == ':'
      && IsDigits(r[|f| + 1..j]) && DecimalValue(r[|f| + 1..j]) == lineno
      && r[j..j + 2] == ": "
      && ParseKind(r[j + 2..|r| - |name| - 3]) == Some(k)
      && r[|r| - |name| - 3..|r| - |name| - 1] == " '"
      && r[|r| - |name| - 1..|r| - 1] == name && r[|r| - 1] == '\''
  {
    var d, t := Decimal(lineno), KindName(k);
    var r := FormatLine(DetailLine(f, lineno, k, name));
    assert r == f + ":" + d + ": " + t + " '" + name + "'";
    j := |f| + 1 + |d|;
    assert r[|f| + 1..j] == d;
    assert r[j + 2..|r| - |name| - 3] == t;
  }

  /** `out` is `lines`, each formatted. */
  predicate Renders(out: seq<string>, lines: seq<Line>) {
    |out| == |lines| && forall i :: 0 <= i < |lines| ==> out[i] == FormatLine(lines[i])
  }

  lemma {:induction false} RendersSnoc(out: seq<string>, lines: seq<Line>, l: Line)
    requires Renders(out, lines)
    ensures Renders(out + [FormatLine(l)], lines + [l])
  {
  }

  lemma {:induction false} RendersAppend(out: seq<string>, lines: seq<Line>, out': seq<string>, lines': seq<Line>)
    requires Renders(out, lines) && Renders(out', lines')
    ensures Renders(out + out', lines + lines')
  {
    forall i | 0 <= i < |lines + lines'|
      ensures (out + out')[i] == FormatLine((lines + lines')[i])
    {
      if i < |lines| {
        assert (out + out')[i] == out[i] && (lines + lines')[i] == lines[i];
      } else {
        assert (out + out')[i] == out'[i - |out|] && (lines + lines')[i] == lines'[i - |lines|];
      }
    }
  }

  /** The lines of one file's records, in stored order. */
  function RecordLines(f: string, rs: seq<Record>): (r: seq<Line>)
    ensures |r| == |rs|
    ensures forall j :: 0 <= j < |rs| ==> r[j] == DetailLine(f, rs[j].line, rs[j].kind, rs[j].name)
    decreases |rs|
  {
    if rs == [] then []
    else
      var x := rs[|rs| - 1];
      RecordLines(f, rs[..|rs| - 1]) + [DetailLine(f, x.line, x.kind, x.name)]
  }

  /** Count lines for the files `ks`. */
  function CountLines(s: Store, ks: seq<string>): (r: seq<Line>)
    ensures |r| == |ks|
    ensures forall i :: 0 <= i < |ks| ==> r[i] == CountLine(ks[i], |Lookup(s, ks[i])|)
    decreases |ks|
  {
    if ks == [] then []
    else
      var f := ks[|ks| - 1];
      CountLines(s, ks[..|ks| - 1]) + [CountLine(f, |Lookup(s, f)|)]
  }

  /** Detail lines for the files `ks`, file after file; each is about one of
      those files. */
  function DetailLines(s: Store, ks: seq<string>): (r: seq<Line>)
    ensures forall i :: 0 <= i < |r| ==> r[i].DetailLine? && r[i].file in ks
    decreases |ks|
  {
    if ks == [] then []
    else
      var f := ks[|ks| - 1];
      var init := ks[..|ks| - 1];
      assert forall g :: g in init ==> g in ks;
      DetailLines(s, init) + RecordLines(f, Lookup(s, f))
  }

  /** The report as `report(verbose)` prints it, key by key in insertion order. */
  function ReportLines(s: Store, verbose: bool): (r: seq<Line>)
    ensures verbose ==> forall i :: 0 <= i < |r| ==> r[i].DetailLine? && r[i].file in s.keys
    ensures !verbose ==> |r| == |s.keys| && forall i :: 0 <= i < |r| ==> r[i].CountLine? && r[i].file == s.keys[i]
  {
    if verbose then DetailLines(s, s.keys) else CountLines(s, s.keys)
  }

  /** The report over one more key. */
  lemma {:induction false} ReportStep(s: Store, ks: seq<string>, k: nat)
    requires k < |ks|
    ensures DetailLines(s, ks[..k + 1]) == DetailLines(s, ks[..k]) + RecordLines(ks[k], Lookup(s, ks[k]))
    ensures CountLines(s, ks[..k + 1]) == CountLines(s, ks[..k]) + [CountLine(ks[k], |Lookup(s, ks[k])|)]
  {
    assert ks[..k + 1][..k] == ks[..k] && ks[..k + 1][k] == ks[k];
  }

  /** The detail lines of consecutive key lists follow each other. */
  lemma {:induction false} DetailLinesAppend(s: Store, a: seq<string>, b: seq<string>)
    ensures DetailLines(s, a + b) == DetailLines(s, a) + DetailLines(s, b)
    decreases |b|
  {
    if b == [] {
      assert a + b == a;
    } else {
      var b0, x := b[..|b| - 1], b[|b| - 1];
      var ab := a + b;
      assert ab[..|ab| - 1] == a + b0 && ab[|ab| - 1] == x;
      var last := RecordLines(x, Lookup(s, x));
      assert DetailLines(s, ab) == DetailLines(s, a + b0) + last;
      assert DetailLines(s, b) == DetailLines(s, b0) + last;
      DetailLinesAppend(s, a, b0);
      ConcatAssoc(DetailLines(s, a), DetailLines(s, b0), last);
    }
  }

  /** In the detailed report, the `i`-th file's records form one block, in
      stored order, after the lines of all earlier files and before those
      of all later ones. */
  lemma {:induction false} DetailLinesBlock(s: Store, ks: seq<string>, i: nat)
    requires i < |ks|
    ensures DetailLines(s, ks)
         == DetailLines(s, ks[..i]) + RecordLines(ks[i], Lookup(s, ks[i])) + DetailLines(s, ks[i + 1..])
  {
    assert ks == ks[..i + 1] + ks[i + 1..];
    DetailLinesAppend(s, ks[..i + 1], ks[i + 1..]);
    assert ks[..i + 1][..i] == ks[..i];
  }

  /** The sum of the counts of count lines. */
  function CountSum(lines: seq<Line>): int
    decreases |lines|
  {
    if lines == [] then 0
    else
      var l := lines[|lines| - 1];
      CountSum(lines[..|lines| - 1]) + (if l.CountLine? then l.count else 0)
  }

  /** The two modes agree: the counts of the short report add up to the
      number of lines of the detailed one. */
  lemma {:induction false} CountsAddUpToDetails(s: Store, ks: seq<string>)
    ensures CountSum(CountLines(s, ks)) == |DetailLines(s, ks)|
    decreases |ks|
  {
    if ks != [] {
      var init := ks[..|ks| - 1];
      CountsAddUpToDetails(s, init);
      var c := CountLines(s, ks);
      assert c[..|c| - 1] == CountLines(s, init);
    }
  }

  /** The inner loop of `report` in verbose mode: one formatted line per
      record of file `f`, in stored order. */
  method RenderRecords(f: string, identifiers: seq<Record>) returns (out: seq<string>)
    ensures Renders(out, RecordLines(f, identifiers))
  {
    out := [];
    for j := 0 to |identifiers|
      invariant Renders(out, RecordLines(f, identifiers[..j]))
    {
      var rec := identifiers[j];
      assert identifiers[..j + 1][..j] == identifiers[..j] && identifiers[..j + 1][j] == rec;
      var line := DetailLine(f, rec.line, rec.kind, rec.name);
      RendersSnoc(out, RecordLines(f, identifiers[..j]), line);
      out := out + [FormatLine(line)];
    }
    assert identifiers[..|identifiers|] == identifiers;
  }
}
