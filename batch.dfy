/**
 * What one compilation unit contributes to a batch run, and what a run of
 * units leaves behind: the totals (statement count, lines, function and
 * object lists, package map) and the diagnostics (last error message and
 * last error). The parser and the file system are oracles: a run is a
 * function of what they report.
 */
module Batch {
  import opened Wrappers
  import opened Metrics
  import JavaStrings
  import FunctionMetrics

  /**
   * What a parse throws: any `Exception` (a `ParseException` in practice)
   * or any `Error` (a `TokenMgrError` in practice), with its message.
   */
  datatype ParseFailure = ParseException(message: string) | TokenMgrError(message: string)

  /** What the parser gathered from one compilation unit it recognised. */
  datatype Unit = Unit(
    ncss: int,
    loc: int,
    functions: seq<FunctionMetrics.FunctionMetric>,
    objects: seq<ObjectMetric>,
    packages: map<string, PackageMetric>)

  /**
   * The outcome of `parse()` on one unit; a failure carries the name of the
   * last function the parser fully recognised.
   */
  datatype UnitResult = Parsed(unit: Unit) | Failed(failure: ParseFailure, lastFunction: string)

  /** One import statement: the imported name and its line. */
  datatype Import = Import(name: string, line: int)

  /** The package statement: the package name and its line. */
  datatype PackageDeclaration = PackageDeclaration(name: string, line: int)

  /** The outcome of `parseImportUnit()`, the header-only parse. */
  datatype ImportResult =
    | ImportsParsed(imports: seq<Import>, declaration: PackageDeclaration)
    | ImportsFailed(failure: ParseFailure, lastFunction: string)

  /** The last error recorded. */
  datatype Throwable =
    | FileNotFound(path: string)     // opening a source file failed
    | FileReadError(path: string)    // reading an @-list file failed
    | Thrown(failure: ParseFailure)  // the parser threw

  /**
   * What the batch layer learns from outside: whether a source file opens,
   * what the parser makes of its text, and, for argument expansion, how a
   * name is normalised, whether it is a directory, which `.java` files lie
   * beneath a directory, the text of a list file (`None` when unreadable),
   * and the absolute path of `new File(name)` for a name read from a list
   * file. A file is identified by its absolute path, the one `getAbsolutePath()`
   * prints; `normalize` and `javaFilesUnder` already yield absolute paths.
   */
  datatype FileSystem = FileSystem(
    opens: string -> bool,
    parse: string -> UnitResult,
    parseImports: string -> ImportResult,
    normalize: string -> string,
    isDirectory: string -> bool,
    javaFilesUnder: string -> seq<string>,
    readFile: string -> Option<string>,
    absolutePath: string -> string)

  /** The running totals of a batch. */
  datatype Totals = Totals(
    ncss: int,
    loc: int,
    functions: seq<FunctionMetrics.FunctionMetric>,
    objects: seq<ObjectMetric>,
    packages: map<string, PackageMetric>)

  /** The last error message (`None` for null) and the last error. */
  datatype Diagnostics = Diagnostics(message: Option<string>, error: Option<Throwable>)

  /** Every package metric in the map carries its key as its name. */
  predicate NamedByKey(packages: map<string, PackageMetric>) {
    forall k :: k in packages ==> packages[k].name == k
  }

  function Lookup(packages: map<string, PackageMetric>, key: string): Option<PackageMetric> {
    if key in packages then Some(packages[key]) else None
  }

  /**
   * The package map after a unit: each of the unit's packages, renamed to
   * its key, with the previous entry of that key added to it; keys the unit
   * does not mention keep their entries.
   */
  function MergePackages(previous: map<string, PackageMetric>, unit: map<string, PackageMetric>): map<string, PackageMetric> {
    map k | k in previous.Keys + unit.Keys ::
      if k in unit then Add(unit[k].(name := k), Lookup(previous, k)) else previous[k]
  }

  /** Merging keeps every entry named by its key. */
  lemma MergeKeepsNames(previous: map<string, PackageMetric>, unit: map<string, PackageMetric>)
    requires NamedByKey(previous)
    ensures NamedByKey(MergePackages(previous, unit))
  {
  }

  /** The package totals do not depend on the order in which two units are merged. */
  lemma MergeOrderIrrelevant(m: map<string, PackageMetric>, u1: map<string, PackageMetric>, u2: map<string, PackageMetric>)
    ensures MergePackages(MergePackages(m, u1), u2) == MergePackages(MergePackages(m, u2), u1)
  {
    var a := MergePackages(MergePackages(m, u1), u2);
    var b := MergePackages(MergePackages(m, u2), u1);
    assert a.Keys == b.Keys;
    forall k | k in a.Keys ensures a[k] == b[k] {
    }
  }

  /** A unit's contribution: counts added, lists appended in order, packages merged. */
  function Accumulate(t: Totals, u: Unit): Totals {
    Totals(t.ncss + u.ncss, t.loc + u.loc, t.functions + u.functions, t.objects + u.objects,
           MergePackages(t.packages, u.packages))
  }

  /** The totals after parsing one unit: a failed unit contributes nothing. */
  function TotalsAfterUnit(t: Totals, r: UnitResult): Totals {
    if r.Parsed? then Accumulate(t, r.unit) else t
  }

  /** The totals after one source file, which contributes only if it opens and parses. */
  function TotalsAfterFile(t: Totals, path: string, fs: FileSystem): Totals {
    if fs.opens(path) then TotalsAfterUnit(t, fs.parse(path)) else t
  }

  /** The totals after the files, measured in list order. */
  function TotalsAfterFiles(t: Totals, files: seq<string>, fs: FileSystem): Totals {
    if files == [] then t
    else TotalsAfterFile(TotalsAfterFiles(t, files[..|files| - 1], fs), files[|files| - 1], fs)
  }

  /**
   * The message after a unit read from a bare reader fails: the previous
   * message (null counting as empty) followed by a report about STDIN, the
   * text grouped as the three appends build it.
   */
  function ReaderMessage(previous: Option<string>, failure: ParseFailure, lastFunction: string): string {
    var start := previous.GetOr("");
    match failure
    case ParseException(m) =>
      start + "ParseException in STDIN" + ("\nLast useful checkpoint: \"" + lastFunction + "\"\n") + (m + "\n")
    case TokenMgrError(m) =>
      start + "TokenMgrError in STDIN\n" + (m + "\n")
  }

  /** The report of a parse failure in the file `path`. */
  function FileReport(path: string, failure: ParseFailure, lastFunction: string): string {
    match failure
    case ParseException(m) =>
      "ParseException in " + path + "\nLast useful checkpoint: \"" + lastFunction + "\"\n"
    case TokenMgrError(m) =>
      "TokenMgrError in " + path + "\n" + m + "\n"
  }

  /**
   * The message after the file `path` fails to parse: the message held
   * before the parse (null counting as empty) followed by the file's report.
   */
  function FileMessage(previous: Option<string>, path: string, failure: ParseFailure, lastFunction: string): string {
    var start := previous.GetOr("");
    match failure
    case ParseException(m) => start + FileReport(path, failure, lastFunction) + (m + "\n")
    case TokenMgrError(m) => start + FileReport(path, failure, lastFunction)
  }

  /** The message after `path` fails to open: a blank or null message is dropped, anything else gets a line feed. */
  function NotFoundMessage(previous: Option<string>, path: string): string {
    if previous.None? || JavaStrings.IsBlank(previous.value) then "File not found: " + path
    else previous.value + "\n" + "File not found: " + path
  }

  /** The diagnostics after parsing one unit read from a bare reader. */
  function DiagnosticsAfterUnit(d: Diagnostics, r: UnitResult): Diagnostics {
    match r
    case Parsed(_) => d
    case Failed(f, last) => Diagnostics(Some(ReaderMessage(d.message, f, last)), Some(Thrown(f)))
  }

  /** The diagnostics after one source file. */
  function DiagnosticsAfterFile(d: Diagnostics, path: string, fs: FileSystem): Diagnostics {
    if !fs.opens(path) then Diagnostics(Some(NotFoundMessage(d.message, path)), Some(FileNotFound(path)))
    else match fs.parse(path)
      case Parsed(_) => d
      case Failed(f, last) => Diagnostics(Some(FileMessage(d.message, path, f, last)), Some(Thrown(f)))
  }

  /** The diagnostics after the files, measured in list order. */
  function DiagnosticsAfterFiles(d: Diagnostics, files: seq<string>, fs: FileSystem): Diagnostics {
    if files == [] then d
    else DiagnosticsAfterFile(DiagnosticsAfterFiles(d, files[..|files| - 1], fs), files[|files| - 1], fs)
  }

  /** A one-file batch is that file's step. */
  lemma SingleFile(t: Totals, d: Diagnostics, path: string, fs: FileSystem)
    ensures TotalsAfterFiles(t, [path], fs) == TotalsAfterFile(t, path, fs)
    ensures DiagnosticsAfterFiles(d, [path], fs) == DiagnosticsAfterFile(d, path, fs)
  {
    assert [path][..0] == [];
  }

  /** Measuring `a + b` is measuring `a`, then `b` from where `a` left off. */
  lemma {:induction false} TotalsAfterFilesConcat(t: Totals, a: seq<string>, b: seq<string>, fs: FileSystem)
    ensures TotalsAfterFiles(t, a + b, fs) == TotalsAfterFiles(TotalsAfterFiles(t, a, fs), b, fs)
    decreases |b|
  {
    if b == [] {
      assert a + b == a;
    } else {
      TotalsAfterFilesConcat(t, a, b[..|b| - 1], fs);
      assert (a + b)[..|a + b| - 1] == a + b[..|b| - 1];
    }
  }

  /** The same holds of the diagnostics. */
  lemma {:induction false} DiagnosticsAfterFilesConcat(d: Diagnostics, a: seq<string>, b: seq<string>, fs: FileSystem)
    ensures DiagnosticsAfterFiles(d, a + b, fs) == DiagnosticsAfterFiles(DiagnosticsAfterFiles(d, a, fs), b, fs)
    decreases |b|
  {
    if b == [] {
      assert a + b == a;
    } else {
      DiagnosticsAfterFilesConcat(d, a, b[..|b| - 1], fs);
      assert (a + b)[..|a + b| - 1] == a + b[..|b| - 1];
    }
  }

  /**
   * A file that does not open or does not parse leaves the totals as if it
   * were not in the list: the files before and after it are measured all the same.
   */
  lemma FailedFileContributesNothing(t: Totals, a: seq<string>, bad: string, b: seq<string>, fs: FileSystem)
    requires !fs.opens(bad) || fs.parse(bad).Failed?
    ensures TotalsAfterFiles(t, a + [bad] + b, fs) == TotalsAfterFiles(t, a + b, fs)
  {
    TotalsAfterFilesConcat(t, a + [bad], b, fs);
    TotalsAfterFilesConcat(t, a, b, fs);
    assert (a + [bad])[..|a|] == a;
  }

  /** What one file adds to the totals: the parsed unit, or nothing. */
  function Contribution(path: string, fs: FileSystem): Unit {
    if fs.opens(path) && fs.parse(path).Parsed? then fs.parse(path).unit else Unit(0, 0, [], [], map[])
  }

  /** The statements of the files, summed from the front. */
  function NcssOf(files: seq<string>, fs: FileSystem): int {
    if files == [] then 0 else Contribution(files[0], fs).ncss + NcssOf(files[1..], fs)
  }

  /** The lines of the files, summed from the front. */
  function LocOf(files: seq<string>, fs: FileSystem): int {
    if files == [] then 0 else Contribution(files[0], fs).loc + LocOf(files[1..], fs)
  }

  /** The function metrics of the files, file after file. */
  function FunctionsOf(files: seq<string>, fs: FileSystem): seq<FunctionMetrics.FunctionMetric> {
    if files == [] then [] else Contribution(files[0], fs).functions + FunctionsOf(files[1..], fs)
  }

  /** The object metrics of the files, file after file. */
  function ObjectsOf(files: seq<string>, fs: FileSystem): seq<ObjectMetric> {
    if files == [] then [] else Contribution(files[0], fs).objects + ObjectsOf(files[1..], fs)
  }

  /**
   * After a batch, the statement and line counts have grown by the sums over
   * the files, and the function and object lists have the files' lists
   * appended in file order.
   */
  lemma {:induction false} TotalsAfterFilesSums(t: Totals, files: seq<string>, fs: FileSystem)
    ensures TotalsAfterFiles(t, files, fs).ncss == t.ncss + NcssOf(files, fs)
    ensures TotalsAfterFiles(t, files, fs).loc == t.loc + LocOf(files, fs)
    ensures TotalsAfterFiles(t, files, fs).functions == t.functions + FunctionsOf(files, fs)
    ensures TotalsAfterFiles(t, files, fs).objects == t.objects + ObjectsOf(files, fs)
    decreases |files|
  {
    if files != [] {
      var t1 := TotalsAfterFiles(t, [files[0]], fs);
      assert t1 == TotalsAfterFile(t, files[0], fs) by {
        assert [files[0]][..0] == [];
        assert TotalsAfterFiles(t, [files[0]][..0], fs) == t;
      }
      TotalsAfterFilesConcat(t, [files[0]], files[1..], fs);
      assert [files[0]] + files[1..] == files;
      TotalsAfterFilesSums(t1, files[1..], fs);
    }
  }

  /** A message that is not blank stays, as a prefix, through any file's outcome. */
  lemma MessageKeptAfterFile(d: Diagnostics, path: string, fs: FileSystem)
    requires d.message.Some? && !JavaStrings.IsBlank(d.message.value)
    ensures DiagnosticsAfterFile(d, path, fs).message.Some?
    ensures d.message.value <= DiagnosticsAfterFile(d, path, fs).message.value
    ensures !JavaStrings.IsBlank(DiagnosticsAfterFile(d, path, fs).message.value)
  {
    var m := d.message.value;
    var r := DiagnosticsAfterFile(d, path, fs).message.value;
    assert m <= r by {
      if !fs.opens(path) {
        assert r == m + ("\n" + "File not found: " + path);
      }
    }
    JavaStrings.BlankIffAllSpace(m);
    JavaStrings.BlankIffAllSpace(r);
    assert forall i :: 0 <= i < |m| ==> r[i] == m[i];
  }

  /**
   * Error messages accumulate: once the message is not blank, every later
   * message of the batch starts with it.
   */
  lemma {:induction false} MessagesAccumulate(d: Diagnostics, files: seq<string>, fs: FileSystem)
    requires d.message.Some? && !JavaStrings.IsBlank(d.message.value)
    ensures DiagnosticsAfterFiles(d, files, fs).message.Some?
    ensures d.message.value <= DiagnosticsAfterFiles(d, files, fs).message.value
    ensures !JavaStrings.IsBlank(DiagnosticsAfterFiles(d, files, fs).message.value)
    decreases |files|
  {
    if files != [] {
      var d1 := DiagnosticsAfterFiles(d, files[..|files| - 1], fs);
      MessagesAccumulate(d, files[..|files| - 1], fs);
      MessageKeptAfterFile(d1, files[|files| - 1], fs);
    }
  }

  /**
   * Starting from a null message, the message is still null after the batch
   * exactly when every file opened and parsed.
   */
  lemma {:induction false} NoMessageIffAllParsed(e: Option<Throwable>, files: seq<string>, fs: FileSystem)
    ensures DiagnosticsAfterFiles(Diagnostics(None, e), files, fs).message.None?
        <==> forall i :: 0 <= i < |files| ==> fs.opens(files[i]) && fs.parse(files[i]).Parsed?
    decreases |files|
  {
    if files != [] {
      var init := files[..|files| - 1];
      NoMessageIffAllParsed(e, init, fs);
      var d1 := DiagnosticsAfterFiles(Diagnostics(None, e), init, fs);
      if d1.message.Some? {
        var j :| 0 <= j < |init| && !(fs.opens(init[j]) && fs.parse(init[j]).Parsed?);
        assert files[j] == init[j];
      }
      assert forall i :: 0 <= i < |init| ==> files[i] == init[i];
    }
  }
}
