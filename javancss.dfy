/**
 * The batch driver: measures one unit read from a bare reader, or a list of
 * source files, accumulating statement and line counts, function and object
 * metrics and per-package totals; records error messages; expands the
 * command-line arguments into source files; and decides the sections of the
 * report.
 */
module Javancss {
  import opened Wrappers
  import opened Metrics
  import opened Batch
  import JavaStrings
  import FunctionMetrics
  import Arguments
  import Report

  class Javancss {
    /** The files to measure; `None` means the reader is measured instead. */
    var sourceFiles: Option<seq<string>>
    /** The file whose header `ParseImports` reads. */
    var sourceFile: Option<string>
    var errorMessage: Option<string>
    var lastError: Option<Throwable>
    var ncss: int
    var loc: int
    var functionMetrics: seq<FunctionMetrics.FunctionMetric>
    var objectMetrics: seq<ObjectMetric>
    /** The package totals of the current run, by package name. */
    var packages: map<string, PackageMetric>
    /** The package totals sorted by name, once a run has finished. */
    var packageMetrics: Option<seq<PackageMetric>>
    var imports: Option<seq<Import>>
    var packageDeclaration: Option<PackageDeclaration>

    /** Every package total is named by its key. */
    ghost predicate Valid()
      reads this
    {
      NamedByKey(packages)
    }

    function CurrentTotals(): Totals
      reads this
    {
      Totals(ncss, loc, functionMetrics, objectMetrics, packages)
    }

    function CurrentDiagnostics(): Diagnostics
      reads this
    {
      Diagnostics(errorMessage, lastError)
    }

    /** The instance that does not measure anything on creation. */
    constructor ()
      ensures Valid()
      ensures sourceFiles == None && sourceFile == None
      ensures CurrentTotals() == Totals(0, 0, [], [], map[])
      ensures CurrentDiagnostics() == Diagnostics(None, None)
      ensures packageMetrics == None && imports == None && packageDeclaration == None
    {
      sourceFiles, sourceFile := None, None;
      errorMessage, lastError := None, None;
      ncss, loc := 0, 0;
      functionMetrics, objectMetrics := [], [];
      packages, packageMetrics := map[], None;
      imports, packageDeclaration := None, None;
    }

    /** Measures the given files, or the reader `stdin` when there are none. */
    constructor FromFiles(files: Option<seq<string>>, stdin: UnitResult, fs: FileSystem)
      ensures Valid()
      ensures sourceFiles == files && sourceFile == None
      ensures CurrentTotals() ==
        if files.None? then TotalsAfterUnit(Totals(0, 0, [], [], map[]), stdin)
        else TotalsAfterFiles(Totals(0, 0, [], [], map[]), files.value, fs)
      ensures CurrentDiagnostics() ==
        if files.None? then DiagnosticsAfterUnit(Diagnostics(None, None), stdin)
        else DiagnosticsAfterFiles(Diagnostics(None, None), files.value, fs)
      ensures files.Some? || stdin.Parsed? ==>
        && packageMetrics.Some? && SortedByName(packageMetrics.value)
        && |packageMetrics.value| == |packages|
        && forall p :: p in packageMetrics.value <==> p in packages.Values
      ensures files.None? && stdin.Failed? ==> packageMetrics == None
      ensures imports == None && packageDeclaration == None
    {
      sourceFiles, sourceFile := files, None;
      errorMessage, lastError := None, None;
      ncss, loc := 0, 0;
      functionMetrics, objectMetrics := [], [];
      packages, packageMetrics := map[], None;
      imports, packageDeclaration := None, None;
      new;
      var _ := MeasureRoot(stdin, fs);
    }

    /** Measures the unit read from `stdin`. */
    constructor FromReader(stdin: UnitResult, fs: FileSystem)
      ensures Valid()
      ensures sourceFiles == None && sourceFile == None
      ensures CurrentTotals() == TotalsAfterUnit(Totals(0, 0, [], [], map[]), stdin)
      ensures CurrentDiagnostics() == DiagnosticsAfterUnit(Diagnostics(None, None), stdin)
      ensures stdin.Parsed? ==>
        && packageMetrics.Some? && SortedByName(packageMetrics.value)
        && |packageMetrics.value| == |packages|
        && forall p :: p in packageMetrics.value <==> p in packages.Values
      ensures stdin.Failed? ==> packageMetrics == None
      ensures imports == None && packageDeclaration == None
    {
      sourceFiles, sourceFile := None, None;
      errorMessage, lastError := None, None;
      ncss, loc := 0, 0;
      functionMetrics, objectMetrics := [], [];
      packages, packageMetrics := map[], None;
      imports, packageDeclaration := None, None;
      new;
      var _ := MeasureRoot(stdin, fs);
    }

    /** Measures the one file `path`. */
    constructor FromFile(path: string, fs: FileSystem)
      ensures Valid()
      ensures sourceFiles == Some([path]) && sourceFile == None
      ensures CurrentTotals() == TotalsAfterFile(Totals(0, 0, [], [], map[]), path, fs)
      ensures CurrentDiagnostics() == DiagnosticsAfterFile(Diagnostics(None, None), path, fs)
      ensures packageMetrics.Some? && SortedByName(packageMetrics.value)
      ensures |packageMetrics.value| == |packages|
      ensures forall p :: p in packageMetrics.value <==> p in packages.Values
      ensures imports == None && packageDeclaration == None
    {
      sourceFiles, sourceFile := Some([path]), None;
      errorMessage, lastError := None, None;
      ncss, loc := 0, 0;
      functionMetrics, objectMetrics := [], [];
      packages, packageMetrics := map[], None;
      imports, packageDeclaration := None, None;
      new;
      ghost var t, d := CurrentTotals(), CurrentDiagnostics();
      SingleFile(t, d, path, fs);
      // the reader is not consulted when there are files to measure
      var _ := MeasureRoot(Failed(ParseException(""), ""), fs);
    }

    /** Opens `path`; on failure records why. */
    method CreateSourceReader(path: string, fs: FileSystem) returns (readable: bool)
      modifies this`errorMessage, this`lastError
      ensures readable == fs.opens(path)
      ensures readable ==> CurrentDiagnostics() == old(CurrentDiagnostics())
      ensures !readable ==> lastError == Some(FileNotFound(path))
      ensures !readable && (old(errorMessage).None? || JavaStrings.IsBlank(old(errorMessage).value)) ==>
        errorMessage == Some("File not found: " + path)
      ensures !readable && old(errorMessage).Some? && !JavaStrings.IsBlank(old(errorMessage).value) ==>
        errorMessage == Some(old(errorMessage).value + "\n" + "File not found: " + path)
    {
      readable := fs.opens(path);
      if !readable {
        if errorMessage.None? || JavaStrings.IsBlank(errorMessage.value) {
          errorMessage := Some("");
        } else {
          errorMessage := Some(errorMessage.value + "\n");
        }
        errorMessage := Some(errorMessage.value + "File not found: " + path);
        assert errorMessage.value == NotFoundMessage(old(errorMessage), path);
        lastError := Some(FileNotFound(path));
      }
    }

    /**
     * Adds the unit's package totals to the run's: each of the unit's
     * packages is renamed to its key and the previous total of that key is
     * added to it.
     */
    method MergeUnitPackages(unit: map<string, PackageMetric>)
      requires Valid()
      modifies this`packages
      ensures Valid()
      ensures packages == MergePackages(old(packages), unit)
      ensures packages.Keys == old(packages).Keys + unit.Keys
      ensures forall k :: k in unit ==> packages[k] == Add(unit[k].(name := k), Lookup(old(packages), k))
      ensures forall k :: k in old(packages) && k !in unit ==> packages[k] == old(packages)[k]
    {
      var pending := unit.Keys;
      while pending != {}
        invariant pending <= unit.Keys
        invariant packages.Keys == old(packages).Keys + (unit.Keys - pending)
        invariant forall k :: k in unit.Keys - pending ==>
          packages[k] == Add(unit[k].(name := k), Lookup(old(packages), k))
        invariant forall k :: k in old(packages) && k !in unit.Keys - pending ==> packages[k] == old(packages)[k]
        decreases pending
      {
        var key :| key in pending;
        var next := unit[key].(name := key);
        var previous := Lookup(packages, key);
        packages := packages[key := Add(next, previous)];
        pending := pending - {key};
      }
      assert packages == MergePackages(old(packages), unit);
      MergeKeepsNames(old(packages), unit);
    }

    /** Appends the report of a parse failure in a bare reader to the error message. */
    method RecordStdinFailure(f: ParseFailure, last: string)
      modifies this`errorMessage, this`lastError
      ensures errorMessage == Some(ReaderMessage(old(errorMessage), f, last))
      ensures lastError == Some(Thrown(f))
    {
      if errorMessage.None? {
        errorMessage := Some("");
      }
      match f {
        case ParseException(m) =>
          errorMessage := Some(errorMessage.value + "ParseException in STDIN");
          errorMessage := Some(errorMessage.value + ("\nLast useful checkpoint: \"" + last + "\"\n"));
          errorMessage := Some(errorMessage.value + (m + "\n"));
        case TokenMgrError(m) =>
          errorMessage := Some(errorMessage.value + "TokenMgrError in STDIN\n");
          errorMessage := Some(errorMessage.value + (m + "\n"));
      }
      lastError := Some(Thrown(f));
    }

    /**
     * Measures one unit read from a bare reader. The parse comes first and
     * everything is accumulated only after it succeeds, so a unit that fails
     * changes no count, list or package total; its failure is appended to
     * the error message as a report about STDIN.
     */
    method MeasureReader(r: UnitResult) returns (ok: bool)
      requires Valid()
      modifies this`ncss, this`loc, this`functionMetrics, this`objectMetrics, this`packages
      modifies this`errorMessage, this`lastError
      ensures Valid()
      ensures ok == r.Parsed?
      ensures CurrentTotals() == TotalsAfterUnit(old(CurrentTotals()), r)
      ensures CurrentDiagnostics() == DiagnosticsAfterUnit(old(CurrentDiagnostics()), r)
      ensures ok ==> ncss == old(ncss) + r.unit.ncss && loc == old(loc) + r.unit.loc
      ensures ok ==> functionMetrics == old(functionMetrics) + r.unit.functions
      ensures ok ==> objectMetrics == old(objectMetrics) + r.unit.objects
      ensures !ok ==> CurrentTotals() == old(CurrentTotals())
    {
      match r
      case Parsed(u) =>
        ncss := ncss + u.ncss;
        loc := loc + u.loc;
        functionMetrics := functionMetrics + u.functions;
        objectMetrics := objectMetrics + u.objects;
        MergeUnitPackages(u.packages);
        ok := true;
      case Failed(f, last) =>
        RecordStdinFailure(f, last);
        ok := false;
    }

    /**
     * Measures one source file. A parse failure replaces whatever the
     * reader-level report appended: the message becomes the one held before
     * the parse followed by a report naming the file.
     */
    method MeasureFile(path: string, fs: FileSystem) returns (ok: bool)
      requires Valid()
      modifies this`ncss, this`loc, this`functionMetrics, this`objectMetrics, this`packages
      modifies this`errorMessage, this`lastError
      ensures Valid()
      ensures ok == (fs.opens(path) && fs.parse(path).Parsed?)
      ensures CurrentTotals() == TotalsAfterFile(old(CurrentTotals()), path, fs)
      ensures CurrentDiagnostics() == DiagnosticsAfterFile(old(CurrentDiagnostics()), path, fs)
      ensures fs.opens(path) && fs.parse(path).Failed? ==>
        var failure, last := fs.parse(path).failure, fs.parse(path).lastFunction;
        errorMessage == Some(FileMessage(old(errorMessage), path, failure, last))
          && old(errorMessage).GetOr("") + FileReport(path, failure, last) <= errorMessage.value
    {
      var readable := CreateSourceReader(path, fs);
      if !readable {
        return false;
      }
      var snapshot := errorMessage;
      var r := fs.parse(path);
      ok := MeasureReader(r);
      if !ok {
        var message := snapshot.GetOr("");
        match r.failure {
          case ParseException(m) =>
            message := message + ("ParseException in " + path
              + "\nLast useful checkpoint: \"" + r.lastFunction + "\"\n");
            message := message + (m + "\n");
          case TokenMgrError(m) =>
            message := message + ("TokenMgrError in " + path + "\n" + m + "\n");
        }
        errorMessage := Some(message);
        lastError := Some(Thrown(r.failure));
      }
    }

    /** Measures every file in list order; a failing file does not stop the others. */
    method MeasureFiles(files: seq<string>, fs: FileSystem)
      requires Valid()
      modifies this`ncss, this`loc, this`functionMetrics, this`objectMetrics, this`packages
      modifies this`errorMessage, this`lastError
      ensures Valid()
      ensures CurrentTotals() == TotalsAfterFiles(old(CurrentTotals()), files, fs)
      ensures CurrentDiagnostics() == DiagnosticsAfterFiles(old(CurrentDiagnostics()), files, fs)
    {
      for i := 0 to |files|
        invariant Valid()
        invariant CurrentTotals() == TotalsAfterFiles(old(CurrentTotals()), files[..i], fs)
        invariant CurrentDiagnostics() == DiagnosticsAfterFiles(old(CurrentDiagnostics()), files[..i], fs)
      {
        var _ := MeasureFile(files[i], fs);
        assert files[..i + 1][..i] == files[..i];
      }
      assert files[..|files|] == files;
    }

    /** The package totals, one per package, in no particular order. */
    method PackageValues() returns (values: seq<PackageMetric>)
      requires Valid()
      ensures |values| == |packages|
      ensures forall p :: p in values <==> p in packages.Values
      ensures forall i, j :: 0 <= i < j < |values| ==> values[i] != values[j]
    {
      values := [];
      var pending := packages.Keys;
      while pending != {}
        invariant pending <= packages.Keys
        invariant |values| + |pending| == |packages|
        invariant forall p :: p in values <==> exists k :: k in packages.Keys - pending && packages[k] == p
        invariant forall i :: 0 <= i < |values| ==> values[i].name !in pending
        invariant forall i, j :: 0 <= i < j < |values| ==> values[i] != values[j]
        decreases pending
      {
        var key :| key in pending;
        values := values + [packages[key]];
        pending := pending - {key};
      }
    }

    /**
     * A run: starts from no package totals, measures the files (or the
     * reader when there are none), then lists the package totals sorted by
     * name. A failure of the reader ends the run before the list is made.
     */
    method MeasureRoot(stdin: UnitResult, fs: FileSystem) returns (ok: bool)
      requires Valid()
      modifies this`ncss, this`loc, this`functionMetrics, this`objectMetrics, this`packages
      modifies this`errorMessage, this`lastError, this`packageMetrics
      ensures Valid()
      ensures ok == (sourceFiles.Some? || stdin.Parsed?)
      ensures CurrentTotals() ==
        var start := old(CurrentTotals()).(packages := map[]);
        if sourceFiles.None? then TotalsAfterUnit(start, stdin) else TotalsAfterFiles(start, sourceFiles.value, fs)
      ensures CurrentDiagnostics() ==
        if sourceFiles.None? then DiagnosticsAfterUnit(old(CurrentDiagnostics()), stdin)
        else DiagnosticsAfterFiles(old(CurrentDiagnostics()), sourceFiles.value, fs)
      ensures ok ==> packageMetrics.Some? && SortedByName(packageMetrics.value)
      ensures ok ==> |packageMetrics.value| == |packages|
      ensures ok ==> forall p :: p in packageMetrics.value <==> p in packages.Values
      ensures !ok ==> packageMetrics == old(packageMetrics)
    {
      packages := map[];
      if sourceFiles.None? {
        ok := MeasureReader(stdin);
        if !ok {
          return;
        }
      } else {
        MeasureFiles(sourceFiles.value, fs);
        ok := true;
      }
      var values := PackageValues();
      var sorted := SortByName(values);
      assert forall p :: p in sorted <==> p in multiset(values);
      packageMetrics := Some(sorted);
    }

    /** Sets the file whose header `ParseImports` reads, and makes it the one file to measure. */
    method SetSourceFile(path: string)
      modifies this`sourceFile, this`sourceFiles
      ensures sourceFile == Some(path) && sourceFiles == Some([path])
    {
      sourceFile := Some(path);
      sourceFiles := Some([path]);
    }

    /**
     * Reads the package and import statements of the source file. Returns
     * true when there was nothing to read or reading failed, false on success.
     */
    method ParseImports(fs: FileSystem) returns (failed: bool)
      modifies this`errorMessage, this`lastError, this`imports, this`packageDeclaration
      ensures failed <==> !(sourceFile.Some? && fs.opens(sourceFile.value) && fs.parseImports(sourceFile.value).ImportsParsed?)
      ensures !failed ==> var r := fs.parseImports(sourceFile.value);
        imports == Some(r.imports) && packageDeclaration == Some(r.declaration)
          && CurrentDiagnostics() == old(CurrentDiagnostics())
      ensures failed ==> imports == old(imports) && packageDeclaration == old(packageDeclaration)
      ensures sourceFile.None? ==> CurrentDiagnostics() == old(CurrentDiagnostics())
      ensures sourceFile.Some? && !fs.opens(sourceFile.value) ==>
        CurrentDiagnostics() == DiagnosticsAfterFile(old(CurrentDiagnostics()), sourceFile.value, fs)
      ensures sourceFile.Some? && fs.opens(sourceFile.value) && fs.parseImports(sourceFile.value).ImportsFailed? ==>
        var r := fs.parseImports(sourceFile.value);
        CurrentDiagnostics() == DiagnosticsAfterUnit(old(CurrentDiagnostics()), Failed(r.failure, r.lastFunction))
    {
      if sourceFile.None? {
        return true;
      }
      var readable := CreateSourceReader(sourceFile.value, fs);
      if !readable {
        return true;
      }
      match fs.parseImports(sourceFile.value)
      case ImportsParsed(found, declaration) =>
        imports := Some(found);
        packageDeclaration := Some(declaration);
        failed := false;
      case ImportsFailed(f, last) =>
        RecordStdinFailure(f, last);
        failed := true;
    }

    /**
     * Expands the arguments into the source files to measure. An unreadable
     * list file replaces the error message and ends the expansion.
     */
    method FindFiles(filenames: seq<string>, recursive: bool, fs: FileSystem) returns (r: Arguments.Found)
      modifies this`errorMessage, this`lastError
      ensures r == Arguments.FindFiles(filenames, recursive, fs)
      ensures r.ReadFailed? ==> errorMessage == Some("File Read Error: " + r.path) && lastError == Some(FileReadError(r.path))
      ensures !r.ReadFailed? ==> CurrentDiagnostics() == old(CurrentDiagnostics())
    {
      var names := filenames;
      if |names| == 0 {
        if recursive {
          names := ["."];
        } else {
          return Arguments.NoArguments;
        }
      }
      var processedListFiles: set<string> := {};
      var newFiles: seq<string> := [];
      for i := 0 to |names|
        invariant Arguments.Expand(names[..i], fs) == Arguments.Expansion(newFiles, processedListFiles, None)
      {
        assert names[..i + 1][..i] == names[..i];
        var filename := names[i];
        if |filename| > 0 && filename[0] == '@' {
          filename := filename[1..];
          if |filename| > 1 {
            filename := fs.normalize(filename);
            if filename !in processedListFiles {
              processedListFiles := processedListFiles + {filename};
              var content := fs.readFile(filename);
              if content.None? {
                errorMessage := Some("File Read Error: " + filename);
                lastError := Some(FileReadError(filename));
                Arguments.FailureIsFinal(names[..i + 1], names[i + 1..], fs);
                assert names[..i + 1] + names[i + 1..] == names;
                return Arguments.ReadFailed(filename);
              }
              var listed := JavaStrings.Split(content.value);
              for j := 0 to |listed|
                invariant newFiles == Arguments.Expand(names[..i], fs).files + Arguments.ListedFiles(listed[..j], fs)
              {
                newFiles := newFiles + [fs.absolutePath(listed[j])];
                assert listed[..j + 1][..j] == listed[..j];
              }
              assert listed[..|listed|] == listed;
            }
          }
        } else {
          filename := fs.normalize(filename);
          if fs.isDirectory(filename) {
            newFiles := newFiles + fs.javaFilesUnder(filename);
          } else {
            newFiles := newFiles + [filename];
          }
        }
      }
      assert names[..|names|] == names;
      return Arguments.Files(newFiles);
    }

    /** The sections of the report, in the order they are written. */
    method Format(options: set<string>) returns (out: seq<Report.Section>)
      ensures out == Report.Layout(options)
    {
      out := [Report.Start];
      var tablePrinted := false;
      if "package" in options || "all" in options {
        out := out + [Report.PackageNcss];
        tablePrinted := true;
      }
      if "object" in options || "all" in options {
        if tablePrinted {
          out := out + [Report.BlankLine];
        }
        out := out + [Report.ObjectNcss];
        tablePrinted := true;
      }
      if "function" in options || "all" in options {
        if tablePrinted {
          out := out + [Report.BlankLine];
        }
        out := out + [Report.FunctionNcss];
        tablePrinted := true;
      }
      if !tablePrinted {
        out := out + [Report.JavaNcss];
      }
      out := out + [Report.End];
      Report.LayoutCases(options);
    }
  }
}
