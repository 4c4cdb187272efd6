/**
 * How the command-line arguments become the list of source files: a plain
 * name is normalised and stands for itself, or for the `.java` files beneath
 * it when it is a directory; `@list` names a file that lists one source name
 * per line, read at most once however often it is named.
 */
module Arguments {
  import opened Wrappers
  import JavaStrings
  import opened Batch

  /**
   * The state of the expansion: the files found so far, the list files read
   * so far, and the list file whose reading failed (which ends the expansion).
   */
  datatype Expansion = Expansion(files: seq<string>, processed: set<string>, failed: Option<string>)

  /** The outcome of `findFiles`: null, the file list, or the list file that could not be read. */
  datatype Found = NoArguments | Files(files: seq<string>) | ReadFailed(path: string)

  /** Whether `name` refers to a list file. */
  predicate IsListArgument(name: string) {
    |name| > 0 && name[0] == '@'
  }

  /** The files a list file names: each line made into a file, in line order. */
  function ListedFiles(lines: seq<string>, fs: FileSystem): (r: seq<string>)
    ensures |r| == |lines|
    ensures forall i :: 0 <= i < |lines| ==> r[i] == fs.absolutePath(lines[i])
  {
    if lines == [] then []
    else ListedFiles(lines[..|lines| - 1], fs) + [fs.absolutePath(lines[|lines| - 1])]
  }

  /** The expansion after one more argument. */
  function ExpandArgument(e: Expansion, name: string, fs: FileSystem): Expansion {
    if IsListArgument(name) then
      var listName := name[1..];
      if |listName| > 1 then
        var path := fs.normalize(listName);
        if path in e.processed then e
        else match fs.readFile(path)
          case None => e.(processed := e.processed + {path}, failed := Some(path))
          case Some(text) => e.(processed := e.processed + {path}, files := e.files + ListedFiles(JavaStrings.Split(text), fs))
      else e
    else
      var path := fs.normalize(name);
      if fs.isDirectory(path) then e.(files := e.files + fs.javaFilesUnder(path))
      else e.(files := e.files + [path])
  }

  /** The expansion of the arguments in order, stopping at the first unreadable list file. */
  function Expand(names: seq<string>, fs: FileSystem): Expansion {
    if names == [] then Expansion([], {}, None)
    else
      var e := Expand(names[..|names| - 1], fs);
      if e.failed.Some? then e else ExpandArgument(e, names[|names| - 1], fs)
  }

  /** `findFiles`: no arguments mean the current directory when recursing, and null otherwise. */
  function FindFiles(names: seq<string>, recursive: bool, fs: FileSystem): Found {
    if names == [] && !recursive then NoArguments
    else
      var e := Expand(if names == [] then ["."] else names, fs);
      if e.failed.Some? then ReadFailed(e.failed.value) else Files(e.files)
  }

  /** Once a list file cannot be read, later arguments change nothing. */
  lemma {:induction false} FailureIsFinal(a: seq<string>, b: seq<string>, fs: FileSystem)
    requires Expand(a, fs).failed.Some?
    ensures Expand(a + b, fs) == Expand(a, fs)
    decreases |b|
  {
    if b == [] {
      assert a + b == a;
    } else {
      FailureIsFinal(a, b[..|b| - 1], fs);
      assert (a + b)[..|a + b| - 1] == a + b[..|b| - 1];
    }
  }

  /** A list file, once read, stays read. */
  lemma {:induction false} ProcessedGrows(a: seq<string>, b: seq<string>, fs: FileSystem)
    ensures Expand(a, fs).processed <= Expand(a + b, fs).processed
    decreases |b|
  {
    if b == [] {
      assert a + b == a;
    } else {
      ProcessedGrows(a, b[..|b| - 1], fs);
      assert (a + b)[..|a + b| - 1] == a + b[..|b| - 1];
    }
  }

  /**
   * Naming a list file again later in the arguments adds nothing, even in
   * another spelling, as long as it normalises to the same path.
   */
  lemma ListFileReadOnce(a: seq<string>, first: string, b: seq<string>, again: string, fs: FileSystem)
    requires IsListArgument(first) && |first| > 2
    requires IsListArgument(again) && |again| > 2
    requires fs.normalize(first[1..]) == fs.normalize(again[1..])
    ensures Expand(a + [first] + b + [again], fs) == Expand(a + [first] + b, fs)
  {
    var prefix := a + [first];
    assert prefix[..|prefix| - 1] == a;
    var e := Expand(prefix + b, fs);
    assert (prefix + b + [again])[..|prefix + b + [again]| - 1] == prefix + b;
    if e.failed.None? {
      if Expand(prefix, fs).failed.Some? {
        FailureIsFinal(prefix, b, fs);
      }
      ProcessedGrows(prefix, b, fs);
    }
  }

  /** A list file whose name is a single character, or empty, is skipped without being read. */
  lemma ShortListNameSkipped(names: seq<string>, name: string, fs: FileSystem)
    requires IsListArgument(name) && |name| <= 2
    ensures Expand(names + [name], fs) == Expand(names, fs)
  {
    assert (names + [name])[..|names|] == names;
  }

  /** Plain names are not deduplicated: a file named twice is listed twice. */
  lemma PlainNameAppended(names: seq<string>, name: string, fs: FileSystem)
    requires !IsListArgument(name) && !fs.isDirectory(fs.normalize(name))
    requires Expand(names, fs).failed.None?
    ensures Expand(names + [name], fs).files == Expand(names, fs).files + [fs.normalize(name)]
  {
    assert (names + [name])[..|names|] == names;
  }

  /** A list file read for the first time adds one file per line, in line order. */
  lemma ListFileContents(names: seq<string>, name: string, text: string, fs: FileSystem)
    requires IsListArgument(name) && |name| > 2
    requires Expand(names, fs).failed.None? && fs.normalize(name[1..]) !in Expand(names, fs).processed
    requires fs.readFile(fs.normalize(name[1..])) == Some(text)
    ensures Expand(names + [name], fs).files == Expand(names, fs).files + ListedFiles(JavaStrings.Split(text), fs)
    ensures fs.normalize(name[1..]) in Expand(names + [name], fs).processed
  {
    assert (names + [name])[..|names|] == names;
  }
}
