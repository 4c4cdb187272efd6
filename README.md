# JavaNCSS batch layer, modelled in Dafny

JavaNCSS counts the non-commenting source statements (NCSS) and lines of
Java sources. It also gathers per-function, per-type and per-package
metrics. This project models the layer that drives a run. That layer:

- measures either one unit read from a bare reader (reported as `STDIN`) or a list of files;
- adds each parsed unit's counts, function and object metrics and package totals to the run's;
- keeps the parsed units' package totals merged by package name;
- records an error message and the last error when a file cannot be opened or parsed;
- lists the package totals sorted by name once the run is over;
- turns the command-line arguments into the list of source files, expanding `@list` files and directories;
- reads only the package and import statements of one file;
- decides which sections the report holds, and in what order.

The per-function record `FunctionMetric` is modelled too.

The parser is an oracle. For each file a `FileSystem` value says:

- whether the file opens;
- what parsing it yields: a unit, or a `ParseException` or `TokenMgrError` together with the last function recognised;
- what parsing only its header yields;
- how names are normalised, which names are directories, which `.java` files lie beneath a directory, and what a list file holds;
- the absolute path of the file made from a line of a list file.

A file is identified by its absolute path, the one its messages print. Normalised names and the files beneath a directory already are absolute paths. A line of a list file becomes a file through the `absolutePath` oracle.

Modules:

- `JavaStrings`: the Java string operations the layer relies on, namely `trim`, `compareTo` and `split("\n")`.
- `FunctionMetrics`: the class `FunctionMetric`.
- `Metrics`: object and package metrics, `add`, and the sort by name.
- `Batch`: the pure step functions that specify the driver. These are the totals and messages after a unit, a file or a list of files, with lemmas about them.
- `Arguments`: the specification of argument expansion.
- `Report`: the specification of the report layout.
- `Javancss`: the class `Javancss`, whose methods update its fields in place and are proved against the functions of `Batch`, `Arguments` and `Report`.

## Model

| member | source | states |
|---|---|---|
| FunctionMetrics.FunctionMetric.constructor | src/main/java/javancss/FunctionMetric.java:32-43 | a new metric is named "." and has every count 0 |
| FunctionMetrics.FunctionMetric.Clear | src/main/java/javancss/FunctionMetric.java:45-54 | afterwards every field holds its initial value, whatever it held before |
| FunctionMetrics.FunctionMetric.ToString | src/main/java/javancss/FunctionMetric.java:56-58 | a metric prints as its name |
| FunctionMetrics.FunctionMetric.CompareTo | src/main/java/javancss/FunctionMetric.java:60-63 | the result is 0 exactly when the names are equal, and swapping the operands negates it |
| FunctionMetrics.CompareToByName | src/main/java/javancss/FunctionMetric.java:60-63 | two metrics with equal names compare equal to each other and alike against any third, whatever their counts |
| JavaStrings.BlankIffAllSpace | src/main/java/javancss/Javancss.java:113 | a string trims to empty exactly when every character is at most a space |
| JavaStrings.CompareZeroIffEqual | src/main/java/javancss/FunctionMetric.java:62 | string `compareTo` is 0 exactly for equal strings |
| JavaStrings.CompareAntisymmetric | src/main/java/javancss/FunctionMetric.java:62 | swapping the strings negates `compareTo` |
| JavaStrings.CompareTransitive | src/main/java/javancss/Javancss.java:306 | the order by `compareTo` that the sort uses is transitive |
| JavaStrings.SplitAll | src/main/java/javancss/Javancss.java:585 | the raw split gives at least one piece and no piece holds a line break |
| JavaStrings.DropTrailingEmpty | src/main/java/javancss/Javancss.java:585 | removing trailing empty pieces gives a prefix that ends in a non-empty piece, or is empty, and only empty pieces are removed |
| JavaStrings.SplitAllJoin | src/main/java/javancss/Javancss.java:585 | joining the raw split pieces with line breaks gives back the text |
| JavaStrings.DropTrailingEmptyJoin | src/main/java/javancss/Javancss.java:585 | dropping trailing empty pieces only removes line breaks from the end of the joined text |
| JavaStrings.SplitSpec | src/main/java/javancss/Javancss.java:585 | `split("\n")` gives lines without line breaks; joined, they are the text less some final line breaks; the last line of a non-empty text is not empty; a text without line breaks, the empty text included, is its own single line |
| Metrics.Add | src/main/java/javancss/Javancss.java:228-229 | adding keeps the name of the receiver; adding a missing total changes nothing |
| Metrics.AddCommutative | src/main/java/javancss/Javancss.java:228-229 | the counts of a sum do not depend on the order of the operands |
| Metrics.AddAssociative | src/main/java/javancss/Javancss.java:228-229 | adding is associative, so the order in which units add to a package does not matter |
| Metrics.InsertByName | src/main/java/javancss/Javancss.java:306 | inserting into a name-sorted list keeps it sorted and adds exactly the one element |
| Metrics.SortByName | src/main/java/javancss/Javancss.java:306 | the result is sorted by name and is a permutation of the input |
| Batch.MergeKeepsNames | src/main/java/javancss/Javancss.java:221-232 | after a merge every package total is named by its key |
| Batch.MergeOrderIrrelevant | src/main/java/javancss/Javancss.java:221-232 | merging two units' packages gives the same totals in either order |
| Batch.SingleFile | src/main/java/javancss/Javancss.java:399-407 | measuring the one-file list is measuring that file |
| Batch.TotalsAfterFilesConcat | src/main/java/javancss/Javancss.java:264-279 | measuring two lists one after the other gives the same totals as measuring them joined |
| Batch.DiagnosticsAfterFilesConcat | src/main/java/javancss/Javancss.java:264-279 | the same holds of the error message and the last error |
| Batch.FailedFileContributesNothing | src/main/java/javancss/Javancss.java:264-279 | a file that does not open or parse leaves the totals as if it were absent, and the files after it are still measured |
| Batch.TotalsAfterFilesSums | src/main/java/javancss/Javancss.java:213-217 | after a batch, ncss and loc have grown by the sums over the parsed files, and the function and object lists have each file's list appended in file order |
| Batch.MessageKeptAfterFile | src/main/java/javancss/Javancss.java:128-187 | a non-blank message stays a prefix of the message, which stays non-blank, whatever one file's outcome |
| Batch.MessagesAccumulate | src/main/java/javancss/Javancss.java:264-279 | once the message is non-blank, every later message of the batch starts with it |
| Batch.NoMessageIffAllParsed | src/main/java/javancss/Javancss.java:128-187 | from a null message, the message stays null exactly when every file opens and parses |
| Arguments.FailureIsFinal | src/main/java/javancss/Javancss.java:579-583 | once a list file cannot be read, later arguments change nothing |
| Arguments.ProcessedGrows | src/main/java/javancss/Javancss.java:572 | a list file once read stays recorded as read |
| Arguments.ListFileReadOnce | src/main/java/javancss/Javancss.java:566-590 | naming a list file again later in the arguments adds nothing, in any spelling that normalises to the same path |
| Arguments.ShortListNameSkipped | src/main/java/javancss/Javancss.java:566-569 | `@` followed by at most one character is skipped without a read |
| Arguments.PlainNameAppended | src/main/java/javancss/Javancss.java:593-604 | a plain name that is not a directory is appended in normalised form, with no deduplication |
| Arguments.ListedFiles | src/main/java/javancss/Javancss.java:585-589 | one file per line of a list file, in line order, each the absolute path of the file made from that line |
| Arguments.ListFileContents | src/main/java/javancss/Javancss.java:572-589 | a list file read for the first time appends one file per line, in line order, and is recorded as read |
| Report.LayoutCases | src/main/java/javancss/Javancss.java:732-767 | the section sequence for each of the eight combinations of selected tables |
| Report.LayoutFrame | src/main/java/javancss/Javancss.java:732-767 | a report starts with the opening and ends with the closing, and neither appears elsewhere |
| Report.LayoutSelection | src/main/java/javancss/Javancss.java:732-767 | each table appears exactly when its option or `all` is set; the summary appears exactly when no table is selected |
| Report.LayoutOrder | src/main/java/javancss/Javancss.java:732-767 | tables come in package, object, function order |
| Report.LayoutBlankLines | src/main/java/javancss/Javancss.java:732-767 | a blank line stands only between two tables, and every table is followed by a blank line or by the closing |
| Javancss.Javancss.constructor | src/main/java/javancss/Javancss.java:413-417 | the idle instance: no files, zero counts, empty lists, null message and error |
| Javancss.Javancss.FromFiles | src/main/java/javancss/Javancss.java:373-392 | the counts, lists, packages, message and error are those after measuring the files, or the reader when there are no files, from an empty start; unless the reader fails, the package list is the totals sorted by name, and otherwise it stays null; no imports are read |
| Javancss.Javancss.FromReader | src/main/java/javancss/Javancss.java:497-509 | the state is that after measuring the reader's unit from an empty start; the package list is the totals sorted by name when the unit parses, and stays null when it fails; no imports are read |
| Javancss.Javancss.FromFile | src/main/java/javancss/Javancss.java:399-407 | the state is that after measuring the one file from an empty start, and the package list is always the totals sorted by name; no imports are read |
| Javancss.Javancss.CreateSourceReader | src/main/java/javancss/Javancss.java:105-126 | the result says whether the file opens; on failure "File not found: <path>" replaces a null or blank message, or follows a non-blank one after a line break; the last error is recorded; on success nothing changes |
| Javancss.Javancss.MergeUnitPackages | src/main/java/javancss/Javancss.java:221-232 | each of the unit's packages becomes its total renamed to its key plus the previous total of that key; other packages are untouched; totals stay named by their keys |
| Javancss.Javancss.RecordStdinFailure | src/main/java/javancss/Javancss.java:234-261 | the STDIN report of the failure is appended to the message (null counting as empty) and the failure becomes the last error |
| Javancss.Javancss.MeasureReader | src/main/java/javancss/Javancss.java:190-262 | success exactly on a parsed unit, which adds its counts and appends its lists; a failure changes no count, list or package total |
| Javancss.Javancss.MeasureFile | src/main/java/javancss/Javancss.java:128-188 | the state is that after the file's step; on a parse failure the message is the one held before the parse followed by a report naming the file, so the STDIN text is discarded |
| Javancss.Javancss.MeasureFiles | src/main/java/javancss/Javancss.java:264-279 | the state is that after measuring every file in list order, whatever their outcomes |
| Javancss.Javancss.PackageValues | src/main/java/javancss/Javancss.java:301-305 | exactly the package totals, each listed once and without repeats |
| Javancss.Javancss.MeasureRoot | src/main/java/javancss/Javancss.java:285-307 | a run starts from no package totals and measures the files or the reader; on success the package list is the totals sorted by name; a failing reader leaves the list as it was |
| Javancss.Javancss.SetSourceFile | src/main/java/javancss/Javancss.java:485-490 | the file becomes both the header source and the one file to measure |
| Javancss.Javancss.ParseImports | src/main/java/javancss/Javancss.java:419-483 | returns false exactly when a source file is set, opens and its header parses, and then stores its imports and package; otherwise true, with the open failure or the STDIN report recorded |
| Javancss.Javancss.FindFiles | src/main/java/javancss/Javancss.java:541-614 | the result is the argument expansion; an unreadable list file replaces the message with "File Read Error: <path>" and ends the expansion |
| Javancss.Javancss.Format | src/main/java/javancss/Javancss.java:732-767 | the sections written are the report layout of the options |

## Left out

- The parser and token manager are not modelled. Their results are oracle values, and their static comment counters (read by the getters at Javancss.java:779-801) are hidden state.
- Character encodings, readers and the reading of `System.in` are left out; the reader's parse result is a parameter.
- `normalizeFileName`, `readFile`, `_addJavaFiles` and the absolute path of `new File(name)` are oracle fields of `FileSystem`. A file is named by its absolute path, so the messages print what `getAbsolutePath()` prints. `normalize` and `javaFilesUnder` are taken to yield absolute paths already.
- Strings holding surrogate code units are left out. Java strings are UTF-16 code units, but a Dafny `char` is a Unicode scalar value. The model agrees with Java only on names without surrogates; with supplementary characters, `compareTo` would order names differently. The sorts at Javancss.java:306 and FunctionMetric.java:62 are affected.
- FunctionMetrics.FunctionMetric.CompareTo: a `name` is never null in the model. Java's public field can be null, and then `compareTo` throws a `NullPointerException`.
- The command-line constructor, option parsing, the GUI, XML output, the formatters' text and logging are left out; `Format` models only which sections are written and in what order.
- Plain getters and setters are left out, since they only read or write a field.
- PackageMetric.java and ObjectMetric.java are not part of this model. `add` is modelled as the sum of the class, function and NCSS counts, and package metrics are ordered by name.
- Metrics.Add: does not model that Java adds into the parser's own record in place; the model returns the sum as a new value, so aliasing between the parser's map and the run's map is not captured.
- Metrics.SortByName: proved sorted and a permutation, but not stable the way `Collections.sort` is.
- Javancss.Javancss.PackageValues: the order of a `HashMap`'s values is not modelled; any order is allowed, and the sort that follows removes it.
- Java's 32-bit `int` wrap-around of the counts is not modelled; counts are unbounded integers.
- Constructing a parser is taken never to fail. The "last useful checkpoint" line is therefore always present in a `ParseException` report.
- Javancss.Javancss.FromFile: the reader handed to the run is a placeholder, since a run with files never consults it.
- Javancss.Javancss.FindFiles: does not model that an empty argument list gets "." added in place (the caller's list is changed); the model expands ["."] without changing the caller's list.
- Exceptions are not modelled as control flow. A run that stops early returns `false`, and the exception that Java would print is left out.
