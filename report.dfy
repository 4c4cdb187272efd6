/**
 * Which sections a report holds and in what order. The sections are the
 * formatter's: package, object and function tables, the total-only summary,
 * and the formatter's opening and closing text.
 */
module Report {

  datatype Section = Start | PackageNcss | ObjectNcss | FunctionNcss | JavaNcss | BlankLine | End

  /** The three tables, each selected by its own option or by `all`. */
  predicate IsTable(s: Section) {
    s == PackageNcss || s == ObjectNcss || s == FunctionNcss
  }

  /** The fixed order of the tables. */
  function Rank(s: Section): int {
    match s
    case PackageNcss => 0
    case ObjectNcss => 1
    case FunctionNcss => 2
    case _ => 3
  }

  /** The tables the options select, in their fixed order. */
  function Requested(options: set<string>): seq<Section> {
    (if "package" in options || "all" in options then [PackageNcss] else [])
    + (if "object" in options || "all" in options then [ObjectNcss] else [])
    + (if "function" in options || "all" in options then [FunctionNcss] else [])
  }

  /** The sections with a blank line between each two. */
  function Separated(sections: seq<Section>): seq<Section> {
    if |sections| <= 1 then sections else [sections[0], BlankLine] + Separated(sections[1..])
  }

  /** The report: start, the selected tables or else the summary, end. */
  function Layout(options: set<string>): seq<Section> {
    var tables := Requested(options);
    [Start] + (if tables == [] then [JavaNcss] else Separated(tables)) + [End]
  }

  /** The report for each of the eight combinations of selected tables. */
  lemma LayoutCases(options: set<string>)
    ensures var p := "package" in options || "all" in options;
      var o := "object" in options || "all" in options;
      var f := "function" in options || "all" in options;
      (p && o && f ==> Layout(options) == [Start, PackageNcss, BlankLine, ObjectNcss, BlankLine, FunctionNcss, End])
      && (p && o && !f ==> Layout(options) == [Start, PackageNcss, BlankLine, ObjectNcss, End])
      && (p && !o && f ==> Layout(options) == [Start, PackageNcss, BlankLine, FunctionNcss, End])
      && (p && !o && !f ==> Layout(options) == [Start, PackageNcss, End])
      && (!p && o && f ==> Layout(options) == [Start, ObjectNcss, BlankLine, FunctionNcss, End])
      && (!p && o && !f ==> Layout(options) == [Start, ObjectNcss, End])
      && (!p && !o && f ==> Layout(options) == [Start, FunctionNcss, End])
      && (!p && !o && !f ==> Layout(options) == [Start, JavaNcss, End])
  {
    var p := "package" in options || "all" in options;
    var o := "object" in options || "all" in options;
    var f := "function" in options || "all" in options;
    if p && o && f {
      assert Requested(options) == [PackageNcss, ObjectNcss, FunctionNcss];
      assert [PackageNcss, ObjectNcss, FunctionNcss][1..] == [ObjectNcss, FunctionNcss];
      assert [ObjectNcss, FunctionNcss][1..] == [FunctionNcss];
      assert Layout(options) == [Start, PackageNcss, BlankLine, ObjectNcss, BlankLine, FunctionNcss, End];
    } else if p && o && !f {
      assert Requested(options) == [PackageNcss, ObjectNcss];
      assert [PackageNcss, ObjectNcss][1..] == [ObjectNcss];
      assert Layout(options) == [Start, PackageNcss, BlankLine, ObjectNcss, End];
    } else if p && !o && f {
      assert Requested(options) == [PackageNcss, FunctionNcss];
      assert [PackageNcss, FunctionNcss][1..] == [FunctionNcss];
      assert Layout(options) == [Start, PackageNcss, BlankLine, FunctionNcss, End];
    } else if p && !o && !f {
      assert Layout(options) == [Start, PackageNcss, End];
    } else if !p && o && f {
      assert Requested(options) == [ObjectNcss, FunctionNcss];
      assert [ObjectNcss, FunctionNcss][1..] == [FunctionNcss];
      assert Layout(options) == [Start, ObjectNcss, BlankLine, FunctionNcss, End];
    } else if !p && o && !f {
      assert Layout(options) == [Start, ObjectNcss, End];
    } else if !p && !o && f {
      assert Layout(options) == [Start, FunctionNcss, End];
    } else {
      assert Layout(options) == [Start, JavaNcss, End];
    }
  }

  /** A report opens with Start and closes with End, which appear nowhere else. */
  lemma LayoutFrame(options: set<string>)
    ensures var out := Layout(options);
      && |out| >= 3 && out[0] == Start && out[|out| - 1] == End
      && forall i :: 0 < i < |out| - 1 ==> out[i] != Start && out[i] != End
  {
    LayoutCases(options);
  }

  /**
   * Each table appears exactly when its own option or `all` is set, and the
   * total-only summary appears exactly when no table does.
   */
  lemma LayoutSelection(options: set<string>)
    ensures var out := Layout(options);
      && (PackageNcss in out <==> "package" in options || "all" in options)
      && (ObjectNcss in out <==> "object" in options || "all" in options)
      && (FunctionNcss in out <==> "function" in options || "all" in options)
      && (JavaNcss in out <==> !("package" in options || "object" in options || "function" in options || "all" in options))
  {
    LayoutCases(options);
    var out := Layout(options);
    var p := "package" in options || "all" in options;
    var o := "object" in options || "all" in options;
    var f := "function" in options || "all" in options;
    if p && o && f {
      assert out[1] == PackageNcss && out[3] == ObjectNcss && out[5] == FunctionNcss;
    } else if p && o && !f {
      assert out[1] == PackageNcss && out[3] == ObjectNcss;
    } else if p && !o && f {
      assert out[1] == PackageNcss && out[3] == FunctionNcss;
    } else if p && !o && !f {
      assert out[1] == PackageNcss;
    } else if !p && o && f {
      assert out[1] == ObjectNcss && out[3] == FunctionNcss;
    } else if !p && o && !f {
      assert out[1] == ObjectNcss;
    } else if !p && !o && f {
      assert out[1] == FunctionNcss;
    } else {
      assert out[1] == JavaNcss;
    }
  }

  /** Tables come in package, object, function order. */
  lemma LayoutOrder(options: set<string>)
    ensures var out := Layout(options);
      forall i, j :: 0 <= i < j < |out| && IsTable(out[i]) && IsTable(out[j]) ==> Rank(out[i]) < Rank(out[j])
  {
    LayoutCases(options);
  }

  /** A blank line stands only between two tables, and between every two tables there is one. */
  lemma LayoutBlankLines(options: set<string>)
    ensures var out := Layout(options);
      && (forall i :: 0 <= i < |out| && out[i] == BlankLine ==> 0 < i < |out| - 1 && IsTable(out[i - 1]) && IsTable(out[i + 1]))
      && (forall i :: 0 <= i < |out| - 1 && IsTable(out[i]) ==> out[i + 1] == BlankLine || out[i + 1] == End)
  {
    LayoutCases(options);
  }
}
