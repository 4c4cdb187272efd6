/**
 * The few operations of java.lang.String that the batch layer relies on:
 * `trim()`, `compareTo` and `split("\n")`. A Java string is a sequence of
 * UTF-16 code units, a Dafny string one of Unicode scalar values; the two
 * agree on strings without surrogate code units, and only those are modelled.
 */
module JavaStrings {

  /** Removes leading characters whose code is at most U+0020. */
  function TrimStart(s: string): string {
    if s != [] && s[0] <= ' ' then TrimStart(s[1..]) else s
  }

  /** Removes trailing characters whose code is at most U+0020. */
  function TrimEnd(s: string): string {
    if s != [] && s[|s| - 1] <= ' ' then TrimEnd(s[..|s| - 1]) else s
  }

  /** `String.trim()`. */
  function Trim(s: string): string {
    TrimEnd(TrimStart(s))
  }

  /** `s.trim().length() == 0`. */
  predicate IsBlank(s: string) {
    |Trim(s)| == 0
  }

  /** A string is blank exactly when every one of its characters is a control character or a space. */
  lemma {:induction false} BlankIffAllSpace(s: string)
    ensures IsBlank(s) <==> forall i :: 0 <= i < |s| ==> s[i] <= ' '
  {
    TrimStartSpace(s);
    TrimEndEmpty(TrimStart(s));
  }

  lemma {:induction false} TrimStartSpace(s: string)
    ensures TrimStart(s) == [] <==> forall i :: 0 <= i < |s| ==> s[i] <= ' '
    ensures TrimStart(s) != [] ==> TrimStart(s)[0] > ' '
    decreases |s|
  {
    if s != [] && s[0] <= ' ' {
      TrimStartSpace(s[1..]);
      assert forall i :: 1 <= i < |s| ==> s[i] == s[1..][i - 1];
    }
  }

  lemma {:induction false} TrimEndEmpty(s: string)
    requires s != [] ==> s[0] > ' '
    ensures TrimEnd(s) == [] <==> s == []
    decreases |s|
  {
    if s != [] && s[|s| - 1] <= ' ' {
      assert |s| > 1;
      TrimEndEmpty(s[..|s| - 1]);
    }
  }

  /**
   * `a.compareTo(b)`: the difference of the first pair of differing code
   * units, or the difference of the lengths when one is a prefix of the other.
   */
  function Compare(a: string, b: string): int {
    if a == [] || b == [] then |a| - |b|
    else if a[0] != b[0] then a[0] as int - b[0] as int
    else Compare(a[1..], b[1..])
  }

  /** Comparing equal strings gives 0, and only equal strings compare as 0. */
  lemma {:induction false} CompareZeroIffEqual(a: string, b: string)
    ensures Compare(a, b) == 0 <==> a == b
  {
    if a != [] && b != [] && a[0] == b[0] {
      CompareZeroIffEqual(a[1..], b[1..]);
      assert a == [a[0]] + a[1..] && b == [b[0]] + b[1..];
    }
  }

  /** Swapping the operands negates the result. */
  lemma {:induction false} CompareAntisymmetric(a: string, b: string)
    ensures Compare(b, a) == -Compare(a, b)
  {
    if a != [] && b != [] && a[0] == b[0] {
      CompareAntisymmetric(a[1..], b[1..]);
    }
  }

  /** "compares at most" is transitive. */
  lemma {:induction false} CompareTransitive(a: string, b: string, c: string)
    requires Compare(a, b) <= 0 && Compare(b, c) <= 0
    ensures Compare(a, c) <= 0
  {
    if a != [] && b != [] && c != [] && a[0] == b[0] && b[0] == c[0] {
      CompareTransitive(a[1..], b[1..], c[1..]);
    }
  }

  /** `String.join("\n", pieces)`. */
  function JoinLines(pieces: seq<string>): string {
    if |pieces| == 0 then ""
    else if |pieces| == 1 then pieces[0]
    else JoinLines(pieces[..|pieces| - 1]) + "\n" + pieces[|pieces| - 1]
  }

  /** Every piece of `s` between line feeds, empty ones included. */
  function SplitAll(s: string): (r: seq<string>)
    ensures |r| >= 1
    ensures forall i :: 0 <= i < |r| ==> '\n' !in r[i]
  {
    if s == [] then [""]
    else
      var init := SplitAll(s[..|s| - 1]);
      var c := s[|s| - 1];
      if c == '\n' then init + [""]
      else init[..|init| - 1] + [init[|init| - 1] + [c]]
  }

  /** Drops the empty pieces at the end of `pieces`. */
  function DropTrailingEmpty(pieces: seq<string>): (r: seq<string>)
    ensures r <= pieces
    ensures r == [] || r[|r| - 1] != ""
    ensures forall i :: |r| <= i < |pieces| ==> pieces[i] == ""
  {
    if pieces != [] && pieces[|pieces| - 1] == "" then DropTrailingEmpty(pieces[..|pieces| - 1])
    else pieces
  }

  /**
   * `s.split("\n")`: the pieces between line feeds with trailing empty pieces
   * removed; a string without any line feed gives the one-element array holding it.
   */
  function Split(s: string): seq<string> {
    if '\n' !in s then [s] else DropTrailingEmpty(SplitAll(s))
  }

  /** Joining the pieces of `SplitAll` with line feeds gives the string back. */
  lemma {:induction false} SplitAllJoin(s: string)
    ensures JoinLines(SplitAll(s)) == s
  {
    if s != [] {
      var init := SplitAll(s[..|s| - 1]);
      SplitAllJoin(s[..|s| - 1]);
      var c := s[|s| - 1];
      if c != '\n' {
        var r := init[..|init| - 1] + [init[|init| - 1] + [c]];
        assert r[..|r| - 1] == init[..|init| - 1];
        if |init| > 1 {
          assert JoinLines(init) == JoinLines(init[..|init| - 1]) + "\n" + init[|init| - 1];
        }
      } else {
        assert (init + [""])[..|init|] == init;
      }
      assert s == s[..|s| - 1] + [c];
    }
  }

  lemma {:induction false} DropTrailingEmptyJoin(pieces: seq<string>)
    ensures JoinLines(DropTrailingEmpty(pieces)) <= JoinLines(pieces)
    ensures forall i :: |JoinLines(DropTrailingEmpty(pieces))| <= i < |JoinLines(pieces)| ==> JoinLines(pieces)[i] == '\n'
  {
    if pieces != [] && pieces[|pieces| - 1] == "" {
      DropTrailingEmptyJoin(pieces[..|pieces| - 1]);
    }
  }

  /**
   * What `split("\n")` returns: pieces free of line feeds that, joined by line
   * feeds, give `s` up to the trailing line feeds it dropped; and the last
   * piece is never empty unless `s` itself is.
   */
  lemma SplitSpec(s: string)
    ensures forall i :: 0 <= i < |Split(s)| ==> '\n' !in Split(s)[i]
    ensures JoinLines(Split(s)) <= s
    ensures forall i :: |JoinLines(Split(s))| <= i < |s| ==> s[i] == '\n'
    ensures s != [] ==> Split(s) == [] || Split(s)[|Split(s)| - 1] != ""
    ensures '\n' !in s ==> Split(s) == [s]
  {
    if '\n' in s {
      SplitAllJoin(s);
      DropTrailingEmptyJoin(SplitAll(s));
    }
  }
}
