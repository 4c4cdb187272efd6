/**
 * The type- and package-level records the parser hands to the batch layer.
 * Both are values here: the batch layer never changes an object metric, and
 * it changes a package metric only by renaming it and adding another one to it.
 */
module Metrics {
  import opened Wrappers
  import JavaStrings

  /** The metrics of one class, interface, enum or annotation type. */
  datatype ObjectMetric = ObjectMetric(
    name: string, ncss: int, functions: int, classes: int,
    javadocs: int, javadocsLn: int, singleLn: int, multiLn: int)

  /** The totals of one package. */
  datatype PackageMetric = PackageMetric(name: string, classes: int, functions: int, ncss: int)

  /**
   * `next.add(previous)`: adds the counts of `previous` to those of `next`,
   * keeping the name of `next`; a missing previous entry adds nothing.
   */
  function Add(next: PackageMetric, previous: Option<PackageMetric>): (r: PackageMetric)
    ensures r.name == next.name
    ensures previous.None? ==> r == next
  {
    match previous
    case None => next
    case Some(p) => next.(classes := next.classes + p.classes,
                          functions := next.functions + p.functions,
                          ncss := next.ncss + p.ncss)
  }

  /** Adding is commutative on the counts. */
  lemma AddCommutative(a: PackageMetric, b: PackageMetric)
    ensures Add(a, Some(b)) == Add(b, Some(a)).(name := a.name)
  {
  }

  /** Adding is associative. */
  lemma AddAssociative(a: PackageMetric, b: PackageMetric, c: PackageMetric)
    ensures Add(Add(a, Some(b)), Some(c)) == Add(a, Some(Add(b, Some(c))))
  {
  }

  /** Package metrics are ordered by name. */
  predicate NameAtMost(p: PackageMetric, q: PackageMetric) {
    JavaStrings.Compare(p.name, q.name) <= 0
  }

  /** Every metric's name is at most every later one's. */
  predicate SortedByName(s: seq<PackageMetric>) {
    forall i, j :: 0 <= i < j < |s| ==> NameAtMost(s[i], s[j])
  }

  /** Inserts `p` into the name-sorted `s` after every metric whose name is not greater. */
  function InsertByName(p: PackageMetric, s: seq<PackageMetric>): (r: seq<PackageMetric>)
    requires SortedByName(s)
    ensures multiset(r) == multiset(s) + multiset{p}
    ensures SortedByName(r)
  {
    if s == [] then [p]
    else if NameAtMost(s[0], p) then
      var rest := InsertByName(p, s[1..]);
      HeadBelowInsert(p, s, rest);
      assert s == [s[0]] + s[1..];
      [s[0]] + rest
    else
      JavaStrings.CompareAntisymmetric(s[0].name, p.name);
      forall j | 0 <= j < |s| ensures NameAtMost(p, s[j]) {
        if j > 0 { JavaStrings.CompareTransitive(p.name, s[0].name, s[j].name); }
      }
      [p] + s
  }

  /** The head of a sorted list stays below everything inserted after it. */
  lemma HeadBelowInsert(p: PackageMetric, s: seq<PackageMetric>, rest: seq<PackageMetric>)
    requires s != [] && SortedByName(s) && NameAtMost(s[0], p)
    requires multiset(rest) == multiset(s[1..]) + multiset{p}
    requires SortedByName(rest)
    ensures SortedByName([s[0]] + rest)
  {
    forall j | 0 <= j < |rest| ensures NameAtMost(s[0], rest[j]) {
      assert rest[j] in multiset(rest);
      if rest[j] != p {
        assert rest[j] in multiset(s[1..]);
        var k :| 0 <= k < |s[1..]| && s[1..][k] == rest[j];
        assert s[k + 1] == rest[j];
      }
    }
  }

  /** `Collections.sort`: a name-sorted permutation of `s`. */
  method SortByName(s: seq<PackageMetric>) returns (r: seq<PackageMetric>)
    ensures multiset(r) == multiset(s)
    ensures SortedByName(r)
  {
    r := [];
    var i := 0;
    while i < |s|
      invariant 0 <= i <= |s|
      invariant multiset(r) == multiset(s[..i])
      invariant SortedByName(r)
    {
      r := InsertByName(s[i], r);
      assert s[..i + 1] == s[..i] + [s[i]];
      i := i + 1;
    }
    assert s[..|s|] == s;
  }
}
