/** The metrics the parser gathers for one method, constructor or block-bodied lambda. */
module FunctionMetrics {
  import JavaStrings

  /** The name of a metric nobody has filled in yet. */
  const DefaultName: string := "."

  /**
   * A mutable record: the parser fills its public fields in place and
   * recycles it with `Clear`.
   */
  class FunctionMetric {
    var name: string
    var ncss: int
    var ccn: int
    var javadocs: int
    var javadocsLn: int
    var singleLn: int
    var multiLn: int

    /** Every field holds the value a fresh instance starts with. */
    predicate IsDefault()
      reads this
    {
      && name == DefaultName
      && ncss == 0 && ccn == 0
      && javadocs == 0 && javadocsLn == 0
      && singleLn == 0 && multiLn == 0
    }

    constructor ()
      ensures IsDefault()
    {
      name := DefaultName;
      ncss, ccn := 0, 0;
      javadocs, javadocsLn := 0, 0;
      singleLn, multiLn := 0, 0;
    }

    /**
     * Resets every field to its initial value. The new state does not depend
     * on the old one, so clearing twice leaves what clearing once leaves.
     */
    method Clear()
      modifies this
      ensures IsDefault()
    {
      name := DefaultName;
      ncss := 0;
      ccn := 0;
      javadocs := 0;
      javadocsLn := 0;
      singleLn := 0;
      multiLn := 0;
    }

    /** `toString()`: the metric prints as its name. */
    function ToString(): (r: string)
      reads this
      ensures r == name
    {
      name
    }

    /** `compareTo`: metrics are ordered by name alone. */
    function CompareTo(other: FunctionMetric): (r: int)
      reads this, other
      ensures r == 0 <==> name == other.name
      ensures r == -JavaStrings.Compare(other.name, name)
    {
      JavaStrings.CompareZeroIffEqual(name, other.name);
      JavaStrings.CompareAntisymmetric(other.name, name);
      JavaStrings.Compare(name, other.name)
    }
  }

  /** `compareTo` looks at the names only: metrics of equal names compare as 0 whatever their counts. */
  lemma CompareToByName(a: FunctionMetric, b: FunctionMetric, c: FunctionMetric)
    requires a.name == b.name
    ensures a.CompareTo(c) == b.CompareTo(c) && a.CompareTo(b) == 0
  {
  }
}
