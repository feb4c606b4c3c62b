/** `argmax` over complex values: numpy compares complex numbers
    lexicographically (real part, then imaginary part) and returns the first
    index holding the greatest value. */
module Peak {
  import opened Complex
  import opened Outcome

  /** i holds a greatest value of s, and no earlier index holds one. */
  predicate IsFirstMax(s: seq<Complex>, i: int) {
    && 0 <= i < |s|
    && (forall j :: 0 <= j < |s| ==> LessEq(s[j], s[i]))
    && (forall j :: 0 <= j < i ==> Less(s[j], s[i]))
  }

  /** `s.argmax()`: scans left to right and moves only to a strictly greater
      value; an empty array is an error. */
  function ArgMax(s: seq<Complex>): (r: Result<nat>)
    ensures r.Failure? <==> s == []
    ensures r.Success? ==> IsFirstMax(s, r.value)
  {
    if s == [] then Failure(EmptyArray)
    else if |s| == 1 then Success(0)
    else
      var best := ArgMax(s[..|s| - 1]).value;
      if Less(s[best], s[|s| - 1]) then Success(|s| - 1) else Success(best)
  }

  /** The first greatest index is unique, so the tie-break is fully determined. */
  lemma FirstMaxUnique(s: seq<Complex>, i: int)
    requires IsFirstMax(s, i)
    ensures ArgMax(s) == Success(i)
  {
    var k := ArgMax(s).value;
    if k < i {
      assert Less(s[k], s[i]) && LessEq(s[i], s[k]);
      LessIsStrictTotalOrder(s[k], s[i], s[k]);
    } else if i < k {
      assert Less(s[i], s[k]) && LessEq(s[k], s[i]);
      LessIsStrictTotalOrder(s[i], s[k], s[i]);
    }
  }

  /** On a flat profile (every value equal) the first index wins. */
  lemma ArgMaxFlat(s: seq<Complex>)
    requires s != []
    requires forall j :: 0 <= j < |s| ==> s[j] == s[0]
    ensures ArgMax(s) == Success(0)
  {
    FirstMaxUnique(s, 0);
  }
}
