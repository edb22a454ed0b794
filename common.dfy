/** Helpers of the Go package `common`. */
module Common {

  /** `In_List`: a linear search that stops at the first element equal to
      `needle`. Comparison is exact string equality (case-sensitive). */
  method InList(needle: string, haystack: seq<string>) returns (found: bool)
    ensures found <==> needle in haystack
  {
    for i := 0 to |haystack|
      invariant forall j :: 0 <= j < i ==> haystack[j] != needle
    {
      if haystack[i] == needle {
        return true;
      }
    }
    return false;
  }

  /** The answer depends only on which strings the list holds: reordering or
      repeating elements cannot change it. */
  lemma InListDependsOnlyOnElements(needle: string, a: seq<string>, b: seq<string>)
    requires (set x | x in a) == (set x | x in b)
    ensures needle in a <==> needle in b
  {
    var sa, sb := set x | x in a, set x | x in b;
    if needle in a {
      assert needle in sa;
      assert needle in sb;
    }
    if needle in b {
      assert needle in sb;
      assert needle in sa;
    }
  }

  /** The cases of the package's table test, as client checks of the contract. */
  method InListExamples()
  {
    var actions := ["monitor", "review", "train"];
    var r := InList("monitor", actions);
    assert actions[0] == "monitor";
    assert r;
    r := InList("wrongaction", actions);
    assert !r;
    r := InList("oops", []);
    assert !r;
    r := InList("MONITOR", actions);
    assert !r;
    r := InList("only", ["only"]);
    assert ["only"][0] == "only";
    assert r;
    r := InList("wrong", ["only"]);
    assert !r;
  }
}
