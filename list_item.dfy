/** The shortened description of a search result (`components/listItem.jsx`). */
module ListItem {

  /** The longest description shown unshortened. */
  const MAX_DESCRIPTION := 500

  /** `s.lastIndexOf(c)`: the last position of `c`, or -1. */
  function LastIndexOf(s: string, c: char): (k: int)
    ensures -1 <= k < |s|
    ensures k == -1 <==> c !in s
    ensures k >= 0 ==> s[k] == c
    ensures forall j :: k < j < |s| ==> s[j] != c
  {
    if s == [] then -1
    else if s[|s| - 1] == c then |s| - 1
    else LastIndexOf(s[..|s| - 1], c)
  }

  /** `trimmed.substr(0, n)`: a negative length gives the empty string. */
  function Substr(s: string, n: int): (r: string)
    ensures r <= s
    ensures n <= 0 ==> r == ""
    ensures 0 <= n <= |s| ==> |r| == n
  {
    if n <= 0 then "" else if n >= |s| then s else s[..n]
  }

  /** `shortDescription(string)`: a description longer than 500 characters
      is cut at the last space among its first 499 characters and marked
      with `...`; with no such space only the mark remains. */
  function ShortDescription(s: string): (r: string)
    ensures |s| <= MAX_DESCRIPTION ==> r == s
    ensures |s| > MAX_DESCRIPTION ==> 3 <= |r| <= 501 && r[|r| - 3..] == "..."
    ensures |s| > MAX_DESCRIPTION ==> r[..|r| - 3] == s[..|r| - 3]
    ensures |s| > MAX_DESCRIPTION && |r| > 3 ==> s[|r| - 3] == ' '
    ensures |s| > MAX_DESCRIPTION ==> forall j :: |r| - 3 < j < 499 ==> s[j] != ' '
    ensures |s| > MAX_DESCRIPTION && ' ' !in s[..499] ==> r == "..."
  {
    if |s| > MAX_DESCRIPTION then
      var trimmed := s[..499];
      var k := LastIndexOf(trimmed, ' ');
      var kept := Substr(trimmed, if |trimmed| < k then |trimmed| else k);
      assert kept == if k <= 0 then "" else trimmed[..k];
      assert forall j :: k < j < 499 ==> s[j] == trimmed[j];
      var r := kept + "...";
      assert r[..|r| - 3] == kept && r[|r| - 3..] == "...";
      r
    else s
  }

  /** A description with a space at position 100 of its first 499 characters,
      and none after it, keeps its first 100 characters. */
  lemma CutAtLastSpace(s: string)
    requires |s| > MAX_DESCRIPTION && s[100] == ' '
    requires forall j :: 100 < j < 499 ==> s[j] != ' '
    ensures ShortDescription(s) == s[..100] + "..."
  {
    var r := ShortDescription(s);
    assert |r| - 3 == 100 by {
      if |r| - 3 < 100 {
        assert false;
      } else if |r| - 3 > 100 {
        assert false;
      }
    }
    assert r == r[..|r| - 3] + r[|r| - 3..];
  }
}
