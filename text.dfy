/**
 * String helpers that mirror the Python expressions the core is built from:
 * `" ".join(parts)` and the concatenation of a list of strings.
 */
module Text {

  /** Python's `" ".join(parts)`: the parts in order, one space between neighbours. */
  function JoinWithSpace(parts: seq<string>): string
    decreases |parts|
  {
    if |parts| == 0 then ""
    else if |parts| == 1 then parts[0]
    else JoinWithSpace(parts[..|parts| - 1]) + " " + parts[|parts| - 1]
  }

  /** Index at which `parts[i]` begins in the joined string: every earlier part plus its separator. */
  function PartOffset(parts: seq<string>, i: nat): nat
    requires i <= |parts|
  {
    if i == 0 then 0 else PartOffset(parts, i - 1) + |parts[i - 1]| + 1
  }

  /** Offsets only depend on the parts before them. */
  lemma {:induction false} PartOffsetOfPrefix(parts: seq<string>, k: nat, i: nat)
    requires i <= k <= |parts|
    ensures PartOffset(parts[..k], i) == PartOffset(parts, i)
  {
    if i > 0 {
      PartOffsetOfPrefix(parts, k, i - 1);
      assert parts[..k][i - 1] == parts[i - 1];
    }
  }

  /** The joined string is as long as its parts plus one space between each neighbouring pair. */
  lemma {:induction false} JoinWithSpaceLength(parts: seq<string>)
    requires |parts| > 0
    ensures |JoinWithSpace(parts)| == PartOffset(parts, |parts|) - 1
    decreases |parts|
  {
    var n := |parts|;
    if n > 1 {
      JoinWithSpaceLength(parts[..n - 1]);
      PartOffsetOfPrefix(parts, n - 1, n - 1);
    }
  }

  /**
   * The layout of `" ".join(parts)`: part `i` sits unchanged at its offset and, unless it is
   * the last, exactly one space follows it. With JoinWithSpaceLength this accounts for every
   * character of the joined string.
   */
  lemma {:induction false} JoinWithSpacePart(parts: seq<string>, i: nat)
    requires i < |parts|
    ensures PartOffset(parts, i) + |parts[i]| <= |JoinWithSpace(parts)|
    ensures i < |parts| - 1 ==> PartOffset(parts, i) + |parts[i]| < |JoinWithSpace(parts)|
    ensures JoinWithSpace(parts)[PartOffset(parts, i)..PartOffset(parts, i) + |parts[i]|] == parts[i]
    ensures i < |parts| - 1 ==> JoinWithSpace(parts)[PartOffset(parts, i) + |parts[i]|] == ' '
    decreases |parts|
  {
    var n := |parts|;
    if n > 1 {
      var init := parts[..n - 1];
      var left := JoinWithSpace(init);
      var whole := JoinWithSpace(parts);
      JoinWithSpaceLength(init);
      PartOffsetOfPrefix(parts, n - 1, n - 1);
      assert |left| + 1 == PartOffset(parts, n - 1);
      if i < n - 1 {
        JoinWithSpacePart(init, i);
        PartOffsetOfPrefix(parts, n - 1, i);
        assert init[i] == parts[i];
        var a := PartOffset(parts, i);
        var b := a + |parts[i]|;
        assert whole[a..b] == left[a..b];
        if i < n - 2 {
          assert whole[b] == left[b];
        } else {
          PartOffsetOfPrefix(parts, n - 1, i + 1);
          assert b == |left|;
        }
      } else {
        assert whole[PartOffset(parts, i)..] == parts[i];
      }
    }
  }

  /** Concatenation of a list of strings, `"".join(pieces)`. */
  function Concat(pieces: seq<string>): string
    decreases |pieces|
  {
    if |pieces| == 0 then "" else Concat(pieces[..|pieces| - 1]) + pieces[|pieces| - 1]
  }
}
