/**
 * Case-sensitive substring containment, the test the plugin applies with
 * `str_contains` to the hardware description and to the box-type reply.
 */
module Substring {

  /** `needle` occurs in `hay` starting at position `i`. */
  ghost predicate OccursAt(needle: string, hay: string, i: int)
  {
    0 <= i && i + |needle| <= |hay| && hay[i..i + |needle|] == needle
  }

  /** Reference meaning of containment: some position of `hay` starts a copy of `needle`. */
  ghost predicate OccursIn(needle: string, hay: string)
  {
    exists i :: OccursAt(needle, hay, i)
  }

  /**
   * Executable containment test: try each start position of `hay` from the
   * left. Characters are compared exactly, so the test is case-sensitive.
   */
  function Contains(hay: string, needle: string): bool
    decreases |hay|
  {
    if |hay| < |needle| then false
    else if needle <= hay then true
    else Contains(hay[1..], needle)
  }

  /** The scan agrees with the reference meaning, in both directions. */
  lemma {:induction false} ContainsCorrect(hay: string, needle: string)
    ensures Contains(hay, needle) <==> OccursIn(needle, hay)
    decreases |hay|
  {
    if |hay| < |needle| {
      assert forall i :: !OccursAt(needle, hay, i);
    } else if needle <= hay {
      assert OccursAt(needle, hay, 0);
    } else {
      var tail := hay[1..];
      ContainsCorrect(tail, needle);
      if Contains(tail, needle) {
        var j :| OccursAt(needle, tail, j);
        var window, inTail := hay[j + 1..j + 1 + |needle|], tail[j..j + |needle|];
        assert forall t :: 0 <= t < |needle| ==> window[t] == inTail[t];
        assert window == inTail;
        assert OccursAt(needle, hay, j + 1);
      }
      if OccursIn(needle, hay) {
        var i :| OccursAt(needle, hay, i);
        assert i != 0;
        var window, inHay := tail[i - 1..i - 1 + |needle|], hay[i..i + |needle|];
        assert forall t :: 0 <= t < |needle| ==> window[t] == inHay[t];
        assert window == inHay;
        assert OccursAt(needle, tail, i - 1);
      }
    }
  }

  /** A needle holding a character that `hay` lacks does not occur in `hay`. */
  lemma AbsentChar(needle: string, hay: string, c: char)
    requires c in needle && c !in hay
    ensures !OccursIn(needle, hay)
    ensures !Contains(hay, needle)
  {
    ContainsCorrect(hay, needle);
  }
}
