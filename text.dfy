/**
 * The two string primitives the lead policies rely on: Python's substring
 * test `needle in hay` and `str.lower()`.
 */
module Text {

  /** `needle` starts at position `i` of `hay`. */
  ghost predicate OccursAt(hay: string, needle: string, i: int)
  {
    0 <= i && i + |needle| <= |hay| && hay[i..i + |needle|] == needle
  }

  /** Python's `needle in hay` on strings: `hay` is scanned from the left for a
      position where `needle` is a prefix of what remains. */
  predicate Contains(hay: string, needle: string)
    ensures Contains(hay, needle) ==> |needle| <= |hay|
    ensures needle == [] ==> Contains(hay, needle)
    decreases |hay|
  {
    needle <= hay || (|hay| > 0 && Contains(hay[1..], needle))
  }

  /** When the scan succeeds, `needle` occurs at some position of `hay`. */
  lemma {:induction false} ContainsOccurs(hay: string, needle: string) returns (i: int)
    requires Contains(hay, needle)
    ensures OccursAt(hay, needle, i)
    decreases |hay|
  {
    if needle <= hay {
      i := 0;
    } else {
      var j := ContainsOccurs(hay[1..], needle);
      assert hay[1..][j..j + |needle|] == hay[j + 1..j + 1 + |needle|];
      i := j + 1;
    }
  }

  /** When `needle` occurs at position `i`, the scan finds it. */
  lemma {:induction false} OccursContains(hay: string, needle: string, i: int)
    requires OccursAt(hay, needle, i)
    ensures Contains(hay, needle)
    decreases i
  {
    if i > 0 {
      assert hay[1..][i - 1..i - 1 + |needle|] == hay[i..i + |needle|];
      OccursContains(hay[1..], needle, i - 1);
    }
  }

  /** The scan finds `needle` exactly when `needle` occurs at some position. */
  lemma ContainsIff(hay: string, needle: string)
    ensures Contains(hay, needle) <==> exists i :: OccursAt(hay, needle, i)
  {
    if Contains(hay, needle) {
      var i := ContainsOccurs(hay, needle);
    }
    if i :| OccursAt(hay, needle, i) {
      OccursContains(hay, needle, i);
    }
  }

  /** A string that contains a non-empty needle contains the needle's first character. */
  lemma ContainsFirstChar(hay: string, needle: string)
    requires |needle| > 0 && Contains(hay, needle)
    ensures needle[0] in hay
  {
    var i := ContainsOccurs(hay, needle);
    assert hay[i] == hay[i..i + |needle|][0];
  }

  /** A string contains every string it ends with. */
  lemma {:induction false} ContainsSuffix(front: string, back: string)
    ensures Contains(front + back, back)
    decreases |front|
  {
    if front == [] {
      assert front + back == back;
    } else {
      assert (front + back)[1..] == front[1..] + back;
      ContainsSuffix(front[1..], back);
    }
  }

  /** Appending to a string keeps everything it contained. */
  lemma {:induction false} ContainsExtend(hay: string, more: string, needle: string)
    requires Contains(hay, needle)
    ensures Contains(hay + more, needle)
    decreases |hay|
  {
    if needle <= hay {
      assert (hay + more)[..|needle|] == hay[..|needle|];
    } else {
      assert (hay + more)[1..] == hay[1..] + more;
      ContainsExtend(hay[1..], more, needle);
    }
  }

  /** No letter A..Z occurs in `s`. */
  predicate NoUpper(s: string)
  {
    forall i :: 0 <= i < |s| ==> !('A' <= s[i] <= 'Z')
  }

  /** `str.lower()` on one character, for the ASCII letters A..Z. */
  function LowerChar(c: char): (r: char)
    ensures 'A' <= c <= 'Z' ==> r as int == c as int + 32
    ensures !('A' <= c <= 'Z') ==> r == c
    ensures !('A' <= r <= 'Z')
  {
    if 'A' <= c <= 'Z' then (c as int + 32) as char else c
  }

  /** `str.lower()`: every character lowered, length kept. */
  function Lower(s: string): (r: string)
    ensures |r| == |s|
    ensures forall i :: 0 <= i < |s| ==> r[i] == LowerChar(s[i])
    ensures NoUpper(r)
  {
    seq(|s|, i requires 0 <= i < |s| => LowerChar(s[i]))
  }

  /** Lowering a string that has no upper-case letter leaves it as it is. */
  lemma LowerNoUpper(s: string)
    requires NoUpper(s)
    ensures Lower(s) == s
  {
    assert forall i :: 0 <= i < |s| ==> Lower(s)[i] == s[i];
  }
}
