/**
 The string operations the client pages apply before matching or showing
 a name: lower-casing, substring search (`String.prototype.includes`) and
 replacing the first occurrence of a character (`replace` with a string
 pattern).
 */
module Text {

  /** Lower-cases an ASCII capital and leaves every other character alone. */
  function LowerChar(c: char): (d: char)
    ensures 'A' <= c <= 'Z' ==> 'a' <= d <= 'z' && d as int - c as int == 32
    ensures !('A' <= c <= 'Z') ==> d == c
  {
    if 'A' <= c <= 'Z' then (c as int + 32) as char else c
  }

  function ToLower(s: string): (r: string)
    ensures |r| == |s|
    ensures forall i :: 0 <= i < |s| ==> r[i] == LowerChar(s[i])
  {
    seq(|s|, i requires 0 <= i < |s| => LowerChar(s[i]))
  }

  /** Lower-casing twice is lower-casing once, and leaves no capital behind. */
  lemma ToLowerIdempotent(s: string)
    ensures ToLower(ToLower(s)) == ToLower(s)
    ensures forall i :: 0 <= i < |s| ==> !('A' <= ToLower(s)[i] <= 'Z')
  {
  }

  /** `s` has `t` as a contiguous part starting at position `i`. */
  predicate OccursAt(s: string, t: string, i: int)
  {
    0 <= i && i + |t| <= |s| && s[i..i + |t|] == t
  }

  /** `s.includes(t)`: `t` occurs somewhere in `s`, searched from the front. */
  function Contains(s: string, t: string): (b: bool)
    ensures b <==> exists i :: OccursAt(s, t, i)
    decreases |s|
  {
    if t <= s then
      assert OccursAt(s, t, 0);
      true
    else if |s| == 0 then
      assert forall i :: !OccursAt(s, t, i);
      false
    else
      var b := Contains(s[1..], t);
      ShiftOccurrence(s, t);
      b
  }

  /** An occurrence in `s` away from the front is an occurrence in `s[1..]`, one place earlier. */
  lemma ShiftOccurrence(s: string, t: string)
    requires |s| > 0 && !(t <= s)
    ensures (exists i :: OccursAt(s, t, i)) <==> (exists i :: OccursAt(s[1..], t, i))
  {
    if exists i :: OccursAt(s, t, i) {
      var i :| OccursAt(s, t, i);
      assert i != 0;
      assert s[1..][i - 1..i - 1 + |t|] == s[i..i + |t|];
      assert OccursAt(s[1..], t, i - 1);
    }
    if exists i :: OccursAt(s[1..], t, i) {
      var i :| OccursAt(s[1..], t, i);
      assert s[1..][i..i + |t|] == s[i + 1..i + 1 + |t|];
      assert OccursAt(s, t, i + 1);
    }
  }

  /** The position of the first `c` in `s`, or -1 when there is none (`indexOf`). */
  function IndexOf(s: string, c: char): (i: int)
    ensures -1 <= i < |s|
    ensures i >= 0 ==> s[i] == c && c !in s[..i]
    ensures i < 0 ==> c !in s
  {
    if |s| == 0 then -1
    else if s[0] == c then 0
    else
      var j := IndexOf(s[1..], c);
      assert s == [s[0]] + s[1..];
      if j < 0 then -1
      else
        assert s[..j + 1] == [s[0]] + s[1..][..j];
        j + 1
  }

  /** `s.replace(a, b)` for one-character strings: only the first `a` becomes `b`. */
  function ReplaceFirst(s: string, a: char, b: char): (r: string)
    ensures |r| == |s|
    ensures a !in s ==> r == s
    ensures a in s ==>
      var i := IndexOf(s, a);
      && r[i] == b
      && a !in r[..i]
      && r[..i] == s[..i]
      && r[i + 1..] == s[i + 1..]
  {
    var i := IndexOf(s, a);
    if i < 0 then s else s[..i] + [b] + s[i + 1..]
  }

  /** Only the first occurrence is replaced: a later one survives. */
  lemma ReplaceFirstKeepsLater()
    ensures ReplaceFirst("a_b_c", '_', ' ') == "a b_c"
  {
    assert IndexOf("a_b_c", '_') == 1 by {
      assert "a_b_c"[1..] == "_b_c";
    }
  }
}
