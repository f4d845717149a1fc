/** The password buffer: Space appends the committed character and
    Backspace removes the last one with JavaScript's `slice(0, -1)`. */
module Password {

  /** JavaScript's String.prototype.slice for integer arguments: a negative
      bound counts from the end, bounds are clamped to [0, |s|], and a
      bound pair out of order gives the empty string. */
  function Slice(s: string, start: int, end: int): (r: string)
    ensures |r| <= |s|
    ensures 0 <= start <= end <= |s| ==> r == s[start..end]
    ensures -|s| <= end < 0 && 0 <= start <= |s| + end ==> r == s[start..|s| + end]
    ensures start < 0 && -|s| <= start && |s| + start <= end <= |s| ==> r == s[|s| + start..end]
    ensures 0 <= end <= start || end < -|s| ==> r == []
    ensures 0 <= start && end < 0 && |s| + end <= start ==> r == []
  {
    var from := if start < 0 then Max(|s| + start, 0) else Min(start, |s|);
    var to := if end < 0 then Max(|s| + end, 0) else Min(end, |s|);
    if to <= from then "" else s[from..to]
  }

  function Max(a: int, b: int): int { if a < b then b else a }
  function Min(a: int, b: int): int { if a < b then a else b }

  /** The buffer with a character committed. */
  function Commit(s: string, c: char): (r: string)
    ensures |r| == |s| + 1 && r[..|s|] == s && r[|s|] == c
  {
    s + [c]
  }

  /** The buffer after Backspace. */
  function Backspace(s: string): (r: string)
    ensures s == [] ==> r == []
    ensures s != [] ==> |r| == |s| - 1 && r + [s[|s| - 1]] == s
  {
    Slice(s, 0, -1)
  }

  /** Backspace undoes the latest commit. */
  lemma BackspaceUndoesCommit(s: string, c: char)
    ensures Backspace(Commit(s, c)) == s
  {
    var t := Commit(s, c);
    assert t[..|s|] == s;
  }

  /** The buffer after Backspace is pressed `n` times in a row. */
  function BackspaceTimes(s: string, n: nat): string
    decreases n
  {
    if n == 0 then s else BackspaceTimes(Backspace(s), n - 1)
  }

  /** Backspace pressed `n` times removes the last `n` characters, and
      empties the buffer when pressed at least as often as it is long. */
  lemma {:induction false} RepeatedBackspace(s: string, n: nat)
    ensures n <= |s| ==> BackspaceTimes(s, n) == s[..|s| - n]
    ensures n >= |s| ==> BackspaceTimes(s, n) == []
    decreases n
  {
    if n > 0 {
      RepeatedBackspace(Backspace(s), n - 1);
      if s != [] {
        assert Backspace(s) == s[..|s| - 1];
        assert n <= |s| ==> s[..|s| - 1][..|s| - 1 - (n - 1)] == s[..|s| - n];
      }
    }
  }
}
