/** The string-level traversal check both nodes apply before their side effect:
    `value.includes("..")`. It is a substring test, not a containment check on a
    canonical path. */
module Guard {

  /** The parent-directory token the nodes refuse. */
  const Traversal: string := ".."

  /** `sub` occurs in `s` starting at index `i`. */
  predicate OccursAt(s: string, sub: string, i: int) {
    0 <= i <= |s| - |sub| && s[i..i + |sub|] == sub
  }

  /** JavaScript's `s.includes(sub)`: does `sub` occur in `s` at some position?
      (`sub == ""` occurs everywhere, as in JavaScript.) */
  function Includes(s: string, sub: string): (found: bool)
    ensures found <==> exists i :: OccursAt(s, sub, i)
    decreases |s|
  {
    if |s| < |sub| then false
    else if OccursAt(s, sub, 0) then true
    else
      OccurrencesShift(s, sub);
      Includes(s[1..], sub)
  }

  /** `s.includes("..")`: two adjacent dots anywhere in `s`. */
  function ContainsTraversal(s: string): (found: bool)
    ensures found <==> exists i :: 0 <= i < |s| - 1 && s[i] == '.' && s[i + 1] == '.'
  {
    TraversalOccurrences(s);
    Includes(s, Traversal)
  }

  /** When `sub` does not start `s`, it occurs in `s` exactly when it occurs in the tail. */
  lemma OccurrencesShift(s: string, sub: string)
    requires |s| > 0 && !OccursAt(s, sub, 0)
    ensures (exists i :: OccursAt(s, sub, i)) <==> (exists j :: OccursAt(s[1..], sub, j))
  {
    if i :| OccursAt(s, sub, i) {
      assert s[1..][i - 1..i - 1 + |sub|] == s[i..i + |sub|];
      assert OccursAt(s[1..], sub, i - 1);
    }
    if j :| OccursAt(s[1..], sub, j) {
      assert s[1..][j..j + |sub|] == s[j + 1..j + 1 + |sub|];
      assert OccursAt(s, sub, j + 1);
    }
  }

  /** An occurrence of `..` is a pair of adjacent dots. */
  lemma TraversalOccurrences(s: string)
    ensures (exists i :: OccursAt(s, Traversal, i)) <==> (exists i :: 0 <= i < |s| - 1 && s[i] == '.' && s[i + 1] == '.')
  {
    if i :| 0 <= i < |s| - 1 && s[i] == '.' && s[i + 1] == '.' {
      assert s[i..i + 2] == [s[i], s[i + 1]];
      assert OccursAt(s, Traversal, i);
    }
    if i :| OccursAt(s, Traversal, i) {
      assert s[i] == s[i..i + 2][0] && s[i + 1] == s[i..i + 2][1];
    }
  }

  /** A traversal cannot be hidden by surrounding text: whatever is put before
      or after a refused value, the result is refused too. */
  lemma {:induction false} TraversalSurvivesConcatenation(prefix: string, s: string, suffix: string)
    requires ContainsTraversal(s)
    ensures ContainsTraversal(prefix + s + suffix)
  {
    var i :| 0 <= i < |s| - 1 && s[i] == '.' && s[i + 1] == '.';
    var t := prefix + s + suffix;
    assert t[|prefix| + i] == s[i] && t[|prefix| + i + 1] == s[i + 1];
  }

  /** The check is coarse in both directions: an absolute path and single-dot
      segments pass it, while a file name with two dots in a row is refused. */
  lemma GuardIsStringLevel()
    ensures !ContainsTraversal("/etc/passwd")
    ensures !ContainsTraversal("./src/./index.ts")
    ensures ContainsTraversal("notes..txt")
  {
    var etc := "/etc/passwd";
    assert forall i :: 0 <= i < |etc| ==> etc[i] != '.';
    var src := "./src/./index.ts";
    assert forall i :: 0 <= i < |src| - 1 ==> src[i] != '.' || src[i + 1] != '.';
    var notes := "notes..txt";
    assert notes[5] == '.' && notes[6] == '.';
  }
}
