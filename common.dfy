/** Shared vocabulary of every revision of the runner: the optional and
    fallible wrappers of Rust, and the code-plus-message error that the
    `err!`/`rerr!` macros build. */
module Common {

  datatype Option<+T> = None | Some(value: T)

  datatype Result<+T, +E> = Ok(value: T) | Err(error: E)

  /** The error of the `chord`/`common` crates: a short code and a message. */
  datatype Error = Error(code: string, message: string)

  /** `text.find(pattern).is_some()`: `pattern` occurs in `text` at some index. */
  predicate Contains(text: string, pattern: string)
  {
    exists i | 0 <= i <= |text| - |pattern| :: OccursAt(text, pattern, i)
  }

  /** `pattern` occurs in `text` starting at index `i`. */
  predicate OccursAt(text: string, pattern: string, i: int)
  {
    0 <= i <= |text| - |pattern| && text[i..i + |pattern|] == pattern
  }

  /** An occurrence inside a part is an occurrence inside the whole. */
  lemma ContainsInConcat(a: string, b: string, pattern: string)
    ensures Contains(a, pattern) ==> Contains(a + b, pattern)
    ensures Contains(b, pattern) ==> Contains(a + b, pattern)
  {
    if Contains(a, pattern) {
      var i :| 0 <= i <= |a| - |pattern| && OccursAt(a, pattern, i);
      assert (a + b)[i..i + |pattern|] == a[i..i + |pattern|];
      assert OccursAt(a + b, pattern, i);
    }
    if Contains(b, pattern) {
      var j :| 0 <= j <= |b| - |pattern| && OccursAt(b, pattern, j);
      var k := |a| + j;
      assert (a + b)[k..k + |pattern|] == b[j..j + |pattern|];
      assert OccursAt(a + b, pattern, k);
    }
  }

  /** The decimal digit `d`. */
  function DigitChar(d: nat): (c: char)
    requires d < 10
    ensures '0' <= c <= '9'
  {
    (48 + d) as char
  }

  /** `Display` of an unsigned integer: its decimal digits, most
      significant first, without leading zeros. */
  function NatText(n: nat): (s: string)
    ensures |s| >= 1
    ensures forall k :: 0 <= k < |s| ==> '0' <= s[k] <= '9'
    decreases n
  {
    if n < 10 then [DigitChar(n)] else NatText(n / 10) + [DigitChar(n % 10)]
  }

  /** Text joined at a separator that the left part never contains splits
      back into the same two parts. */
  lemma SplitAtSeparator(sep: char, a1: string, b1: string, a2: string, b2: string)
    requires sep !in a1 && sep !in a2
    requires a1 + [sep] + b1 == a2 + [sep] + b2
    ensures a1 == a2 && b1 == b2
  {
    var s := a1 + [sep] + b1;
    assert s[|a1|] == sep && s[|a2|] == sep;
    assert forall i :: 0 <= i < |a1| ==> s[i] == a1[i];
    assert forall i :: 0 <= i < |a2| ==> s[i] == a2[i];
    assert |a1| == |a2|;
    var s1, s2 := s, a2 + [sep] + b2;
    assert a1 == s1[..|a1|] == s2[..|a2|] == a2;
    assert b1 == s1[|a1| + 1..] == s2[|a2| + 1..] == b2;
  }
}
