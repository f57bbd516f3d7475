/**
 * The few operations of Python 2 byte strings that the policy daemon uses:
 * `c in s`, `s.split(c, 1)`, `s.lower()` and the `<` comparison that
 * `sorted` applies to plugin names. Strings are `seq<char>`, one character
 * per byte.
 */
module Text {

  /** Index of the first occurrence of `c` in `s`, or `|s|` when `c` does not occur. */
  function FindFirst(s: string, c: char): (i: nat)
    ensures i <= |s|
    ensures i < |s| <==> c in s
    ensures i < |s| ==> s[i] == c
    ensures c !in s[..i]
  {
    if s == [] then 0
    else if s[0] == c then 0
    else
      var j := FindFirst(s[1..], c);
      assert s == [s[0]] + s[1..];
      assert s[..j + 1] == [s[0]] + s[1..][..j];
      j + 1
  }

  /** `s.split(c, 1)` on a string that contains `c`: the text before the first `c` and the text after it. */
  function SplitFirst(s: string, c: char): (parts: (string, string))
    requires c in s
    ensures s == parts.0 + [c] + parts.1
    ensures c !in parts.0
  {
    var i := FindFirst(s, c);
    assert s == s[..i] + [c] + s[i + 1..];
    (s[..i], s[i + 1..])
  }

  /** Splitting at the first `c` undoes joining with `c`, whatever `c`s the tail holds. */
  lemma SplitFirstOfJoin(head: string, c: char, tail: string)
    requires c !in head
    ensures c in head + [c] + tail
    ensures SplitFirst(head + [c] + tail, c) == (head, tail)
  {
    var s := head + [c] + tail;
    assert s[|head|] == c;
    var i := FindFirst(s, c);
    assert i == |head|;
    assert s[..i] == head;
    assert s[i + 1..] == tail;
  }

  /** Python 2's `str.lower()` on one byte: only the ASCII capitals change. */
  function LowerChar(ch: char): char
  {
    if 'A' <= ch <= 'Z' then (ch as int + 32) as char else ch
  }

  predicate IsUpper(ch: char)
  {
    'A' <= ch <= 'Z'
  }

  /** Python 2's `str.lower()`. */
  function Lower(s: string): (r: string)
    ensures |r| == |s|
    ensures forall i :: 0 <= i < |s| ==> r[i] == LowerChar(s[i])
  {
    seq(|s|, i requires 0 <= i < |s| => LowerChar(s[i]))
  }

  /** Lower-casing leaves no capital behind and a second pass changes nothing. */
  lemma LowerNormalises(s: string)
    ensures forall i :: 0 <= i < |s| ==> !IsUpper(Lower(s)[i])
    ensures Lower(Lower(s)) == Lower(s)
  {
  }

  /**
   * Python 2's `a < b` on byte strings: the first differing byte decides,
   * and a proper prefix comes first.
   */
  predicate Below(a: string, b: string)
  {
    if b == [] then false
    else if a == [] then true
    else if a[0] != b[0] then a[0] < b[0]
    else Below(a[1..], b[1..])
  }

  lemma {:induction false} BelowIrreflexive(a: string)
    ensures !Below(a, a)
  {
    if a != [] {
      BelowIrreflexive(a[1..]);
    }
  }

  lemma {:induction false} BelowTransitive(a: string, b: string, c: string)
    requires Below(a, b) && Below(b, c)
    ensures Below(a, c)
  {
    if a != [] && a[0] == b[0] && b[0] == c[0] {
      BelowTransitive(a[1..], b[1..], c[1..]);
    }
  }

  /** Any two different strings are ordered one way or the other. */
  lemma {:induction false} BelowTotal(a: string, b: string)
    ensures a == b || Below(a, b) || Below(b, a)
  {
    if a != [] && b != [] && a[0] == b[0] {
      BelowTotal(a[1..], b[1..]);
      if a[1..] == b[1..] {
        assert a == [a[0]] + a[1..] && b == [b[0]] + b[1..];
      }
    }
  }

  predicate StartsWith(s: string, prefix: string)
  {
    |prefix| <= |s| && s[..|prefix|] == prefix
  }

  predicate EndsWith(s: string, suffix: string)
  {
    |suffix| <= |s| && s[|s| - |suffix|..] == suffix
  }
}
