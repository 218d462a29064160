/**
 * The two string services of the .NET base library that the task-list filter relies on:
 * `string.IsNullOrWhiteSpace` and `string.Contains(value, StringComparison.OrdinalIgnoreCase)`.
 * Case-insensitive ordinal comparison is modelled by a per-character fold to upper case over
 * ASCII letters; white space is the exact set of code points `char.IsWhiteSpace` accepts.
 */
module Text {
  import opened Wrappers

  /** `char.IsWhiteSpace`: the Unicode separators (Zs, Zl, Zp) plus U+0009..U+000D and U+0085. */
  predicate IsWhiteSpace(c: char)
  {
    var n := c as int;
    (0x09 <= n <= 0x0D) || n == 0x20 || n == 0x85 || n == 0xA0 || n == 0x1680
    || (0x2000 <= n <= 0x200A) || n == 0x2028 || n == 0x2029 || n == 0x202F
    || n == 0x205F || n == 0x3000
  }

  /** `string.IsNullOrWhiteSpace`: absent, empty, or made of white space only. */
  predicate IsNullOrWhiteSpace(s: Option<string>)
  {
    s.None? || forall i :: 0 <= i < |s.value| ==> IsWhiteSpace(s.value[i])
  }

  /** The case fold under which ordinal-ignore-case comparison identifies two characters. */
  function ToUpper(c: char): (r: char)
    ensures !('a' <= r <= 'z')
    ensures r == c || ('a' <= c <= 'z' && r as int == c as int - 32)
    ensures IsWhiteSpace(r) <==> IsWhiteSpace(c)
  {
    if 'a' <= c <= 'z' then (c as int - 32) as char else c
  }

  function ToUpperString(s: string): (r: string)
    ensures |r| == |s|
  {
    seq(|s|, i requires 0 <= i < |s| => ToUpper(s[i]))
  }

  /** `p` matches the first |p| characters of `s`, ignoring case. */
  predicate StartsWithIgnoreCase(s: string, p: string)
  {
    |p| <= |s| && forall j :: 0 <= j < |p| ==> ToUpper(s[j]) == ToUpper(p[j])
  }

  /** `s.Contains(p, StringComparison.OrdinalIgnoreCase)`: a scan over the start positions of `s`. */
  predicate ContainsIgnoreCase(s: string, p: string)
    decreases |s|
  {
    StartsWithIgnoreCase(s, p) || (|s| > 0 && ContainsIgnoreCase(s[1..], p))
  }

  /** The scan agrees with the definition of a substring: some start position carries `p`. */
  lemma {:induction false} ContainsIgnoreCaseIffOccurs(s: string, p: string)
    ensures ContainsIgnoreCase(s, p) <==> exists i :: 0 <= i <= |s| && StartsWithIgnoreCase(s[i..], p)
    decreases |s|
  {
    if ContainsIgnoreCase(s, p) {
      if StartsWithIgnoreCase(s, p) {
        assert s[0..] == s;
      } else {
        ContainsIgnoreCaseIffOccurs(s[1..], p);
        var i :| 0 <= i <= |s[1..]| && StartsWithIgnoreCase(s[1..][i..], p);
        assert s[1..][i..] == s[i + 1..];
      }
    }
    if exists i :: 0 <= i <= |s| && StartsWithIgnoreCase(s[i..], p) {
      var i :| 0 <= i <= |s| && StartsWithIgnoreCase(s[i..], p);
      if i == 0 {
        assert s[0..] == s;
      } else {
        assert s[1..][i - 1..] == s[i..];
        ContainsIgnoreCaseIffOccurs(s[1..], p);
      }
    }
  }

  /** The answer depends on the pattern only through its case fold: "WPF" and "wpf" find the same texts. */
  lemma {:induction false} ContainsIgnoresPatternCase(s: string, p: string, q: string)
    requires ToUpperString(p) == ToUpperString(q)
    ensures ContainsIgnoreCase(s, p) == ContainsIgnoreCase(s, q)
    decreases |s|
  {
    assert |p| == |q|;
    forall j | 0 <= j < |p|
      ensures ToUpper(p[j]) == ToUpper(q[j])
    {
      assert ToUpperString(p)[j] == ToUpperString(q)[j];
    }
    assert StartsWithIgnoreCase(s, p) == StartsWithIgnoreCase(s, q);
    if |s| > 0 {
      ContainsIgnoresPatternCase(s[1..], p, q);
    }
  }

  /** The answer depends on the searched text only through its case fold. */
  lemma {:induction false} ContainsIgnoresTextCase(s: string, t: string, p: string)
    requires ToUpperString(s) == ToUpperString(t)
    ensures ContainsIgnoreCase(s, p) == ContainsIgnoreCase(t, p)
    decreases |s|
  {
    assert |s| == |t|;
    forall j | 0 <= j < |s|
      ensures ToUpper(s[j]) == ToUpper(t[j])
    {
      assert ToUpperString(s)[j] == ToUpperString(t)[j];
    }
    assert StartsWithIgnoreCase(s, p) == StartsWithIgnoreCase(t, p);
    if |s| > 0 {
      assert ToUpperString(s[1..]) == ToUpperString(t[1..]);
      ContainsIgnoresTextCase(s[1..], t[1..], p);
    }
  }

  /** Two patterns with the same case fold are blank together or not at all. */
  lemma BlankIgnoresCase(p: string, q: string)
    requires ToUpperString(p) == ToUpperString(q)
    ensures IsNullOrWhiteSpace(Some(p)) == IsNullOrWhiteSpace(Some(q))
  {
    forall j | 0 <= j < |p|
      ensures IsWhiteSpace(p[j]) == IsWhiteSpace(q[j])
    {
      assert ToUpperString(p)[j] == ToUpperString(q)[j];
    }
  }
}
