/**
 * Python's `str.strip()` and `str.lower()` as the scanner and the command
 * listener apply them to console input.
 */
module Text {

  /**
   * The characters Python's `str.isspace()` accepts, which are the ones a
   * bare `strip()` removes: U+0009..U+000D, U+001C..U+0020, U+0085, U+00A0,
   * U+1680, U+2000..U+200A, U+2028, U+2029, U+202F, U+205F and U+3000.
   */
  predicate IsSpace(c: char) {
    var n := c as int;
    (9 <= n <= 13) || (28 <= n <= 32) || n == 0x85 || n == 0xA0 || n == 0x1680
    || (0x2000 <= n <= 0x200A) || n == 0x2028 || n == 0x2029 || n == 0x202F
    || n == 0x205F || n == 0x3000
  }

  predicate AllSpace(s: string) {
    forall i :: 0 <= i < |s| ==> IsSpace(s[i])
  }

  /** Drops the leading whitespace: what is left is a suffix of `s`. */
  function TrimStart(s: string): (r: string)
    ensures |r| <= |s| && r == s[|s| - |r|..]
    ensures r == [] || !IsSpace(r[0])
  {
    if s != [] && IsSpace(s[0]) then TrimStart(s[1..]) else s
  }

  /** Everything `TrimStart` drops is whitespace. */
  lemma {:induction false} TrimStartDropsSpace(s: string)
    ensures AllSpace(s[..|s| - |TrimStart(s)|])
  {
    if s != [] && IsSpace(s[0]) {
      TrimStartDropsSpace(s[1..]);
      var k := |s| - |TrimStart(s)|;
      assert s[..k] == [s[0]] + s[1..][..k - 1];
    }
  }

  /** Drops the trailing whitespace: what is left is a prefix of `s`. */
  function TrimEnd(s: string): (r: string)
    ensures |r| <= |s| && r == s[..|r|]
    ensures r == [] || !IsSpace(r[|r| - 1])
  {
    if s != [] && IsSpace(s[|s| - 1]) then TrimEnd(s[..|s| - 1]) else s
  }

  /** Everything `TrimEnd` drops is whitespace. */
  lemma {:induction false} TrimEndDropsSpace(s: string)
    ensures AllSpace(s[|TrimEnd(s)|..])
  {
    if s != [] && IsSpace(s[|s| - 1]) {
      TrimEndDropsSpace(s[..|s| - 1]);
      var k := |TrimEnd(s)|;
      assert s[k..] == s[..|s| - 1][k..] + [s[|s| - 1]];
    }
  }

  /** `s.strip()`. */
  function Strip(s: string): string {
    TrimEnd(TrimStart(s))
  }

  /** Trimming the front of an all-whitespace string leaves nothing. */
  lemma {:induction false} TrimStartAllSpace(s: string)
    requires AllSpace(s)
    ensures TrimStart(s) == []
  {
    if s != [] {
      TrimStartAllSpace(s[1..]);
    }
  }

  /** A string is empty after `strip()` exactly when it is all whitespace. */
  lemma StripEmptyIffAllSpace(s: string)
    ensures Strip(s) == [] <==> AllSpace(s)
  {
    var t := TrimStart(s);
    if Strip(s) == [] {
      TrimEndDropsSpace(t);
      TrimStartDropsSpace(s);
      assert t[0..] == t;
      assert s == s[..|s| - |t|] + t;
    }
    if AllSpace(s) {
      TrimStartAllSpace(s);
    }
  }

  /** Whitespace around a word that neither starts nor ends with whitespace is exactly what `strip()` removes. */
  lemma StripPadded(pre: string, w: string, post: string)
    requires AllSpace(pre) && AllSpace(post)
    requires w == [] || (!IsSpace(w[0]) && !IsSpace(w[|w| - 1]))
    ensures Strip(pre + w + post) == w
  {
    if w == [] {
      assert AllSpace(pre + w + post);
      TrimStartAllSpace(pre + w + post);
    } else {
      assert pre + w + post == pre + (w + post);
      TrimStartPadded(pre, w + post);
      TrimEndPadded(w, post);
    }
  }

  lemma {:induction false} TrimStartPadded(pre: string, rest: string)
    requires AllSpace(pre)
    requires rest == [] || !IsSpace(rest[0])
    ensures TrimStart(pre + rest) == rest
  {
    if pre != [] {
      assert (pre + rest)[1..] == pre[1..] + rest;
      TrimStartPadded(pre[1..], rest);
    } else {
      assert pre + rest == rest;
    }
  }

  lemma {:induction false} TrimEndPadded(w: string, post: string)
    requires AllSpace(post)
    requires w == [] || !IsSpace(w[|w| - 1])
    ensures TrimEnd(w + post) == w
  {
    if post != [] {
      var s := w + post;
      assert s[..|s| - 1] == w + post[..|post| - 1];
      TrimEndPadded(w, post[..|post| - 1]);
    } else {
      assert w + post == w;
    }
  }

  /** ASCII case folding of one character; every other character is kept. */
  function LowerChar(c: char): char {
    if 'A' <= c <= 'Z' then (c as int + 32) as char else c
  }

  /** `s.lower()`, restricted to ASCII letters. */
  function Lower(s: string): (r: string)
    ensures |r| == |s|
    ensures forall i :: 0 <= i < |s| ==> r[i] == LowerChar(s[i])
    ensures forall i :: 0 <= i < |r| ==> !('A' <= r[i] <= 'Z')
  {
    seq(|s|, i requires 0 <= i < |s| => LowerChar(s[i]))
  }
}
