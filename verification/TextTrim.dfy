/** `String.prototype.trim`. */
module TextTrim {
  /** White space and line terminators of ECMAScript. */
  predicate IsSpace(c: char) {
    || '\U{0009}' <= c <= '\U{000D}'
    || c == ' ' || c == '\U{00A0}' || c == '\U{1680}'
    || '\U{2000}' <= c <= '\U{200A}'
    || c == '\U{2028}' || c == '\U{2029}' || c == '\U{202F}' || c == '\U{205F}'
    || c == '\U{3000}' || c == '\U{FEFF}'
  }

  predicate AllOf(s: string, p: char -> bool) {
    forall i :: 0 <= i < |s| ==> p(s[i])
  }

  /** Neither end of a non-empty text satisfies p. */
  predicate Bare(s: string, p: char -> bool) {
    s != "" && !p(s[0]) && !p(s[|s| - 1])
  }

  /** How many characters at the front satisfy p. */
  function Front(s: string, p: char -> bool): (a: nat)
    ensures a <= |s| && AllOf(s[..a], p) && (a < |s| ==> !p(s[a]))
  {
    if s == "" || !p(s[0]) then 0
    else
      var a := Front(s[1..], p) + 1;
      assert s[..a] == [s[0]] + s[1..][..a - 1];
      a
  }

  /** Where the part at the back that satisfies p begins. */
  function Back(s: string, p: char -> bool): (b: nat)
    ensures b <= |s| && AllOf(s[b..], p) && (b > 0 ==> !p(s[b - 1]))
  {
    if s == "" || !p(s[|s| - 1]) then |s|
    else
      var b := Back(s[..|s| - 1], p);
      assert s[b..] == s[..|s| - 1][b..] + [s[|s| - 1]];
      b
  }

  function Strip(s: string, p: char -> bool): string {
    var t := s[Front(s, p)..];
    t[..Back(t, p)]
  }

  /**
   * Stripping leaves a text with bare ends, or nothing exactly when every character goes; what goes is a
   * prefix and a suffix of such characters only.
   */
  lemma StripBare(s: string, p: char -> bool)
    ensures Strip(s, p) == "" || Bare(Strip(s, p), p)
    ensures Strip(s, p) == "" <==> AllOf(s, p)
    ensures exists a, b :: s == a + Strip(s, p) + b && AllOf(a, p) && AllOf(b, p)
  {
    var a := Front(s, p);
    var t := s[a..];
    var b := Back(t, p);
    assert s == s[..a] + t[..b] + t[b..];
    assert a < |s| ==> !p(s[a]);
    if b > 0 {
      assert t[b - 1] == s[a + b - 1];
    } else {
      assert s == s[..a] + t[b..];
    }
  }

  function Trim(s: string): string {
    Strip(s, IsSpace)
  }

  /** A text that is not empty and has nothing to trim. */
  predicate ProperText(s: string) {
    Bare(s, IsSpace)
  }

  predicate Blank(s: string) {
    AllOf(s, IsSpace)
  }

  lemma TrimProper(s: string)
    ensures Trim(s) == "" || ProperText(Trim(s))
    ensures Trim(s) == "" <==> Blank(s)
    ensures exists a, b :: s == a + Trim(s) + b && Blank(a) && Blank(b)
  {
    StripBare(s, IsSpace);
    var a, b :| s == a + Trim(s) + b && AllOf(a, IsSpace) && AllOf(b, IsSpace);
    assert Blank(a) && Blank(b);
  }

  /** Trimming a second time changes nothing. */
  lemma TrimIdempotent(s: string)
    ensures Trim(Trim(s)) == Trim(s)
  {
    StripBare(s, IsSpace);
    var t := Trim(s);
    if t != "" {
      assert Front(t, IsSpace) == 0 && Back(t[0..], IsSpace) == |t|;
      assert t[0..][..|t|] == t;
    }
  }
}
