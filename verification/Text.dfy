/** String operations that both the Go plugins and the Rust gateway use. */
module Text {

  /** `unicode.IsSpace` and `char::is_whitespace`: the White_Space property. */
  predicate IsSpace(c: char) {
    var n := c as int;
    || 0x09 <= n <= 0x0D || n == 0x20 || n == 0x85 || n == 0xA0 || n == 0x1680
    || 0x2000 <= n <= 0x200A || n == 0x2028 || n == 0x2029 || n == 0x202F || n == 0x205F || n == 0x3000
  }

  predicate IsSlash(c: char) {
    c == '/'
  }

  function TrimLeft(p: char -> bool, s: string): (t: string)
    ensures t != "" ==> !p(t[0])
    ensures |t| <= |s| && t == s[|s| - |t|..]
    ensures forall k :: 0 <= k < |s| - |t| ==> p(s[k])
  {
    if s == "" || !p(s[0]) then s else TrimLeft(p, s[1..])
  }

  function TrimRight(p: char -> bool, s: string): (t: string)
    ensures t != "" ==> !p(t[|t| - 1])
    ensures t <= s
    ensures forall k :: |t| <= k < |s| ==> p(s[k])
  {
    if s == "" || !p(s[|s| - 1]) then s else TrimRight(p, s[..|s| - 1])
  }

  function Trim(p: char -> bool, s: string): (t: string)
    ensures t != "" ==> !p(t[0]) && !p(t[|t| - 1])
  {
    var l := TrimLeft(p, s);
    var t := TrimRight(p, l);
    assert t != "" ==> t[0] == l[0];
    t
  }

  /** `strings.TrimSpace` and `str::trim`. */
  function TrimSpace(s: string): (t: string) {
    Trim(IsSpace, s)
  }

  predicate Trimmed(p: char -> bool, s: string) {
    s != "" ==> !p(s[0]) && !p(s[|s| - 1])
  }

  lemma TrimOfTrimmed(p: char -> bool, s: string)
    requires Trimmed(p, s)
    ensures Trim(p, s) == s
  {
  }

  lemma TrimTwice(p: char -> bool, s: string)
    ensures Trim(p, Trim(p, s)) == Trim(p, s)
  {
    TrimOfTrimmed(p, Trim(p, s));
  }

  lemma TrimSpaceTwice(s: string)
    ensures TrimSpace(TrimSpace(s)) == TrimSpace(s)
  {
    TrimTwice(IsSpace, s);
  }

  /** The 25 code points with the White_Space property. */
  lemma SpacesAre(c: char)
    ensures IsSpace(c) <==>
              c as int in {9, 10, 11, 12, 13, 32, 0x85, 0xA0, 0x1680, 0x2000, 0x2001, 0x2002, 0x2003, 0x2004, 0x2005,
                           0x2006, 0x2007, 0x2008, 0x2009, 0x200A, 0x2028, 0x2029, 0x202F, 0x205F, 0x3000}
  {
  }

  predicate AllSpaces(s: string) {
    forall k :: 0 <= k < |s| ==> IsSpace(s[k])
  }

  /** `t` is `s` without the spaces `before` and `after` it. */
  predicate Surrounded(s: string, before: string, t: string, after: string) {
    AllSpaces(before) && AllSpaces(after) && s == before + t + after
  }

  lemma LeftPart(s: string)
    ensures var l := TrimLeft(IsSpace, s); var before := s[..|s| - |l|]; AllSpaces(before) && s == before + l
  {
    hide IsSpace, TrimLeft;
  }

  lemma RightPart(l: string)
    ensures var t := TrimRight(IsSpace, l); var after := l[|t|..]; AllSpaces(after) && l == t + after
  {
    hide IsSpace, TrimRight;
    var t := TrimRight(IsSpace, l);
    forall k | 0 <= k < |l[|t|..]| ensures IsSpace(l[|t|..][k]) {
      assert l[|t|..][k] == l[|t| + k];
    }
  }

  /** Trimming takes away the spaces around a text, all of them and nothing else. */
  lemma TrimsExactly(s: string)
    ensures exists before, after :: Surrounded(s, before, TrimSpace(s), after)
    ensures TrimSpace(s) != "" ==> !IsSpace(TrimSpace(s)[0]) && !IsSpace(TrimSpace(s)[|TrimSpace(s)| - 1])
  {
    hide IsSpace, TrimLeft, TrimRight, AllSpaces;
    var l := TrimLeft(IsSpace, s);
    var t := TrimRight(IsSpace, l);
    LeftPart(s);
    RightPart(l);
    assert t == TrimSpace(s);
    assert Surrounded(s, s[..|s| - |l|], TrimSpace(s), l[|t|..]);
  }
}
