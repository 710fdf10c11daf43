/** The Go string functions the mesh relies on: unicode.IsSpace, strings.TrimSpace and letter case. */
module Text {

  // U+0085 and U+00A0 are the two Latin-1 spaces that are not ASCII.
  predicate IsSpace(c: char) {
    || '\t' <= c <= '\r' || c == ' '
    || c == '\U{85}' || c == '\U{A0}' || c == '\U{1680}'
    || '\U{2000}' <= c <= '\U{200A}'
    || c == '\U{2028}' || c == '\U{2029}' || c == '\U{202F}' || c == '\U{205F}' || c == '\U{3000}'
  }

  function TrimLeft(s: string): (t: string)
    ensures t == [] || !IsSpace(t[0])
  {
    if s != [] && IsSpace(s[0]) then TrimLeft(s[1..]) else s
  }

  function TrimRight(s: string): (t: string)
    ensures t == [] || !IsSpace(t[|t| - 1])
    ensures t <= s
  {
    if s != [] && IsSpace(s[|s| - 1]) then TrimRight(s[..|s| - 1]) else s
  }

  function TrimSpace(s: string): string {
    TrimRight(TrimLeft(s))
  }

  /** `strings.TrimSpace(s) == ""`: the emptiness test every identifier's Validate uses. */
  predicate Blank(s: string) {
    TrimSpace(s) == ""
  }

  /** Case mapping of one rune. The table outside ASCII is Unicode data, so it is a parameter. */
  function ToUpper(table: char -> char, c: char): char {
    if 'a' <= c <= 'z' then ((c as int) - 32) as char
    else if c < '\U{80}' then c
    else table(c)
  }

  /** strings.ToLower on ASCII text. */
  function ToLowerAscii(s: string): (t: string)
    ensures |t| == |s|
    ensures forall i :: 0 <= i < |s| ==> t[i] == LowerChar(s[i])
  {
    if s == [] then [] else [LowerChar(s[0])] + ToLowerAscii(s[1..])
  }

  function LowerChar(c: char): char {
    if 'A' <= c <= 'Z' then ((c as int) + 32) as char else c
  }

  /** The code points with the property White_Space of the Unicode Character Database. */
  const WHITE_SPACE := {0x09, 0x0A, 0x0B, 0x0C, 0x0D, 0x20, 0x85, 0xA0, 0x1680, 0x2000, 0x2001, 0x2002, 0x2003, 0x2004,
                        0x2005, 0x2006, 0x2007, 0x2008, 0x2009, 0x200A, 0x2028, 0x2029, 0x202F, 0x205F, 0x3000}

  lemma SpacesAreWhiteSpace(c: char)
    ensures IsSpace(c) <==> c as int in WHITE_SPACE
  {
  }

  /** A string is blank exactly when it holds nothing but spaces. */
  lemma {:induction false} BlankMeansAllSpaces(s: string)
    ensures Blank(s) <==> forall i :: 0 <= i < |s| ==> IsSpace(s[i])
    ensures Blank(s) <==> forall i :: 0 <= i < |s| ==> s[i] as int in WHITE_SPACE
  {
    forall c: char ensures IsSpace(c) <==> c as int in WHITE_SPACE {
      SpacesAreWhiteSpace(c);
    }
    TrimLeftSuffix(s);
    var t := TrimLeft(s);
    if t == [] {
      assert TrimRight(t) == [];
    } else {
      var k := |s| - |t|;
      assert s[k] == t[0] && !IsSpace(s[k]);
      if TrimRight(t) == [] {
        TrimRightSpaces(t, 0);
      }
    }
  }

  lemma {:induction false} TrimLeftSuffix(s: string)
    ensures |TrimLeft(s)| <= |s| && TrimLeft(s) == s[|s| - |TrimLeft(s)|..]
    ensures forall i :: 0 <= i < |s| - |TrimLeft(s)| ==> IsSpace(s[i])
  {
    if s != [] && IsSpace(s[0]) {
      TrimLeftSuffix(s[1..]);
      assert forall i :: 1 <= i < |s| - |TrimLeft(s)| ==> s[i] == s[1..][i - 1];
    }
  }

  lemma {:induction false} TrimRightSpaces(s: string, i: nat)
    requires |TrimRight(s)| <= i < |s|
    ensures IsSpace(s[i])
  {
    if i < |s| - 1 {
      assert s != [] && IsSpace(s[|s| - 1]);
      assert s[..|s| - 1][i] == s[i];
      TrimRightSpaces(s[..|s| - 1], i);
    }
  }

  lemma TrimLeftShortens(s: string)
    requires s != [] && IsSpace(s[0])
    ensures |TrimLeft(s)| < |s|
  {
    hide IsSpace;
    TrimLeftSuffix(s[1..]);
  }

  lemma TrimRightShortens(s: string)
    requires s != [] && IsSpace(s[|s| - 1])
    ensures |TrimRight(s)| < |s|
  {
    hide IsSpace;
    assert TrimRight(s) == TrimRight(s[..|s| - 1]);
    assert TrimRight(s[..|s| - 1]) <= s[..|s| - 1];
  }

  /** Trimming removes something as soon as there is a space at either end. */
  lemma TrimShortens(s: string)
    requires s != [] && (IsSpace(s[0]) || IsSpace(s[|s| - 1]))
    ensures |TrimSpace(s)| < |s|
  {
    hide IsSpace;
    if IsSpace(s[0]) {
      TrimLeftShortens(s);
    } else {
      assert TrimLeft(s) == s;
      TrimRightShortens(s);
    }
  }

  lemma TrimKeeps(s: string)
    requires s == [] || (!IsSpace(s[0]) && !IsSpace(s[|s| - 1]))
    ensures TrimSpace(s) == s
  {
    hide IsSpace;
  }
}
