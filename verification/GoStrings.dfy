/** The string predicates of Go's `strings` package that the models need. */
module GoStrings {

  // The characters that strings.TrimSpace removes, by code point.
  predicate IsSpace(c: char) {
    var n := c as int;
    || 9 <= n <= 13
    || n == 0x20
    || n == 0x85
    || n == 0xA0
    || n == 0x1680
    || 0x2000 <= n <= 0x200A
    || n == 0x2028
    || n == 0x2029
    || n == 0x202F
    || n == 0x205F
    || n == 0x3000
  }

  // strings.TrimSpace(s) == ""
  predicate IsBlank(s: string) {
    forall i :: 0 <= i < |s| ==> IsSpace(s[i])
  }

  function LowerChar(c: char): char {
    if 'A' <= c <= 'Z' then (c as int + 32) as char else c
  }

  // Postgres LOWER and strings.ToLower on ASCII letters
  function Lower(s: string): string {
    seq(|s|, i requires 0 <= i < |s| => LowerChar(s[i]))
  }

  function UpperChar(c: char): char {
    if 'a' <= c <= 'z' then (c as int - 32) as char else c
  }

  // strings.ToUpper on ASCII letters
  function Upper(s: string): string {
    seq(|s|, i requires 0 <= i < |s| => UpperChar(s[i]))
  }

  // strings.TrimLeft and strings.TrimRight with a cutset
  function TrimLeft(s: string, cut: char -> bool): (r: string)
    ensures |r| <= |s| && r == s[|s| - |r|..]
    ensures r != "" ==> !cut(r[0])
    ensures r == s <==> s == "" || !cut(s[0])
  {
    if s != "" && cut(s[0]) then TrimLeft(s[1..], cut) else s
  }

  function TrimRight(s: string, cut: char -> bool): (r: string)
    ensures |r| <= |s| && r == s[..|r|]
    ensures r != "" ==> !cut(r[|r| - 1])
    ensures r == s <==> s == "" || !cut(s[|s| - 1])
  {
    if s != "" && cut(s[|s| - 1]) then TrimRight(s[..|s| - 1], cut) else s
  }

  function Trim(s: string, cut: char -> bool): (r: string)
    ensures |r| <= |s|
  {
    TrimRight(TrimLeft(s, cut), cut)
  }

  function TrimSpace(s: string): string {
    Trim(s, IsSpace)
  }

  // len(s): the bytes of its UTF-8 form
  function ByteLength(s: string): nat {
    if s == "" then 0 else ByteLength(s[1..]) + CharBytes(s[0])
  }

  function CharBytes(c: char): nat {
    var n := c as int;
    if n < 0x80 then 1 else if n < 0x800 then 2 else if n < 0x1_0000 then 3 else 4
  }

  // ------------------------------------------------------------------------------ what they come to

  /** What is left has no space at its ends, and what went was space. */
  lemma TrimSpaceMeans(s: string) returns (before: string, after: string)
    ensures s == before + TrimSpace(s) + after
    ensures (forall c :: c in before ==> IsSpace(c)) && forall c :: c in after ==> IsSpace(c)
    ensures TrimSpace(s) != "" ==> !IsSpace(TrimSpace(s)[0]) && !IsSpace(TrimSpace(s)[|TrimSpace(s)| - 1])
  {
    hide IsSpace, TrimLeft, TrimRight;
    var left := TrimLeft(s, IsSpace);
    before := s[..|s| - |left|];
    after := left[|TrimSpace(s)|..];
    CutLeft(s, IsSpace);
    CutRight(left, IsSpace);
    assert left == TrimSpace(s) + after;
  }

  lemma {:induction false} CutLeft(s: string, cut: char -> bool)
    ensures forall c :: c in s[..|s| - |TrimLeft(s, cut)|] ==> cut(c)
  {
    if s != "" && cut(s[0]) {
      CutLeft(s[1..], cut);
      assert s[..|s| - |TrimLeft(s, cut)|] == [s[0]] + s[1..][..|s[1..]| - |TrimLeft(s[1..], cut)|];
    }
  }

  lemma {:induction false} CutRight(s: string, cut: char -> bool)
    ensures forall c :: c in s[|TrimRight(s, cut)|..] ==> cut(c)
  {
    if s != "" && cut(s[|s| - 1]) {
      var front := s[..|s| - 1];
      CutRight(front, cut);
      assert s[|TrimRight(s, cut)|..] == front[|TrimRight(front, cut)|..] + [s[|s| - 1]];
    }
  }

  /** The space characters of Unicode, one by one. */
  lemma SpacesAre(c: char)
    ensures IsSpace(c) <==>
              c in {'\t', '\n', '\U{0B}', '\U{0C}', '\r', ' ', '\U{85}', '\U{A0}', '\U{1680}', '\U{2000}', '\U{2001}', '\U{2002}', '\U{2003}',
                    '\U{2004}', '\U{2005}', '\U{2006}', '\U{2007}', '\U{2008}', '\U{2009}', '\U{200A}', '\U{2028}', '\U{2029}', '\U{202F}',
                    '\U{205F}', '\U{3000}'}
  {
  }

  /** Letters change case and nothing else changes; a text is in small letters exactly if it stays. */
  lemma CasesMean(s: string)
    ensures |Lower(s)| == |Upper(s)| == |s|
    ensures forall k :: 0 <= k < |s| && !('A' <= s[k] <= 'Z') ==> Lower(s)[k] == s[k]
    ensures forall k :: 0 <= k < |s| && !('a' <= s[k] <= 'z') ==> Upper(s)[k] == s[k]
    ensures forall k :: 0 <= k < |s| && 'A' <= s[k] <= 'Z' ==> 'a' <= Lower(s)[k] <= 'z' && Lower(s)[k] as int - 'a' as int == s[k] as int - 'A' as int
    ensures forall k :: 0 <= k < |s| && 'a' <= s[k] <= 'z' ==> 'A' <= Upper(s)[k] <= 'Z' && Upper(s)[k] as int - 'A' as int == s[k] as int - 'a' as int
  {
  }

  /** Bytes add up; plain characters have one. */
  lemma {:induction false} BytesMean(a: string, b: string)
    ensures ByteLength(a + b) == ByteLength(a) + ByteLength(b)
    ensures |a| <= ByteLength(a) <= 4 * |a|
    ensures (forall c :: c in a ==> c as int < 128) ==> ByteLength(a) == |a|
  {
    if a == "" {
      assert a + b == b;
    } else {
      assert (a + b)[1..] == a[1..] + b;
      BytesMean(a[1..], b);
      assert a[0] in a && forall c :: c in a[1..] ==> c in a;
    }
  }
}
