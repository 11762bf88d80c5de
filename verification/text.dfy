/**
 The three string primitives the permission search uses: `trim`,
 `toLowerCase` (restricted to ASCII letters) and `includes`.
 */
module Text {

  /**
   The characters `String.prototype.trim` removes: the ECMAScript WhiteSpace
   set (TAB, VT, FF, ZWNBSP and every space separator of Unicode category Zs)
   and the LineTerminator set (LF, CR, LS, PS).
   */
  predicate IsWhitespace(c: char) {
    var n := c as int;
    n == 0x09 || n == 0x0B || n == 0x0C || n == 0xFEFF          // TAB VT FF ZWNBSP
    || n == 0x20 || n == 0xA0 || n == 0x1680                     // Zs
    || (0x2000 <= n <= 0x200A) || n == 0x202F || n == 0x205F || n == 0x3000
    || n == 0x0A || n == 0x0D || n == 0x2028 || n == 0x2029      // LF CR LS PS
  }

  /** Every character of `s` is whitespace (the empty string included). */
  predicate IsBlank(s: string) {
    forall i :: 0 <= i < |s| ==> IsWhitespace(s[i])
  }

  /** `s` with its leading whitespace removed. */
  function TrimStart(s: string): (r: string)
    ensures |r| <= |s| && r == s[|s| - |r|..]
    ensures r == [] || !IsWhitespace(r[0])
    ensures forall i :: 0 <= i < |s| - |r| ==> IsWhitespace(s[i])
  {
    if s != [] && IsWhitespace(s[0]) then TrimStart(s[1..]) else s
  }

  /** `s` with its trailing whitespace removed. */
  function TrimEnd(s: string): (r: string)
    ensures |r| <= |s| && r == s[..|r|]
    ensures r == [] || !IsWhitespace(r[|r| - 1])
    ensures forall i :: |r| <= i < |s| ==> IsWhitespace(s[i])
  {
    if s != [] && IsWhitespace(s[|s| - 1]) then TrimEnd(s[..|s| - 1]) else s
  }

  /**
   `r` is the slice of `s` starting at `start`, and everything of `s` outside
   that slice is whitespace.
   */
  ghost predicate TrimmedAt(s: string, r: string, start: int) {
    && 0 <= start <= start + |r| <= |s|
    && s[start..start + |r|] == r
    && IsBlank(s[..start])
    && IsBlank(s[start + |r|..])
  }

  /** JavaScript `s.trim()`. */
  function Trim(s: string): (r: string)
    ensures exists start :: TrimmedAt(s, r, start)
    ensures r == [] || (!IsWhitespace(r[0]) && !IsWhitespace(r[|r| - 1]))
    ensures r == [] <==> IsBlank(s)
  {
    var t := TrimStart(s);
    var r := TrimEnd(t);
    assert TrimmedAt(s, r, |s| - |t|);
    EmptyTrimIsBlank(s, r, |s| - |t|);
    r
  }

  lemma EmptyTrimIsBlank(s: string, r: string, start: int)
    requires TrimmedAt(s, r, start)
    ensures r == [] ==> IsBlank(s)
  {
    if r == [] {
      forall i | 0 <= i < |s|
        ensures IsWhitespace(s[i])
      {
        if i < start {
          assert s[..start][i] == s[i];
        } else {
          assert s[start..][i - start] == s[i];
        }
      }
    }
  }

  predicate IsUpper(c: char) {
    'A' <= c <= 'Z'
  }

  /** JavaScript `toLowerCase` on one character, for ASCII letters only. */
  function LowerChar(c: char): (l: char)
    ensures !IsUpper(l)
    ensures IsUpper(c) ==> l as int == c as int + 32
    ensures !IsUpper(c) ==> l == c
  {
    if IsUpper(c) then (c as int + 32) as char else c
  }

  /** JavaScript `s.toLowerCase()`, for ASCII letters only. */
  function Lower(s: string): (r: string)
    ensures |r| == |s|
    ensures forall i :: 0 <= i < |s| ==> r[i] == LowerChar(s[i])
  {
    seq(|s|, i requires 0 <= i < |s| => LowerChar(s[i]))
  }

  /** Whitespace is not a letter, so lower-casing keeps a character whitespace or not. */
  lemma LowerCharKeepsWhitespace(c: char)
    ensures IsWhitespace(LowerChar(c)) <==> IsWhitespace(c)
  {
  }

  /** `needle` occurs in `hay` starting at index `i`. */
  predicate OccursAt(needle: string, hay: string, i: int) {
    0 <= i <= |hay| - |needle| && needle <= hay[i..]
  }

  ghost predicate IsSubstring(needle: string, hay: string) {
    exists i :: OccursAt(needle, hay, i)
  }

  /** JavaScript `hay.includes(needle)`, scanning the start positions left to right. */
  function Includes(hay: string, needle: string): (b: bool)
    ensures b <==> IsSubstring(needle, hay)
    decreases |hay|
  {
    if needle <= hay then
      assert OccursAt(needle, hay, 0);
      true
    else if hay == [] then
      false
    else
      var rest := Includes(hay[1..], needle);
      assert forall i :: 1 <= i && OccursAt(needle, hay, i) ==> OccursAt(needle, hay[1..], i - 1) by {
        forall i | 1 <= i && OccursAt(needle, hay, i)
          ensures OccursAt(needle, hay[1..], i - 1)
        {
          assert hay[1..][i - 1..] == hay[i..];
        }
      }
      assert forall i :: OccursAt(needle, hay[1..], i) ==> OccursAt(needle, hay, i + 1) by {
        forall i | OccursAt(needle, hay[1..], i)
          ensures OccursAt(needle, hay, i + 1)
        {
          assert hay[1..][i..] == hay[i + 1..];
        }
      }
      rest
  }

  /** The empty string is a substring of every string. */
  lemma EmptyIsSubstring(hay: string)
    ensures IsSubstring("", hay)
  {
    assert OccursAt("", hay, 0);
  }
}
