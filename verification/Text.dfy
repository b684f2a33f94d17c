/** String helpers of the program: `str.strip()` and `str.strip().lower()`. */
module Text {

  /** The characters `str.isspace` accepts, which are the ones `str.strip` removes. */
  predicate IsSpace(c: char) {
    var n := c as int;
    || 0x09 <= n <= 0x0D || 0x1C <= n <= 0x20 || n == 0x85 || n == 0xA0 || n == 0x1680
    || 0x2000 <= n <= 0x200A || n == 0x2028 || n == 0x2029 || n == 0x202F || n == 0x205F || n == 0x3000
  }

  predicate Trimmed(s: string) {
    s == "" || (!IsSpace(s[0]) && !IsSpace(s[|s| - 1]))
  }

  function Strip(s: string): (r: string)
    ensures Trimmed(r)
    ensures Trimmed(s) ==> r == s
    decreases |s|
  {
    if s == "" then ""
    else if IsSpace(s[0]) then Strip(s[1..])
    else if IsSpace(s[|s| - 1]) then Strip(s[..|s| - 1])
    else s
  }

  function LowerChar(c: char): char {
    if 'A' <= c <= 'Z' then (c as int + 32) as char else c
  }

  function Lower(s: string): (r: string)
    ensures |r| == |s|
  {
    seq(|s|, i requires 0 <= i < |s| => LowerChar(s[i]))
  }

  /** `_normalize_identifier` and `_normalize_email`. */
  function Normalize(s: string): string {
    Lower(Strip(s))
  }

  function RemovePrefix(s: string, prefix: string): string {
    if prefix <= s then s[|prefix|..] else s
  }

  predicate Blank(s: string) {
    forall c :: c in s ==> IsSpace(c)
  }

  /** The second text is the first with blanks taken off its ends. */
  ghost predicate Within(s: string, r: string) {
    exists left, right :: s == left + r + right && Blank(left) && Blank(right)
  }

  lemma WithinBy(s: string, left: string, r: string, right: string)
    requires s == left + r + right && Blank(left) && Blank(right)
    ensures Within(s, r)
  {}

  lemma WithinSelf(s: string)
    ensures Within(s, s)
  {
    WithinBy(s, "", s, "");
  }

  lemma WithinLeft(s: string, r: string)
    requires s != "" && IsSpace(s[0]) && Within(s[1..], r)
    ensures Within(s, r)
  {
    var left, right :| s[1..] == left + r + right && Blank(left) && Blank(right);
    assert s == [s[0]] + s[1..];
    WithinBy(s, [s[0]] + left, r, right);
  }

  lemma WithinRight(s: string, r: string)
    requires s != "" && IsSpace(s[|s| - 1]) && Within(s[..|s| - 1], r)
    ensures Within(s, r)
  {
    var left, right :| s[..|s| - 1] == left + r + right && Blank(left) && Blank(right);
    assert s == s[..|s| - 1] + [s[|s| - 1]];
    WithinBy(s, left, r, right + [s[|s| - 1]]);
  }

  /** Stripping takes blanks off both ends, and only blanks. */
  lemma {:induction false} StripExact(s: string)
    ensures Within(s, Strip(s))
    decreases |s|
  {
    if s == "" || (!IsSpace(s[0]) && !IsSpace(s[|s| - 1])) {
      WithinSelf(s);
    } else if IsSpace(s[0]) {
      assert Strip(s) == Strip(s[1..]);
      StripExact(s[1..]);
      WithinLeft(s, Strip(s[1..]));
    } else {
      assert Strip(s) == Strip(s[..|s| - 1]);
      StripExact(s[..|s| - 1]);
      WithinRight(s, Strip(s[..|s| - 1]));
    }
  }

  lemma StripBlank(s: string)
    ensures Strip(s) == "" <==> Blank(s)
  {
    StripExact(s);
    var left, right :| s == left + Strip(s) + right && Blank(left) && Blank(right);
    if Strip(s) != "" {
      assert s[|left|] == Strip(s)[0];
      assert s[|left|] in s;
    } else {
      assert s == left + right;
    }
  }

  /** The same letter up to case. */
  predicate SameLetter(a: char, b: char) {
    a == b || ('A' <= a <= 'Z' && b as int == a as int + 32) || ('A' <= b <= 'Z' && a as int == b as int + 32)
  }

  predicate SameLetters(a: string, b: string) {
    |a| == |b| && forall i :: 0 <= i < |a| ==> SameLetter(a[i], b[i])
  }

  lemma LowerLetter(a: char, b: char)
    ensures LowerChar(a) == LowerChar(b) <==> SameLetter(a, b)
  {}

  lemma LowerLetters(a: string, b: string)
    ensures Lower(a) == Lower(b) <==> SameLetters(a, b)
  {
    if |a| == |b| {
      forall i | 0 <= i < |a| ensures Lower(a)[i] == Lower(b)[i] <==> SameLetter(a[i], b[i]) {
        LowerLetter(a[i], b[i]);
      }
    }
  }

  /** Two names are the same to the program exactly when, without the blanks around them, they have the same letters
      up to case. */
  lemma NormalizeFoldsCase(s: string, t: string)
    ensures Normalize(s) == Normalize(t) <==> SameLetters(Strip(s), Strip(t))
  {
    LowerLetters(Strip(s), Strip(t));
  }

  /** Normal forms are fixed points, so an index key can be compared with either form. */
  lemma NormalizeIdempotent(s: string)
    ensures Normalize(Normalize(s)) == Normalize(s)
  {
    var t := Strip(s);
    assert Trimmed(Lower(t));
    assert Lower(Lower(t)) == Lower(t);
  }
}
