/** The string primitives the services rely on, with Go's semantics:
    `strings.TrimSpace` (white space as `unicode.IsSpace` defines it),
    `HasPrefix`/`HasSuffix`/`TrimPrefix`/`TrimSuffix`, `strings.ToLower`
    on Latin-1 and on the letters that lower to ASCII, and `strings.Split` on a one-character
    separator. Strings are sequences of Unicode scalar values. */
module Text {

  type String = seq<char>

  /** Go's `unicode.IsSpace`: the Latin-1 spaces and the Unicode White_Space set. */
  predicate IsSpace(c: char) {
    var n := c as int;
    || 0x09 <= n <= 0x0D || n == 0x20 || n == 0x85 || n == 0xA0 || n == 0x1680
    || 0x2000 <= n <= 0x200A || n == 0x2028 || n == 0x2029 || n == 0x202F || n == 0x205F || n == 0x3000
  }

  predicate AllSpace(s: String) {
    forall k :: 0 <= k < |s| ==> IsSpace(s[k])
  }

  /** Neither end of `s` is white space. */
  predicate IsTrimmed(s: String) {
    s == [] || (!IsSpace(s[0]) && !IsSpace(s[|s| - 1]))
  }

  function TrimLeft(s: String): (r: String)
    ensures |r| <= |s| && r == s[|s| - |r|..]
    ensures AllSpace(s[..|s| - |r|])
    ensures r == [] || !IsSpace(r[0])
  {
    if |s| > 0 && IsSpace(s[0]) then
      var t := TrimLeft(s[1..]);
      SpaceBefore(s, t);
      t
    else s
  }

  /** One more leading space: a suffix after white space stays one. */
  lemma SpaceBefore(s: String, t: String)
    requires |s| > 0 && IsSpace(s[0])
    requires |t| <= |s| - 1 && t == s[1..][|s| - 1 - |t|..] && AllSpace(s[1..][..|s| - 1 - |t|])
    ensures t == s[|s| - |t|..] && AllSpace(s[..|s| - |t|])
  {
    var d := |s| - |t|;
    assert s[1..][d - 1..] == s[d..];
    forall k | 0 <= k < d ensures IsSpace(s[..d][k]) {
      if k > 0 {
        assert s[..d][k] == s[1..][..d - 1][k - 1];
      }
    }
  }

  function TrimRight(s: String): (r: String)
    ensures |r| <= |s| && r == s[..|r|]
    ensures AllSpace(s[|r|..])
    ensures r == [] || !IsSpace(r[|r| - 1])
  {
    if |s| > 0 && IsSpace(s[|s| - 1]) then
      var t := TrimRight(s[..|s| - 1]);
      SpaceAfter(s, t);
      t
    else s
  }

  /** One more trailing space: a prefix before white space stays one. */
  lemma SpaceAfter(s: String, t: String)
    requires |s| > 0 && IsSpace(s[|s| - 1])
    requires |t| <= |s| - 1 && t == s[..|s| - 1][..|t|] && AllSpace(s[..|s| - 1][|t|..])
    ensures t == s[..|t|] && AllSpace(s[|t|..])
  {
    assert s[..|s| - 1][..|t|] == s[..|t|];
    forall k | 0 <= k < |s| - |t| ensures IsSpace(s[|t|..][k]) {
      if k < |s| - 1 - |t| {
        assert s[|t|..][k] == s[..|s| - 1][|t|..][k];
      }
    }
  }

  /** What the two trims leave: no white space at either end, and nothing
      at all exactly when `s` was all white space. */
  lemma BothEnds(s: String, l: String, r: String)
    requires l == TrimLeft(s) && r == TrimRight(l)
    ensures IsTrimmed(r)
    ensures r == [] <==> AllSpace(s)
  {
    var d := |s| - |l|;
    if r == [] {
      forall k | 0 <= k < |s| ensures IsSpace(s[k]) {
        assert s[k] == s[..d][k];
      }
    } else {
      assert r[0] == l[0] == s[d];
    }
  }

  /** Go's `strings.TrimSpace`: `s` with its leading and trailing white space removed. */
  function TrimSpace(s: String): (r: String)
    ensures IsTrimmed(r)
    ensures |r| <= |s|
    ensures r == [] <==> AllSpace(s)
  {
    var l := TrimLeft(s);
    var r := TrimRight(l);
    BothEnds(s, l, r);
    r
  }

  /** What the two trims of TrimSpace keep is a contiguous middle part of
      `s`, with only white space on either side of it. */
  lemma TrimsKeepMiddle(s: String, l: String, r: String)
    requires l == TrimLeft(s) && r == TrimRight(l)
    ensures var i := |s| - |l|;
      i + |r| <= |s| && r == s[i..i + |r|] && AllSpace(s[..i]) && AllSpace(s[i + |r|..])
  {
    var i := |s| - |l|;
    assert l == s[i..] && AllSpace(s[..i]);
    assert r == l[..|r|] && AllSpace(l[|r|..]);
    SliceParts(s, i, |r|);
    assert r == s[i..i + |r|];
    assert s[i + |r|..] == l[|r|..];
  }

  lemma SliceParts<T>(s: seq<T>, i: nat, n: nat)
    requires i + n <= |s|
    ensures s[i..][..n] == s[i..i + n] && s[i..][n..] == s[i + n..]
  {
    assert s[i..][..n] == s[i..i + n];
  }

  lemma {:induction false} TrimLeftOfTrimmed(s: String)
    requires s == [] || !IsSpace(s[0])
    ensures TrimLeft(s) == s
  {
  }

  lemma {:induction false} TrimRightOfTrimmed(s: String)
    requires s == [] || !IsSpace(s[|s| - 1])
    ensures TrimRight(s) == s
  {
  }

  /** Trimming a string that is already trimmed changes nothing. */
  lemma TrimSpaceOfTrimmed(s: String)
    requires IsTrimmed(s)
    ensures TrimSpace(s) == s
  {
    TrimLeftOfTrimmed(s);
    TrimRightOfTrimmed(s);
  }

  lemma TrimSpaceIdempotent(s: String)
    ensures TrimSpace(TrimSpace(s)) == TrimSpace(s)
  {
    TrimSpaceOfTrimmed(TrimSpace(s));
  }

  predicate HasPrefix(s: String, p: String) {
    |p| <= |s| && s[..|p|] == p
  }

  predicate HasSuffix(s: String, p: String) {
    |p| <= |s| && s[|s| - |p|..] == p
  }

  /** Go's `strings.TrimPrefix`: drops `p` from the front when it is there. */
  function TrimPrefix(s: String, p: String): (r: String)
    ensures HasPrefix(s, p) ==> s == p + r
    ensures !HasPrefix(s, p) ==> r == s
  {
    if HasPrefix(s, p) then s[|p|..] else s
  }

  /** Go's `strings.TrimSuffix`: drops `p` from the end when it is there. */
  function TrimSuffix(s: String, p: String): (r: String)
    ensures HasSuffix(s, p) ==> s == r + p
    ensures !HasSuffix(s, p) ==> r == s
  {
    if HasSuffix(s, p) then s[..|s| - |p|] else s
  }

  predicate IsUpperLatin1(c: char) {
    ('A' <= c <= 'Z') || ('\U{00C0}' <= c <= '\U{00DE}' && c != '\U{00D7}')
  }

  /** Go's `unicode.ToLower` on the letters of Basic Latin and Latin-1, and on
      the two letters outside them whose lower case is an ASCII letter:
      capital I with dot above lowers to 'i', the Kelvin sign to 'k'. */
  function LowerChar(c: char): (d: char)
    ensures IsUpperLatin1(c) ==> d as int == c as int + 32
    ensures c == '\U{0130}' ==> d == 'i'
    ensures c == '\U{212A}' ==> d == 'k'
    ensures !IsUpperLatin1(c) && c != '\U{0130}' && c != '\U{212A}' ==> d == c
  {
    if IsUpperLatin1(c) then (c as int + 32) as char
    else if c == '\U{0130}' then 'i'
    else if c == '\U{212A}' then 'k'
    else c
  }

  /** The characters that lower to an ASCII letter are exactly the ASCII
      letters, capital I with dot above and the Kelvin sign, so comparing a
      lowered string with an ASCII word is decided by this table. */
  lemma LowerToAscii(c: char)
    ensures 'a' <= LowerChar(c) <= 'z' <==>
      ('A' <= c <= 'Z') || ('a' <= c <= 'z') || c == '\U{0130}' || c == '\U{212A}'
  {
  }

  /** `strings.ToLower`, character by character. */
  function ToLower(s: String): (r: String)
    ensures |r| == |s|
    ensures forall k :: 0 <= k < |s| ==> r[k] == LowerChar(s[k])
  {
    seq(|s|, k requires 0 <= k < |s| => LowerChar(s[k]))
  }

  /** Position of the first `c` in `s`. */
  function IndexOf(s: String, c: char): (i: nat)
    requires c in s
    ensures i < |s| && s[i] == c && c !in s[..i]
  {
    if s[0] == c then 0 else 1 + IndexOf(s[1..], c)
  }

  /** The inverse of Split: the parts glued together with the separator. */
  function Join(parts: seq<String>, sep: char): String
    requires |parts| >= 1
  {
    if |parts| == 1 then parts[0] else parts[0] + [sep] + Join(parts[1..], sep)
  }


  /** Go's `strings.Split(s, sep)` for a one-character separator: the pieces
      between the separators, always at least one (the empty string gives [""]). */
  function Split(s: String, sep: char): (parts: seq<String>)
    ensures |parts| >= 1
    ensures forall k :: 0 <= k < |parts| ==> sep !in parts[k]
    ensures Join(parts, sep) == s
    decreases |s|
  {
    if sep in s then
      var i := IndexOf(s, sep);
      var rest := Split(s[i + 1..], sep);
      assert s == s[..i] + [sep] + s[i + 1..];
      [s[..i]] + rest
    else
      [s]
  }

  /** Splitting what Join glued back gives the parts again, when no part holds the separator. */
  lemma {:induction false} SplitJoin(parts: seq<String>, sep: char)
    requires |parts| >= 1
    requires forall k :: 0 <= k < |parts| ==> sep !in parts[k]
    ensures Split(Join(parts, sep), sep) == parts
  {
    if |parts| > 1 {
      var tail := Join(parts[1..], sep);
      FirstSeparator(parts[0], sep, tail);
      SplitJoin(parts[1..], sep);
      assert parts == [parts[0]] + parts[1..];
    }
  }

  /** In `a + [sep] + b` with no separator in `a`, the first separator is
      the one after `a`. */
  lemma FirstSeparator(a: String, sep: char, b: String)
    requires sep !in a
    ensures sep in a + [sep] + b
    ensures IndexOf(a + [sep] + b, sep) == |a|
    ensures (a + [sep] + b)[..|a|] == a && (a + [sep] + b)[|a| + 1..] == b
  {
    var s := a + [sep] + b;
    assert s[|a|] == sep;
    assert s[..|a|] == a;
    assert s[|a| + 1..] == b;
  }

  /** The process environment: `os.Getenv` gives "" for a variable that is not set. */
  type Env = map<String, String>

  function Getenv(env: Env, name: String): (v: String)
    ensures name in env ==> v == env[name]
    ensures name !in env ==> v == []
  {
    if name in env then env[name] else []
  }

  /** Two pieces without the separator, glued with it, split back into those two pieces. */
  lemma SplitTwo(a: String, b: String, sep: char)
    requires sep !in a && sep !in b
    ensures Split(a + [sep] + b, sep) == [a, b]
  {
    var parts := [a, b];
    assert parts[1..] == [b];
    assert Join(parts, sep) == a + [sep] + b;
    SplitJoin(parts, sep);
  }

  /** Bytes of `c` in UTF-8. */
  function Utf8Width(c: char): (n: nat)
    ensures 1 <= n <= 4
    ensures (c as int < 0x80) <==> n == 1
  {
    if c as int < 0x80 then 1 else if c as int < 0x800 then 2 else if c as int < 0x1_0000 then 3 else 4
  }

  /** Go's `len` of a string: its length in UTF-8 bytes. */
  function ByteLen(s: String): (n: nat)
    ensures |s| <= n <= 4 * |s|
  {
    if s == [] then 0 else ByteLen(s[..|s| - 1]) + Utf8Width(s[|s| - 1])
  }
}
