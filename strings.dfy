/**
 * The JavaScript string operations the storefront relies on: `trim`,
 * `split` on a one-character separator, `join`, `toLowerCase`,
 * `toUpperCase`, `includes` and the `\D` (non-digit) filter.
 */
module Strings {

  /** JavaScript's WhiteSpace and LineTerminator characters, the set `trim` removes. */
  predicate IsWhitespace(c: char) {
    c == '\t' || c == '\n' || c == '\U{000B}' || c == '\U{000C}' || c == '\r' || c == ' '
    || c == '\U{00A0}' || c == '\U{1680}' || ('\U{2000}' <= c <= '\U{200A}')
    || c == '\U{2028}' || c == '\U{2029}' || c == '\U{202F}' || c == '\U{205F}'
    || c == '\U{3000}' || c == '\U{FEFF}'
  }

  /** `trimStart`: the longest suffix that does not start with whitespace. */
  function TrimStart(s: string): (r: string)
    ensures |r| <= |s| && r == s[|s| - |r|..]
    ensures forall j | 0 <= j < |s| - |r| :: IsWhitespace(s[j])
    ensures |r| > 0 ==> !IsWhitespace(r[0])
  {
    if |s| > 0 && IsWhitespace(s[0]) then TrimStart(s[1..]) else s
  }

  /** `trimEnd`: the longest prefix that does not end with whitespace. */
  function TrimEnd(s: string): (r: string)
    ensures |r| <= |s| && r == s[..|r|]
    ensures forall j | |r| <= j < |s| :: IsWhitespace(s[j])
    ensures |r| > 0 ==> !IsWhitespace(r[|r| - 1])
  {
    if |s| > 0 && IsWhitespace(s[|s| - 1]) then TrimEnd(s[..|s| - 1]) else s
  }

  /** `trim`: whitespace removed from both ends. */
  function Trim(s: string): string {
    TrimEnd(TrimStart(s))
  }

  /** `s.split(sep)` for a one-character separator: one more piece than separators. */
  function Split(s: string, sep: char): (parts: seq<string>)
    ensures |parts| >= 1
    ensures forall i | 0 <= i < |parts| :: sep !in parts[i]
    decreases |s|
  {
    if |s| == 0 then [""]
    else
      var rest := Split(s[1..], sep);
      if s[0] == sep then [""] + rest
      else [[s[0]] + rest[0]] + rest[1..]
  }

  /** `pieces.map(p => p.trim())`. */
  function TrimAll(pieces: seq<string>): (r: seq<string>)
    ensures |r| == |pieces| && forall k | 0 <= k < |pieces| :: r[k] == Trim(pieces[k])
  {
    if |pieces| == 0 then [] else [Trim(pieces[0])] + TrimAll(pieces[1..])
  }

  /** `parts.join(sep)`; the empty list joins to the empty string. */
  function Join(parts: seq<string>, sep: char): string {
    if |parts| == 0 then ""
    else if |parts| == 1 then parts[0]
    else parts[0] + [sep] + Join(parts[1..], sep)
  }

  /** Joining the pieces of a split gives back the original string. */
  lemma {:induction false} JoinSplit(s: string, sep: char)
    ensures Join(Split(s, sep), sep) == s
    decreases |s|
  {
    if |s| > 0 {
      var rest := Split(s[1..], sep);
      JoinSplit(s[1..], sep);
      if s[0] == sep {
        assert Split(s, sep) == [""] + rest;
        assert ([""] + rest)[1..] == rest;
        assert s == [sep] + s[1..];
      } else {
        var parts := Split(s, sep);
        assert parts == [[s[0]] + rest[0]] + rest[1..];
        if |rest| == 1 {
          assert parts == [[s[0]] + rest[0]];
          assert s == [s[0]] + s[1..];
        } else {
          assert parts[1..] == rest[1..];
          assert Join(rest, sep) == rest[0] + [sep] + Join(rest[1..], sep);
          assert s == [s[0]] + s[1..];
        }
      }
    }
  }

  /** A string without the separator splits into itself alone. */
  lemma {:induction false} SplitNoSeparator(p: string, sep: char)
    requires sep !in p
    ensures Split(p, sep) == [p]
    decreases |p|
  {
    if |p| > 0 {
      SplitNoSeparator(p[1..], sep);
      assert p == [p[0]] + p[1..];
    }
  }

  /** A separator-free head followed by the separator splits off as the first piece. */
  lemma {:induction false} SplitAtSeparator(p: string, t: string, sep: char)
    requires sep !in p
    ensures Split(p + [sep] + t, sep) == [p] + Split(t, sep)
    decreases |p|
  {
    var s := p + [sep] + t;
    if |p| == 0 {
      assert s == [sep] + t;
      assert s[1..] == t;
    } else {
      assert s[1..] == p[1..] + [sep] + t;
      SplitAtSeparator(p[1..], t, sep);
      assert p == [p[0]] + p[1..];
    }
  }

  /** Splitting a join gives back the pieces, provided no piece holds the separator. */
  lemma {:induction false} SplitJoin(parts: seq<string>, sep: char)
    requires |parts| >= 1
    requires forall i | 0 <= i < |parts| :: sep !in parts[i]
    ensures Split(Join(parts, sep), sep) == parts
    decreases |parts|
  {
    if |parts| == 1 {
      SplitNoSeparator(parts[0], sep);
    } else {
      SplitJoin(parts[1..], sep);
      SplitAtSeparator(parts[0], Join(parts[1..], sep), sep);
      assert parts == [parts[0]] + parts[1..];
    }
  }

  /** Every character of `w` is whitespace. */
  predicate AllWhitespace(w: string) {
    forall k | 0 <= k < |w| :: IsWhitespace(w[k])
  }

  /** What `trimStart` removes is whitespace. */
  lemma TrimStartRemoves(s: string) returns (pre: string)
    ensures s == pre + TrimStart(s) && AllWhitespace(pre)
  {
    var ts := TrimStart(s);
    pre := s[..|s| - |ts|];
    assert s == pre + ts;
    assert forall k | 0 <= k < |pre| :: pre[k] == s[k];
  }

  /** What `trimEnd` removes is whitespace. */
  lemma TrimEndRemoves(s: string) returns (post: string)
    ensures s == TrimEnd(s) + post && AllWhitespace(post)
  {
    var t := TrimEnd(s);
    post := s[|t|..];
    assert s == t + post;
    assert forall k | 0 <= k < |post| :: post[k] == s[|t| + k];
  }

  /** A string is its trimmed core with whitespace on either side. */
  lemma TrimDecomposes(s: string) returns (pre: string, post: string)
    ensures s == pre + Trim(s) + post && AllWhitespace(pre) && AllWhitespace(post)
  {
    pre := TrimStartRemoves(s);
    post := TrimEndRemoves(TrimStart(s));
  }

  /** Every character of a trimmed string comes from the original. */
  lemma TrimWithin(s: string, c: char)
    requires c in Trim(s)
    ensures c in s
  {
    var pre, post := TrimDecomposes(s);
    assert s == pre + (Trim(s) + post);
  }

  /** Trimming twice is trimming once. */
  lemma TrimIdempotent(s: string)
    ensures Trim(Trim(s)) == Trim(s)
  {
    var t := TrimStart(s);
    var r := TrimEnd(t);
    if |r| > 0 {
      assert r[0] == t[0];
      assert TrimStart(r) == r;
      assert !IsWhitespace(r[|r| - 1]);
      assert TrimEnd(r) == r;
    } else {
      assert TrimStart(r) == r && TrimEnd(r) == r;
    }
  }

  lemma {:induction false} TrimStartAfterWhitespace(w: string, p: string)
    requires AllWhitespace(w)
    ensures TrimStart(w + p) == TrimStart(p)
    decreases |w|
  {
    if |w| > 0 {
      assert (w + p)[1..] == w[1..] + p;
      TrimStartAfterWhitespace(w[1..], p);
    } else {
      assert w + p == p;
    }
  }

  lemma {:induction false} TrimEndBeforeWhitespace(p: string, w: string)
    requires AllWhitespace(w)
    ensures TrimEnd(p + w) == TrimEnd(p)
    decreases |w|
  {
    if |w| > 0 {
      assert (p + w)[..|p + w| - 1] == p + w[..|w| - 1];
      TrimEndBeforeWhitespace(p, w[..|w| - 1]);
    } else {
      assert p + w == p;
    }
  }

  /** Whitespace added after a string is trimmed away again. */
  lemma {:induction false} TrimBeforeWhitespace(p: string, w: string)
    requires AllWhitespace(w)
    ensures Trim(p + w) == Trim(p)
    decreases |p|
  {
    if |p| == 0 {
      assert p + w == w;
      TrimStartOfWhitespace(w);
    } else if IsWhitespace(p[0]) {
      assert (p + w)[0] == p[0];
      assert (p + w)[1..] == p[1..] + w;
      assert TrimStart(p + w) == TrimStart(p[1..] + w);
      assert TrimStart(p) == TrimStart(p[1..]);
      TrimBeforeWhitespace(p[1..], w);
    } else {
      assert (p + w)[0] == p[0];
      assert TrimStart(p + w) == p + w;
      assert TrimStart(p) == p;
      TrimEndBeforeWhitespace(p, w);
    }
  }

  /** A string of whitespace trims to nothing. */
  lemma {:induction false} TrimStartOfWhitespace(w: string)
    requires AllWhitespace(w)
    ensures TrimStart(w) == ""
    decreases |w|
  {
    if |w| > 0 {
      assert IsWhitespace(w[0]);
      assert forall k | 0 <= k < |w| - 1 :: w[1..][k] == w[k + 1];
      TrimStartOfWhitespace(w[1..]);
    }
  }

  /** Whitespace on either side of a string is trimmed away again. */
  lemma TrimAround(pre: string, p: string, post: string)
    requires AllWhitespace(pre) && AllWhitespace(post)
    ensures Trim(pre + p + post) == Trim(p)
  {
    var q := p + post;
    assert pre + p + post == pre + q;
    TrimStartAfterWhitespace(pre, q);
    assert Trim(pre + q) == TrimEnd(TrimStart(q)) == Trim(q);
    TrimBeforeWhitespace(p, post);
  }

  /** A separator-free prefix joins the first piece of a split. */
  lemma {:induction false} SplitPrepend(w: string, s: string, sep: char)
    requires sep !in w
    ensures Split(w + s, sep) == [w + Split(s, sep)[0]] + Split(s, sep)[1..]
    decreases |w|
  {
    if |w| > 0 {
      assert (w + s)[1..] == w[1..] + s;
      SplitPrepend(w[1..], s, sep);
      assert w + Split(s, sep)[0] == [w[0]] + (w[1..] + Split(s, sep)[0]);
    } else {
      assert w + s == s;
      assert w + Split(s, sep)[0] == Split(s, sep)[0];
      assert Split(s, sep) == [Split(s, sep)[0]] + Split(s, sep)[1..];
    }
  }

  /** A separator-free suffix joins the last piece of a split. */
  lemma {:induction false} SplitAppend(s: string, w: string, sep: char)
    requires sep !in w
    ensures var parts := Split(s, sep); Split(s + w, sep) == parts[..|parts| - 1] + [parts[|parts| - 1] + w]
    decreases |s|
  {
    if |s| == 0 {
      assert s + w == w;
      SplitNoSeparator(w, sep);
    } else {
      assert (s + w)[0] == s[0];
      assert (s + w)[1..] == s[1..] + w;
      SplitAppend(s[1..], w, sep);
      var r := Split(s[1..], sep);
      if s[0] == sep {
        AppendAfterNewPiece(r, w);
      } else {
        AppendToFirstPiece(s[0], r, w);
      }
    }
  }

  /** The list algebra of `SplitAppend` when the string starts with the separator. */
  lemma AppendAfterNewPiece(r: seq<string>, w: string)
    requires |r| >= 1
    ensures var parts := [""] + r;
      [""] + (r[..|r| - 1] + [r[|r| - 1] + w]) == parts[..|parts| - 1] + [parts[|parts| - 1] + w]
  {
    var parts := [""] + r;
    assert parts[..|parts| - 1] == [""] + r[..|r| - 1];
  }

  /** The list algebra of `SplitAppend` when the string starts with another character. */
  lemma AppendToFirstPiece(c: char, r: seq<string>, w: string)
    requires |r| >= 1
    ensures var rw := r[..|r| - 1] + [r[|r| - 1] + w]; var parts := [[c] + r[0]] + r[1..];
      [[c] + rw[0]] + rw[1..] == parts[..|parts| - 1] + [parts[|parts| - 1] + w]
  {
    var rw := r[..|r| - 1] + [r[|r| - 1] + w];
    var parts := [[c] + r[0]] + r[1..];
    if |r| == 1 {
      assert rw == [r[0] + w];
      assert [c] + (r[0] + w) == [c] + r[0] + w;
    } else {
      assert rw[0] == r[0] && rw[1..] == r[1..|r| - 1] + [r[|r| - 1] + w];
      assert parts[..|parts| - 1] == [[c] + r[0]] + r[1..|r| - 1];
    }
  }

  /** `toLowerCase` on one character, for the Latin and Cyrillic letters a storefront uses. */
  function ToLowerChar(c: char): char {
    if 'A' <= c <= 'Z' then (c as int + 32) as char
    else if '\U{0410}' <= c <= '\U{042F}' then (c as int + 32) as char
    else if '\U{0400}' <= c <= '\U{040F}' then (c as int + 80) as char
    else if c == '\U{04AE}' || c == '\U{04E8}' then (c as int + 1) as char
    else c
  }

  function ToLower(s: string): (r: string)
    ensures |r| == |s| && forall i | 0 <= i < |s| :: r[i] == ToLowerChar(s[i])
  {
    if |s| == 0 then "" else [ToLowerChar(s[0])] + ToLower(s[1..])
  }

  /** A lower-case letter stays as it is. */
  lemma ToLowerIdempotent(s: string)
    ensures ToLower(ToLower(s)) == ToLower(s)
  {
    assert forall i | 0 <= i < |s| :: ToLowerChar(ToLowerChar(s[i])) == ToLowerChar(s[i]);
  }

  /** `toUpperCase` on one character, for the Latin letters. */
  function ToUpperChar(c: char): char {
    if 'a' <= c <= 'z' then (c as int - 32) as char else c
  }

  function ToUpper(s: string): (r: string)
    ensures |r| == |s| && forall i | 0 <= i < |s| :: r[i] == ToUpperChar(s[i])
  {
    if |s| == 0 then "" else [ToUpperChar(s[0])] + ToUpper(s[1..])
  }

  /** Upper-casing twice is upper-casing once. */
  lemma ToUpperIdempotent(s: string)
    ensures ToUpper(ToUpper(s)) == ToUpper(s)
  {
  }

  /** `s.includes(sub)`: `sub` occurs in `s` at some position. */
  predicate Includes(s: string, sub: string)
    decreases |s|
  {
    (|sub| <= |s| && s[..|sub|] == sub) || (|s| > 0 && Includes(s[1..], sub))
  }

  /** Every string includes the empty string. */
  lemma IncludesEmpty(s: string)
    ensures Includes(s, "")
  {
  }

  /** An occurrence at position `i` makes `Includes` hold. */
  lemma {:induction false} IncludesAt(s: string, sub: string, i: nat)
    requires i + |sub| <= |s| && s[i..i + |sub|] == sub
    ensures Includes(s, sub)
    decreases i
  {
    if i > 0 {
      assert s[1..][i - 1..i - 1 + |sub|] == s[i..i + |sub|];
      IncludesAt(s[1..], sub, i - 1);
    }
  }

  predicate IsDigit(c: char) {
    '0' <= c <= '9'
  }

  /** `s.replace(/\D/g, '')`: the digits of `s`, in order. */
  function KeepDigits(s: string): (r: string)
    ensures |r| <= |s|
    ensures forall i | 0 <= i < |r| :: IsDigit(r[i])
  {
    if |s| == 0 then ""
    else if IsDigit(s[0]) then [s[0]] + KeepDigits(s[1..])
    else KeepDigits(s[1..])
  }

  /** A string of digits is its own digit filter. */
  lemma {:induction false} KeepDigitsOfDigits(s: string)
    requires forall i | 0 <= i < |s| :: IsDigit(s[i])
    ensures KeepDigits(s) == s
    decreases |s|
  {
    if |s| > 0 {
      KeepDigitsOfDigits(s[1..]);
      assert s == [s[0]] + s[1..];
    }
  }

  /** `s.slice(0, n)`. */
  function Take(s: string, n: nat): (r: string)
    ensures |r| == (if n < |s| then n else |s|) && r == s[..|r|]
  {
    if n < |s| then s[..n] else s
  }
}
