/**
 * Colour values of attributes: `#` followed by hex digits, alone or several
 * joined by `/`. Used by `extractHexColors` (src/lib/utils.ts), the swatches
 * of the attribute filter (src/components/listing/AttributeFilterList.tsx)
 * and the filter tags (src/components/listing/ProductFilterHeader.tsx).
 */
module Colors {
  import opened Strings
  import opened JsNumber

  /** `#` followed by between `lo` and `hi` hex digits, either case. */
  predicate HexCode(s: string, lo: nat, hi: nat) {
    |s| >= 1 && s[0] == '#' && lo <= |s| - 1 <= hi && forall k | 1 <= k < |s| :: IsHexDigit(s[k])
  }

  /** `/^#([0-9A-F]{3}){1,2}$/i`: three or six hex digits. */
  predicate IsShortOrLongHex(s: string) {
    HexCode(s, 3, 6) && (|s| == 4 || |s| == 7)
  }

  /** `/^#([0-9a-fA-F]{3,8})$/`. */
  predicate IsSingleColor(s: string) {
    HexCode(s, 3, 8)
  }

  /**
   * `/^#([0-9a-fA-F]{3,8})(\/#([0-9a-fA-F]{3,8}))+$/`: two or more single
   * colours joined by `/`. As no single colour holds a `/`, these are the
   * strings whose `/`-pieces number at least two and are all single colours.
   */
  predicate IsMultiColor(s: string) {
    var pieces := Split(s, '/');
    |pieces| >= 2 && forall k | 0 <= k < |pieces| :: IsSingleColor(pieces[k])
  }

  /** `a` is `b` with some elements left out, the rest in order. */
  predicate SubsequenceOf(a: seq<string>, b: seq<string>)
    decreases |b|
  {
    |a| == 0 || (|b| > 0 && ((a[0] == b[0] && SubsequenceOf(a[1..], b[1..])) || SubsequenceOf(a, b[1..])))
  }

  lemma {:induction false} PrefixIsSubsequence(a: seq<string>, n: nat)
    requires n <= |a|
    ensures SubsequenceOf(a[..n], a)
    decreases n
  {
    if n > 0 {
      PrefixIsSubsequence(a[1..], n - 1);
      assert a[..n][1..] == a[1..][..n - 1];
    }
  }

  lemma {:induction false} SubsequenceTrans(a: seq<string>, b: seq<string>, c: seq<string>)
    requires SubsequenceOf(a, b) && SubsequenceOf(b, c)
    ensures SubsequenceOf(a, c)
    decreases |c|
  {
    if |a| > 0 {
      if |b| > 0 && a[0] == b[0] && SubsequenceOf(a[1..], b[1..]) {
        if b[0] == c[0] && SubsequenceOf(b[1..], c[1..]) {
          SubsequenceTrans(a[1..], b[1..], c[1..]);
        } else {
          SubsequenceTrans(a, b, c[1..]);
        }
      } else {
        if b[0] == c[0] && SubsequenceOf(b[1..], c[1..]) {
          SubsequenceTrans(a, b[1..], c[1..]);
        } else {
          SubsequenceTrans(a, b, c[1..]);
        }
      }
    }
  }

  /** `pieces.filter(p => /^#([0-9A-F]{3}){1,2}$/i.test(p))`. */
  function KeepShortOrLongHex(pieces: seq<string>): (r: seq<string>)
    ensures forall k | 0 <= k < |r| :: IsShortOrLongHex(r[k])
    ensures forall k | 0 <= k < |pieces| :: IsShortOrLongHex(pieces[k]) ==> pieces[k] in r
    ensures SubsequenceOf(r, pieces)
  {
    if |pieces| == 0 then []
    else
      var rest := KeepShortOrLongHex(pieces[1..]);
      assert forall k | 1 <= k < |pieces| :: pieces[k] == pieces[1..][k - 1];
      if IsShortOrLongHex(pieces[0]) then [pieces[0]] + rest else rest
  }

  /**
   * Every piece of that form is kept as often as it occurs and no other is
   * kept; with the order kept, this is the filter exactly.
   */
  lemma {:induction false} KeepShortOrLongHexCounts(pieces: seq<string>, x: string)
    ensures multiset(KeepShortOrLongHex(pieces))[x] == if IsShortOrLongHex(x) then multiset(pieces)[x] else 0
    decreases |pieces|
  {
    if |pieces| > 0 {
      KeepShortOrLongHexCounts(pieces[1..], x);
      assert pieces == [pieces[0]] + pieces[1..];
      assert multiset(pieces) == multiset{pieces[0]} + multiset(pieces[1..]);
    }
  }

  /** `lo <= i` and the piece at `i` is the first of three or six hex digits from `lo` on. */
  predicate FirstShortOrLongHexFrom(pieces: seq<string>, lo: nat, i: nat) {
    lo <= i < |pieces| && IsShortOrLongHex(pieces[i]) && forall j | lo <= j < i :: !IsShortOrLongHex(pieces[j])
  }

  /** The first kept piece is the first piece of that form; the others are kept from the pieces after it. */
  lemma {:induction false} KeepFirst(pieces: seq<string>) returns (i: nat)
    requires |KeepShortOrLongHex(pieces)| > 0
    ensures FirstShortOrLongHexFrom(pieces, 0, i) && KeepShortOrLongHex(pieces)[0] == pieces[i]
    ensures KeepShortOrLongHex(pieces)[1..] == KeepShortOrLongHex(pieces[i + 1..])
    decreases |pieces|
  {
    if IsShortOrLongHex(pieces[0]) {
      i := 0;
    } else {
      var i' := KeepFirst(pieces[1..]);
      i := i' + 1;
      assert pieces[1..][i' + 1..] == pieces[i + 1..];
      assert forall j | 1 <= j < i :: pieces[j] == pieces[1..][j - 1];
    }
  }

  /** `pieces.filter(p => /^#([0-9a-fA-F]{3,8})$/.test(p))`. */
  function KeepSingleColors(pieces: seq<string>): (r: seq<string>)
    ensures forall k | 0 <= k < |r| :: IsSingleColor(r[k])
    ensures (forall k | 0 <= k < |pieces| :: IsSingleColor(pieces[k])) ==> r == pieces
    ensures SubsequenceOf(r, pieces)
  {
    if |pieces| == 0 then []
    else
      var rest := KeepSingleColors(pieces[1..]);
      assert forall k | 1 <= k < |pieces| :: pieces[k] == pieces[1..][k - 1];
      if IsSingleColor(pieces[0]) then
        assert pieces == [pieces[0]] + pieces[1..];
        [pieces[0]] + rest
      else rest
  }

  /** `s.slice(0, 2)`. */
  function FirstTwo(s: seq<string>): (r: seq<string>)
    ensures |r| <= 2 && |r| <= |s| && r == s[..|r|]
    ensures r == [] <==> s == []
  {
    if |s| <= 2 then s else s[..2]
  }

  /** The pieces `extractHexColors` chooses from: the trimmed `/`-pieces. */
  function ColorPieces(value: string): seq<string> {
    TrimAll(Split(value, '/'))
  }

  /** `extractHexColors(value)`: the first two trimmed `/`-pieces with three or six hex digits. */
  function ExtractHexColors(value: string): seq<string> {
    FirstTwo(KeepShortOrLongHex(ColorPieces(value)))
  }

  /**
   * The first two kept pieces are the first piece of three or six hex
   * digits and the first such piece after it, and only one is kept exactly
   * when no such piece follows the first.
   */
  lemma FirstTwoKept(pieces: seq<string>)
    ensures var r := FirstTwo(KeepShortOrLongHex(pieces));
      |r| > 0 ==>
        exists i: nat | FirstShortOrLongHexFrom(pieces, 0, i) ::
          r[0] == pieces[i] &&
          (|r| == 1 <==> forall j | i < j < |pieces| :: !IsShortOrLongHex(pieces[j])) &&
          (|r| == 2 ==> exists i2: nat | FirstShortOrLongHexFrom(pieces, i + 1, i2) :: r[1] == pieces[i2])
  {
    var kept := KeepShortOrLongHex(pieces);
    var r := FirstTwo(kept);
    if |kept| > 0 {
      var i := KeepFirst(pieces);
      var after := pieces[i + 1..];
      assert forall j | i < j < |pieces| :: pieces[j] == after[j - i - 1];
      if |kept| > 1 {
        var i' := KeepFirst(after);
        assert FirstShortOrLongHexFrom(pieces, i + 1, i + 1 + i');
        assert r[1] == pieces[i + 1 + i'];
      } else {
        assert KeepShortOrLongHex(after) == [];
        forall j | i < j < |pieces| ensures !IsShortOrLongHex(pieces[j]) {
          assert pieces[j] == after[j - i - 1];
        }
      }
      assert FirstShortOrLongHexFrom(pieces, 0, i);
    }
  }

  /**
   * At most two colours, each of three or six hex digits, in the order of
   * the input, and none exactly when no piece has that form; the first is
   * the first piece of that form and the second the next one.
   */
  lemma ExtractHexColorsSpec(value: string)
    ensures var r := ExtractHexColors(value);
      |r| <= 2 &&
      (forall k | 0 <= k < |r| :: IsShortOrLongHex(r[k])) &&
      SubsequenceOf(r, ColorPieces(value)) &&
      (r == [] <==> forall k | 0 <= k < |ColorPieces(value)| :: !IsShortOrLongHex(ColorPieces(value)[k]))
    ensures var r, pieces := ExtractHexColors(value), ColorPieces(value);
      |r| > 0 ==>
        exists i: nat | FirstShortOrLongHexFrom(pieces, 0, i) ::
          r[0] == pieces[i] &&
          (|r| == 1 <==> forall j | i < j < |pieces| :: !IsShortOrLongHex(pieces[j])) &&
          (|r| == 2 ==> exists i2: nat | FirstShortOrLongHexFrom(pieces, i + 1, i2) :: r[1] == pieces[i2])
  {
    var pieces := ColorPieces(value);
    var kept := KeepShortOrLongHex(pieces);
    var r := FirstTwo(kept);
    assert SubsequenceOf(r, pieces) && (r == [] <==> forall k | 0 <= k < |pieces| :: !IsShortOrLongHex(pieces[k])) by {
      PrefixIsSubsequence(kept, |r|);
      SubsequenceTrans(r, kept, pieces);
      if |kept| > 0 {
        SubsequenceMember(kept, pieces, 0);
      }
    }
    FirstTwoKept(pieces);
  }

  lemma {:induction false} SubsequenceMember(a: seq<string>, b: seq<string>, i: nat)
    requires SubsequenceOf(a, b) && i < |a|
    ensures a[i] in b
    decreases |b|
  {
    if a[0] == b[0] && SubsequenceOf(a[1..], b[1..]) {
      if i > 0 {
        SubsequenceMember(a[1..], b[1..], i - 1);
      }
    } else {
      SubsequenceMember(a, b[1..], i);
    }
  }

  /** `a.join(", ")`. */
  function JoinComma(parts: seq<string>): string {
    if |parts| == 0 then ""
    else if |parts| == 1 then parts[0]
    else parts[0] + ", " + JoinComma(parts[1..])
  }

  /** The CSS background of a swatch: the colour itself, a 45° half split, or a 90° gradient. */
  function SwatchBackground(colors: seq<string>): string {
    if |colors| == 1 then colors[0]
    else if |colors| == 2 then "linear-gradient(45deg, " + colors[0] + " 50%, " + colors[1] + " 50%)"
    else "linear-gradient(90deg, " + JoinComma(colors) + ")"
  }

  /** Each part appears in the comma-joined list, at the returned position. */
  lemma {:induction false} JoinCommaAt(parts: seq<string>, i: nat) returns (p: nat)
    requires i < |parts|
    ensures p + |parts[i]| <= |JoinComma(parts)| && JoinComma(parts)[p..p + |parts[i]|] == parts[i]
  {
    if i == 0 {
      p := 0;
      if |parts| > 1 {
        assert JoinComma(parts)[..|parts[0]|] == parts[0];
      }
    } else {
      var q := JoinCommaAt(parts[1..], i - 1);
      var pre := parts[0] + ", ";
      p := |pre| + q;
      assert JoinComma(parts) == pre + JoinComma(parts[1..]);
      assert JoinComma(parts)[p..p + |parts[i]|] == JoinComma(parts[1..])[q..q + |parts[i]|];
    }
  }

  /** Every colour of a swatch is drawn in its background. */
  lemma SwatchShowsEveryColor(colors: seq<string>, i: nat)
    requires i < |colors|
    ensures Includes(SwatchBackground(colors), colors[i])
  {
    var b := SwatchBackground(colors);
    if |colors| == 1 {
      assert b[0..|colors[0]|] == colors[0];
      IncludesAt(b, colors[i], 0);
    } else if |colors| == 2 {
      var pre := "linear-gradient(45deg, ";
      var mid := " 50%, ";
      var at := if i == 0 then |pre| else |pre| + |colors[0]| + |mid|;
      assert b[at..at + |colors[i]|] == colors[i];
      IncludesAt(b, colors[i], at);
    } else {
      var pre := "linear-gradient(90deg, ";
      var q := JoinCommaAt(colors, i);
      assert b == pre + JoinComma(colors) + ")";
      assert b[|pre| + q..|pre| + q + |colors[i]|] == JoinComma(colors)[q..q + |colors[i]|];
      IncludesAt(b, colors[i], |pre| + q);
    }
  }

  /** A single colour has neither leading nor trailing whitespace. */
  lemma TrimOfSingleColor(c: string)
    requires IsSingleColor(c)
    ensures Trim(c) == c
  {
    assert IsHexDigit(c[|c| - 1]);
  }

  lemma {:induction false} TrimAllOfSingleColors(pieces: seq<string>)
    requires forall k | 0 <= k < |pieces| :: IsSingleColor(pieces[k])
    ensures TrimAll(pieces) == pieces
  {
    forall k | 0 <= k < |pieces|
      ensures TrimAll(pieces)[k] == pieces[k]
    {
      TrimOfSingleColor(pieces[k]);
    }
  }

  /**
   * Padding a string with separator-free text on either side pads its first
   * and its last piece, and leaves the number of pieces alone.
   */
  lemma PaddedPieces(pre: string, t: string, post: string, sep: char)
    requires sep !in pre && sep !in post
    ensures |Split(pre + t + post, sep)| == |Split(t, sep)|
    ensures var p, q := Split(t, sep), Split(pre + t + post, sep);
      forall k | 0 <= k < |p| :: q[k] == (if k == 0 then pre else "") + p[k] + (if k == |p| - 1 then post else "")
  {
    var p := Split(t, sep);
    var n := |p|;
    SplitAppend(t, post, sep);
    var y := Split(t + post, sep);
    assert pre + t + post == pre + (t + post);
    SplitPrepend(pre, t + post, sep);
    var q := Split(pre + t + post, sep);
    assert q == [pre + y[0]] + y[1..];
    forall k | 0 <= k < n
      ensures q[k] == (if k == 0 then pre else "") + p[k] + (if k == n - 1 then post else "")
    {
      if k == 0 && n == 1 {
        assert y[0] == p[0] + post;
        assert pre + (p[0] + post) == pre + p[0] + post;
      } else if k == 0 {
        assert y[0] == p[0];
        assert pre + p[0] + "" == pre + p[0];
      } else if k < n - 1 {
        assert q[k] == y[k] == p[k];
        assert "" + p[k] + "" == p[k];
      } else {
        assert q[k] == y[k] == p[n - 1] + post;
        assert "" + p[k] + post == p[k] + post;
      }
    }
  }

  /**
   * Trimming every `/`-piece gives the same pieces whether or not the whole
   * value was trimmed first: only the first and the last piece differ, and
   * only by whitespace.
   */
  lemma TrimAllSplitTrim(v: string)
    ensures TrimAll(Split(v, '/')) == TrimAll(Split(Trim(v), '/'))
  {
    var pre, post := TrimDecomposes(v);
    var t := Trim(v);
    PaddedPieces(pre, t, post, '/');
    TrimPadded(pre, post, Split(t, '/'), Split(v, '/'));
  }

  /** Pieces that differ only by whitespace padding at the two ends trim alike. */
  lemma TrimPadded(pre: string, post: string, p: seq<string>, q: seq<string>)
    requires AllWhitespace(pre) && AllWhitespace(post) && |q| == |p|
    requires forall k | 0 <= k < |p| :: q[k] == (if k == 0 then pre else "") + p[k] + (if k == |p| - 1 then post else "")
    ensures TrimAll(q) == TrimAll(p)
  {
    forall k | 0 <= k < |p|
      ensures Trim(q[k]) == Trim(p[k])
    {
      TrimAround(if k == 0 then pre else "", p[k], if k == |p| - 1 then post else "");
    }
  }

  /** The `/`-pieces of a single or multi-colour text are single colours, one of them exactly for a single colour. */
  lemma ColorTextPieces(t: string)
    requires IsSingleColor(t) || IsMultiColor(t)
    ensures forall k | 0 <= k < |Split(t, '/')| :: IsSingleColor(Split(t, '/')[k])
    ensures TrimAll(Split(t, '/')) == Split(t, '/')
    ensures |Split(t, '/')| == 1 <==> IsSingleColor(t)
  {
    var pieces := Split(t, '/');
    if IsSingleColor(t) {
      SingleHasNoSlash(t);
      SplitNoSeparator(t, '/');
      assert pieces == [t];
    }
    TrimAllOfSingleColors(pieces);
  }

  /**
   * For a value the colour patterns accept once trimmed, the trimmed
   * `/`-pieces are the pieces of the trimmed value, each a single colour,
   * with one piece exactly when the value is a single colour.
   */
  lemma ColorValuePieces(v: string)
    requires IsSingleColor(Trim(v)) || IsMultiColor(Trim(v))
    ensures ColorPieces(v) == Split(Trim(v), '/')
    ensures forall k | 0 <= k < |ColorPieces(v)| :: IsSingleColor(ColorPieces(v)[k])
    ensures |ColorPieces(v)| == 1 <==> IsSingleColor(Trim(v))
  {
    TrimAllSplitTrim(v);
    ColorTextPieces(Trim(v));
  }

  lemma SingleHasNoSlash(s: string)
    requires IsSingleColor(s)
    ensures '/' !in s
  {
    forall k | 0 <= k < |s| ensures s[k] != '/' {
      if k > 0 { assert IsHexDigit(s[k]); }
    }
  }

  /** A single colour holds no `/`, so it is never also a multi-colour value. */
  lemma SingleIsNotMulti(s: string)
    requires IsSingleColor(s)
    ensures !IsMultiColor(s)
  {
    SingleHasNoSlash(s);
    SplitNoSeparator(s, '/');
  }
}
