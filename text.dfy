/** The string operations the generator borrows from Python's `str`: strip,
    replace, split/join, lower and the decimal rendering of an int inside an
    f-string. Each is a pure function here, with its defining properties proved. */
module Text {

  // ---------------------------------------------------------------------------
  // str.strip()
  // ---------------------------------------------------------------------------

  /** The characters for which Python's str.isspace() holds, which are the ones
      str.strip() without arguments removes from both ends. */
  predicate IsSpace(c: char) {
    c == ' ' || ('\t' <= c <= '\r') || ('\U{1C}' <= c <= '\U{1F}')
    || c == '\U{85}' || c == '\U{A0}' || c == '\U{1680}'
    || ('\U{2000}' <= c <= '\U{200A}') || c == '\U{2028}' || c == '\U{2029}'
    || c == '\U{202F}' || c == '\U{205F}' || c == '\U{3000}'
  }

  predicate AllSpace(s: string) {
    forall i :: 0 <= i < |s| ==> IsSpace(s[i])
  }

  /** The first index at or after `i` that does not hold whitespace (or |s|). */
  function SkipSpace(s: string, i: nat): (r: nat)
    requires i <= |s|
    ensures i <= r <= |s|
    ensures forall k :: i <= k < r ==> IsSpace(s[k])
    ensures r < |s| ==> !IsSpace(s[r])
    decreases |s| - i
  {
    if i < |s| && IsSpace(s[i]) then SkipSpace(s, i + 1) else i
  }

  /** The smallest end at or below `j`, and above `lo`, such that everything
      from it up to `j` is whitespace. */
  function SkipSpaceBack(s: string, lo: nat, j: nat): (r: nat)
    requires lo <= j <= |s|
    ensures lo <= r <= j
    ensures forall k :: r <= k < j ==> IsSpace(s[k])
    ensures r > lo ==> !IsSpace(s[r - 1])
    decreases j
  {
    if j > lo && IsSpace(s[j - 1]) then SkipSpaceBack(s, lo, j - 1) else j
  }

  /** Where the stripped text starts inside `s`. */
  function StripStart(s: string): nat
  {
    SkipSpace(s, 0)
  }

  /** str.strip(): `s` without its leading and trailing whitespace. */
  function Strip(s: string): string
  {
    var a := SkipSpace(s, 0);
    s[a..SkipSpaceBack(s, a, |s|)]
  }

  /** The stripped text is the piece of `s` starting at StripStart(s), everything
      cut off on either side is whitespace, and the piece neither starts nor
      ends with whitespace. */
  lemma StripSpec(s: string)
    ensures var r := Strip(s);
      && StripStart(s) + |r| <= |s|
      && r == s[StripStart(s)..StripStart(s) + |r|]
      && (forall i :: 0 <= i < |s| && !(StripStart(s) <= i < StripStart(s) + |r|) ==> IsSpace(s[i]))
      && (r != [] ==> !IsSpace(r[0]) && !IsSpace(r[|r| - 1]))
  {
    var a := SkipSpace(s, 0);
    var b := SkipSpaceBack(s, a, |s|);
    assert a < |s| ==> b > a;
  }

  /** Nothing is left of `s` exactly when it is all whitespace. */
  lemma StripEmpty(s: string)
    ensures Strip(s) == [] <==> AllSpace(s)
  {
    var a := SkipSpace(s, 0);
    var b := SkipSpaceBack(s, a, |s|);
    assert a < |s| ==> b > a;
  }

  // ---------------------------------------------------------------------------
  // str.replace(old, new), str.split(sep), sep.join(parts)
  // ---------------------------------------------------------------------------

  /** `pat` occurs somewhere in `s`. */
  predicate Occurs(s: string, pat: string)
    decreases |s|
  {
    pat <= s || (s != [] && Occurs(s[1..], pat))
  }

  /** str.replace(pat, rep) for a non-empty `pat`: scanning from the left, every
      non-overlapping occurrence of `pat` is replaced by `rep`. */
  function Replace(s: string, pat: string, rep: string): string
    requires pat != []
    decreases |s|
  {
    if s == [] then []
    else if pat <= s then rep + Replace(s[|pat|..], pat, rep)
    else [s[0]] + Replace(s[1..], pat, rep)
  }

  /** str.split(sep) for a non-empty `sep`: the pieces between the occurrences
      of `sep` found by the same left-to-right scan as Replace. */
  function Split(s: string, sep: string): (r: seq<string>)
    requires sep != []
    ensures |r| >= 1
    decreases |s|
  {
    if s == [] then [[]]
    else if sep <= s then [[]] + Split(s[|sep|..], sep)
    else
      var t := Split(s[1..], sep);
      [[s[0]] + t[0]] + t[1..]
  }

  /** The first piece is where `s` starts. */
  lemma {:induction false} SplitFirstIsPrefix(s: string, sep: string)
    requires sep != []
    ensures Split(s, sep)[0] <= s
    decreases |s|
  {
    if s != [] && !(sep <= s) {
      SplitFirstIsPrefix(s[1..], sep);
    }
  }

  /** No piece contains the separator: split cuts at every occurrence. */
  lemma {:induction false} SplitPiecesFree(s: string, sep: string)
    requires sep != []
    ensures forall i :: 0 <= i < |Split(s, sep)| ==> !Occurs(Split(s, sep)[i], sep)
    decreases |s|
  {
    if s == [] {
    } else if sep <= s {
      SplitPiecesFree(s[|sep|..], sep);
    } else {
      var t := Split(s[1..], sep);
      SplitPiecesFree(s[1..], sep);
      SplitFirstIsPrefix(s[1..], sep);
      var first := [s[0]] + t[0];
      assert first[1..] == t[0];
      assert first <= s;
      assert !(sep <= first);
      assert !Occurs(first, sep);
      assert Split(s, sep) == [first] + t[1..];
    }
  }

  /** sep.join(parts). */
  function Join(parts: seq<string>, sep: string): string
  {
    if parts == [] then []
    else if |parts| == 1 then parts[0]
    else parts[0] + sep + Join(parts[1..], sep)
  }

  /** Replacing a pattern that does not occur leaves the string unchanged. */
  lemma {:induction false} ReplaceAbsent(s: string, pat: string, rep: string)
    requires pat != [] && !Occurs(s, pat)
    ensures Replace(s, pat, rep) == s
  {
    if s != [] {
      ReplaceAbsent(s[1..], pat, rep);
    }
  }

  /** Replacing a pattern by itself is the identity. */
  lemma {:induction false} ReplaceSelf(s: string, pat: string)
    requires pat != []
    ensures Replace(s, pat, pat) == s
  {
    if s != [] {
      if pat <= s {
        ReplaceSelf(s[|pat|..], pat);
        assert s == pat + s[|pat|..];
      } else {
        ReplaceSelf(s[1..], pat);
        assert s == [s[0]] + s[1..];
      }
    }
  }

  /** Replacing a one-character pattern by text that does not contain that
      character leaves no occurrence of it. */
  lemma {:induction false} ReplaceRemovesChar(s: string, c: char, rep: string)
    requires c !in rep
    ensures c !in Replace(s, [c], rep)
  {
    if s != [] {
      ReplaceRemovesChar(s[|[c]|..], c, rep);
      ReplaceRemovesChar(s[1..], c, rep);
    }
  }

  /** The identity Python documents for replace: s.replace(p, r) == r.join(s.split(p)). */
  lemma {:induction false} ReplaceIsJoinOfSplit(s: string, pat: string, rep: string)
    requires pat != []
    ensures Replace(s, pat, rep) == Join(Split(s, pat), rep)
    decreases |s|
  {
    if s == [] {
    } else if pat <= s {
      var t := Split(s[|pat|..], pat);
      ReplaceIsJoinOfSplit(s[|pat|..], pat, rep);
      assert Split(s, pat) == [[]] + t;
      assert Join([[]] + t, rep) == [] + rep + Join(t, rep);
    } else {
      var t := Split(s[1..], pat);
      ReplaceIsJoinOfSplit(s[1..], pat, rep);
      JoinExtendFirst([s[0]], t, rep);
    }
  }

  /** Prepending text to the first piece prepends it to the joined string. */
  lemma JoinExtendFirst(x: string, t: seq<string>, sep: string)
    requires |t| >= 1
    ensures Join([x + t[0]] + t[1..], sep) == x + Join(t, sep)
  {
    var u := [x + t[0]] + t[1..];
    if |t| > 1 {
      assert u[1..] == t[1..];
      assert Join(u, sep) == x + t[0] + sep + Join(t[1..], sep);
    }
  }

  /** Splitting and joining with the same separator gives back the string. */
  lemma JoinOfSplit(s: string, sep: string)
    requires sep != []
    ensures Join(Split(s, sep), sep) == s
  {
    ReplaceIsJoinOfSplit(s, sep, sep);
    ReplaceSelf(s, sep);
  }

  /** Joining with a one-character separator that no piece contains, then
      splitting on it, gives back the pieces. */
  lemma {:induction false} SplitOfJoin(parts: seq<string>, c: char)
    requires |parts| >= 1
    requires forall i :: 0 <= i < |parts| ==> c !in parts[i]
    ensures Split(Join(parts, [c]), [c]) == parts
  {
    if |parts| == 1 {
      SplitPiece(parts[0], c);
    } else {
      SplitOfJoin(parts[1..], c);
      SplitPieceThen(parts[0], c, Join(parts[1..], [c]));
      assert parts == [parts[0]] + parts[1..];
    }
  }

  lemma {:induction false} SplitPiece(p: string, c: char)
    requires c !in p
    ensures Split(p, [c]) == [p]
  {
    if p != [] {
      SplitPiece(p[1..], c);
      assert p == [p[0]] + p[1..];
    }
  }

  lemma {:induction false} SplitPieceThen(p: string, c: char, x: string)
    requires c !in p
    ensures Split(p + [c] + x, [c]) == [p] + Split(x, [c])
  {
    if p == [] {
      assert p + [c] + x == [c] + x;
      assert ([c] + x)[|[c]|..] == x;
    } else {
      var s := p + [c] + x;
      assert s[0] == p[0] && !([c] <= s);
      assert s[1..] == p[1..] + [c] + x;
      SplitPieceThen(p[1..], c, x);
      var t := Split(s[1..], [c]);
      assert t == [p[1..]] + Split(x, [c]);
      assert Split(s, [c]) == [[s[0]] + t[0]] + t[1..];
      assert [p[0]] + p[1..] == p;
    }
  }

  /** The joined string starts with the first piece. */
  lemma {:induction false} JoinStartsWith(parts: seq<string>, sep: string)
    requires |parts| >= 1
    ensures parts[0] <= Join(parts, sep)
  {
  }

  /** The joined string ends with the last piece. */
  lemma {:induction false} JoinEndsWith(parts: seq<string>, sep: string)
    requires |parts| >= 1
    ensures var j := Join(parts, sep); var last := parts[|parts| - 1];
      |last| <= |j| && j[|j| - |last|..] == last
  {
    if |parts| > 1 {
      JoinEndsWith(parts[1..], sep);
      var j := Join(parts, sep);
      var rest := Join(parts[1..], sep);
      assert j == (parts[0] + sep) + rest;
      assert j[|j| - |rest|..] == rest;
    }
  }

  // ---------------------------------------------------------------------------
  // str.lower()
  // ---------------------------------------------------------------------------

  function LowerChar(c: char): char {
    if 'A' <= c <= 'Z' then (c as int + 32) as char else c
  }

  /** str.lower() on the ASCII letters; every other character is kept. */
  function Lower(s: string): (r: string)
    ensures |r| == |s|
    ensures forall i :: 0 <= i < |s| ==> r[i] == LowerChar(s[i])
    ensures forall i :: 0 <= i < |r| ==> !('A' <= r[i] <= 'Z')
  {
    if s == [] then [] else [LowerChar(s[0])] + Lower(s[1..])
  }

  // ---------------------------------------------------------------------------
  // str(n) for an int, as an f-string renders it
  // ---------------------------------------------------------------------------

  predicate IsDigit(c: char) {
    '0' <= c <= '9'
  }

  function DigitChar(d: nat): (c: char)
    requires d < 10
    ensures IsDigit(c) && c as int - '0' as int == d
  {
    ('0' as int + d) as char
  }

  /** The decimal digits of `n`, most significant first, without leading zeros. */
  function NatToStr(n: nat): (r: string)
    ensures r != []
    ensures forall i :: 0 <= i < |r| ==> IsDigit(r[i])
    ensures |r| > 1 ==> r[0] != '0'
    decreases n
  {
    if n < 10 then [DigitChar(n)] else NatToStr(n / 10) + [DigitChar(n % 10)]
  }

  /** str(n): a minus sign exactly for negative numbers, then the digits of |n|. */
  function IntToStr(n: int): (r: string)
    ensures r != []
    ensures (r[0] == '-') <==> n < 0
    ensures forall i :: (if n < 0 then 1 else 0) <= i < |r| ==> IsDigit(r[i])
    ensures var d := if n < 0 then 1 else 0; |r| > d && (|r| > d + 1 ==> r[d] != '0')
  {
    if n < 0 then "-" + NatToStr(-n) else NatToStr(n)
  }

  /** The value of a string of decimal digits. */
  function DigitsValue(s: string): nat
    requires forall i :: 0 <= i < |s| ==> IsDigit(s[i])
  {
    if s == [] then 0
    else 10 * DigitsValue(s[..|s| - 1]) + DigitValue(s[|s| - 1])
  }

  function DigitValue(c: char): nat
    requires IsDigit(c)
  {
    c as int - '0' as int
  }

  /** int(s) for an optional minus sign followed by digits. */
  function ParseInt(s: string): (v: int)
    requires s != []
    requires forall i :: (if s[0] == '-' then 1 else 0) <= i < |s| ==> IsDigit(s[i])
  {
    if s[0] == '-' then 0 - DigitsValue(s[1..]) else DigitsValue(s)
  }

  lemma {:induction false} DigitsValueOfNatToStr(n: nat)
    ensures DigitsValue(NatToStr(n)) == n
    decreases n
  {
    if n >= 10 {
      DigitsValueOfNatToStr(n / 10);
      var r := NatToStr(n);
      assert r[..|r| - 1] == NatToStr(n / 10);
    }
  }

  /** Reading back the rendered number gives the number: str(n) loses nothing. */
  lemma IntToStrRoundTrip(n: int)
    ensures ParseInt(IntToStr(n)) == n
  {
    if n < 0 {
      DigitsValueOfNatToStr(-n);
      assert IntToStr(n)[1..] == NatToStr(-n);
    } else {
      DigitsValueOfNatToStr(n);
    }
  }
}
