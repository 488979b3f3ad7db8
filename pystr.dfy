/**
 * The few Python `str` operations the pipeline relies on, with Python's
 * semantics written out: `str.isspace`, `strip`, `split()`, slicing and
 * `rfind` with Python's index normalisation, `sep.join` and `str(int)`.
 */
module PyStr {

  /**
   * `c.isspace()` in Python 3, which is also the class `\s` matches in a
   * `str` regular expression. The characters are those of Python's
   * `_PyUnicode_IsWhitespace` table: the C0 controls TAB to CR and FS to US,
   * SPACE, NEL, NO-BREAK SPACE, OGHAM SPACE MARK, EN QUAD to HAIR SPACE,
   * LINE and PARAGRAPH SEPARATOR, NARROW NO-BREAK SPACE, MEDIUM MATHEMATICAL
   * SPACE and IDEOGRAPHIC SPACE.
   */
  predicate IsSpace(c: char)
  {
    ('\U{9}' <= c <= '\U{D}') || ('\U{1C}' <= c <= '\U{20}') || c == '\U{85}' || c == '\U{A0}'
    || c == '\U{1680}' || ('\U{2000}' <= c <= '\U{200A}') || c == '\U{2028}' || c == '\U{2029}'
    || c == '\U{202F}' || c == '\U{205F}' || c == '\U{3000}'
  }

  predicate AllSpace(s: string)
  {
    forall i :: 0 <= i < |s| ==> IsSpace(s[i])
  }

  /** Length of the maximal whitespace prefix of `s`. */
  function LeadingSpaces(s: string): (n: nat)
    ensures n <= |s|
    ensures forall i :: 0 <= i < n ==> IsSpace(s[i])
    ensures n < |s| ==> !IsSpace(s[n])
  {
    if s == [] || !IsSpace(s[0]) then 0 else 1 + LeadingSpaces(s[1..])
  }

  /** Length of the maximal whitespace suffix of `s`. */
  function TrailingSpaces(s: string): (n: nat)
    ensures n <= |s|
    ensures forall i :: |s| - n <= i < |s| ==> IsSpace(s[i])
    ensures n < |s| ==> !IsSpace(s[|s| - 1 - n])
  {
    if s == [] || !IsSpace(s[|s| - 1]) then 0 else 1 + TrailingSpaces(s[..|s| - 1])
  }

  /** `s.lstrip()`. */
  function StripStart(s: string): string
  {
    if s != [] && IsSpace(s[0]) then StripStart(s[1..]) else s
  }

  /** `s.rstrip()`. */
  function StripEnd(s: string): string
  {
    if s != [] && IsSpace(s[|s| - 1]) then StripEnd(s[..|s| - 1]) else s
  }

  /** `s.strip()`: `s` without its whitespace prefix and suffix. */
  function Strip(s: string): string
  {
    StripEnd(StripStart(s))
  }

  lemma {:induction false} StripStartDropsLeadingSpaces(s: string)
    ensures StripStart(s) == s[LeadingSpaces(s)..]
  {
    if s != [] && IsSpace(s[0]) {
      StripStartDropsLeadingSpaces(s[1..]);
      assert s[1..][LeadingSpaces(s[1..])..] == s[1 + LeadingSpaces(s[1..])..];
    }
  }

  lemma {:induction false} StripEndDropsTrailingSpaces(s: string)
    ensures StripEnd(s) == s[..|s| - TrailingSpaces(s)]
  {
    if s != [] && IsSpace(s[|s| - 1]) {
      StripEndDropsTrailingSpaces(s[..|s| - 1]);
      assert s[..|s| - 1][..|s| - 1 - TrailingSpaces(s[..|s| - 1])] == s[..|s| - 1 - TrailingSpaces(s[..|s| - 1])];
    }
  }

  /** `strip` keeps the slice between the whitespace prefix and the whitespace suffix of what follows it. */
  lemma StripIsSlice(s: string)
    ensures var l := LeadingSpaces(s);
      && |Strip(s)| == |s| - l - TrailingSpaces(s[l..])
      && Strip(s) == s[l..l + |Strip(s)|]
  {
    var l := LeadingSpaces(s);
    var u := s[l..];
    StripStartDropsLeadingSpaces(s);
    StripEndDropsTrailingSpaces(u);
    assert Strip(s) == u[..|u| - TrailingSpaces(u)];
  }

  /**
   * What `strip` keeps: the slice of `s` that starts at its first non-space
   * character; everything outside that slice is whitespace, the slice
   * neither starts nor ends with whitespace, and it is empty exactly when
   * `s` is all whitespace.
   */
  lemma StripKeepsCore(s: string)
    ensures var r := Strip(s);
      && LeadingSpaces(s) + |r| <= |s| && r == s[LeadingSpaces(s)..LeadingSpaces(s) + |r|]
      && (forall i :: 0 <= i < |s| && !(LeadingSpaces(s) <= i < LeadingSpaces(s) + |r|) ==> IsSpace(s[i]))
      && (r != [] ==> !IsSpace(r[0]) && !IsSpace(r[|r| - 1]))
      && (r == [] <==> AllSpace(s))
  {
    var l := LeadingSpaces(s);
    var u := s[l..];
    var n := TrailingSpaces(u);
    StripIsSlice(s);
    var r := Strip(s);
    assert |r| == |u| - n;
    forall i | 0 <= i < |s| && !(l <= i < l + |r|)
      ensures IsSpace(s[i])
    {
      if i >= l {
        assert IsSpace(u[i - l]);
      }
    }
    if l < |s| {
      assert !IsSpace(u[0]);
    }
    if r != [] {
      assert r[0] == u[0];
      assert r[|r| - 1] == u[|u| - 1 - n];
    }
  }

  /** Python's normalisation of a slice or search bound `i` for a string of length `n`. */
  function Clamp(i: int, n: nat): (r: nat)
    ensures r <= n
    ensures 0 <= i <= n ==> r == i
    ensures i > n ==> r == n
    ensures i < 0 <= i + n ==> r == i + n
    ensures i + n < 0 ==> r == 0
  {
    if i < 0 then (if i + n < 0 then 0 else i + n)
    else if i > n then n
    else i
  }

  /** For `i <= j` the normalised bounds are never further apart than the raw ones. */
  lemma ClampSpread(i: int, j: int, n: nat)
    requires i <= j
    ensures Clamp(j, n) - Clamp(i, n) <= j - i
  {
  }

  /** `s[i:j]` in Python. */
  function Slice(s: string, i: int, j: int): (r: string)
    ensures Clamp(i, |s|) < Clamp(j, |s|) ==> r == s[Clamp(i, |s|)..Clamp(j, |s|)]
    ensures Clamp(i, |s|) >= Clamp(j, |s|) ==> r == []
  {
    var a, b := Clamp(i, |s|), Clamp(j, |s|);
    if a < b then s[a..b] else []
  }

  /** A slice of a slice is a slice of the original. */
  lemma SliceOfSlice(t: string, a: nat, b: nat, i: nat, j: nat)
    requires a <= b <= |t| && i <= j <= b - a
    ensures t[a..b][i..j] == t[a + i..a + j]
  {
    assert forall k :: 0 <= k < j - i ==> t[a..b][i..j][k] == t[a + i + k];
  }

  /** Highest index `k` in `[lo, hi)` with `s[k] == c`, or -1. */
  function LastIndexIn(s: string, c: char, lo: nat, hi: nat): int
    requires hi <= |s|
    decreases hi
  {
    if hi <= lo then -1
    else if s[hi - 1] == c then hi - 1
    else LastIndexIn(s, c, lo, hi - 1)
  }

  lemma {:induction false} LastIndexInIsLast(s: string, c: char, lo: nat, hi: nat)
    requires hi <= |s|
    ensures var k := LastIndexIn(s, c, lo, hi);
      && (k == -1 || (lo <= k < hi && s[k] == c))
      && (k == -1 ==> forall m :: lo <= m < hi ==> s[m] != c)
      && (k != -1 ==> forall m :: k < m < hi ==> s[m] != c)
    decreases hi
  {
    if hi > lo && s[hi - 1] != c {
      LastIndexInIsLast(s, c, lo, hi - 1);
    }
  }

  /** `s.rfind(c, i, j)`: the last occurrence of `c` inside `s[i:j]`, as an index of `s`, or -1. */
  function RFind(s: string, c: char, i: int, j: int): int
  {
    LastIndexIn(s, c, Clamp(i, |s|), Clamp(j, |s|))
  }

  /** `rfind` finds the last occurrence inside the normalised bounds, and -1 exactly when there is none. */
  lemma RFindIsLast(s: string, c: char, i: int, j: int)
    ensures var k, lo, hi := RFind(s, c, i, j), Clamp(i, |s|), Clamp(j, |s|);
      && (k == -1 || (lo <= k < hi && s[k] == c))
      && (k == -1 ==> forall m :: lo <= m < hi ==> s[m] != c)
      && (k != -1 ==> forall m :: k < m < hi ==> s[m] != c)
  {
    LastIndexInIsLast(s, c, Clamp(i, |s|), Clamp(j, |s|));
  }

  /** `s[:n]` for `n >= 0`. */
  function Prefix(s: string, n: nat): (r: string)
    ensures |r| == if |s| < n then |s| else n
    ensures r == s[..|r|]
  {
    if |s| <= n then s else s[..n]
  }

  /** Length of the maximal run of non-whitespace characters at the front of `s`. */
  function WordLength(s: string): (n: nat)
    ensures n <= |s|
    ensures forall i :: 0 <= i < n ==> !IsSpace(s[i])
    ensures n < |s| ==> IsSpace(s[n])
  {
    if s == [] || IsSpace(s[0]) then 0 else 1 + WordLength(s[1..])
  }

  /** `s.split()`: the maximal runs of non-whitespace characters, in order. */
  function Split(s: string): (words: seq<string>)
    ensures forall w :: w in words ==> w != [] && forall i :: 0 <= i < |w| ==> !IsSpace(w[i])
    decreases |s|
  {
    var a := LeadingSpaces(s);
    if a == |s| then []
    else
      var t := s[a..];
      var n := WordLength(t);
      [t[..n]] + Split(t[n..])
  }

  /** `sep.join(xs)`. */
  function Join(xs: seq<string>, sep: string): string
  {
    if |xs| == 0 then ""
    else if |xs| == 1 then xs[0]
    else Join(xs[..|xs| - 1], sep) + sep + xs[|xs| - 1]
  }

  /** A word of `split()`: non-empty, without whitespace. */
  predicate IsWord(w: string)
  {
    w != [] && forall i :: 0 <= i < |w| ==> !IsSpace(w[i])
  }

  /** `s` begins with a non-whitespace character, so `split()` finds a word at its front. */
  predicate StartsWord(s: string)
  {
    s != [] && !IsSpace(s[0])
  }

  /** A whitespace character in front changes nothing: `split()` skips it. */
  lemma SplitSkipsSpace(c: char, x: string)
    requires IsSpace(c)
    ensures Split([c] + x) == Split(x)
  {
    var s := [c] + x;
    assert s[1..] == x;
    var a := LeadingSpaces(x);
    assert LeadingSpaces(s) == 1 + a;
    if a < |x| {
      assert s[1 + a..] == x[a..];
    }
  }

  /**
   * A non-whitespace character in front becomes a word of its own when a
   * space or the end follows it, and otherwise joins the first word.
   */
  lemma SplitConsWord(c: char, x: string)
    requires !IsSpace(c)
    ensures !StartsWord(x) ==> Split([c] + x) == [[c]] + Split(x)
    ensures StartsWord(x) ==> Split([c] + x) == [[c] + Split(x)[0]] + Split(x)[1..]
  {
    var s := [c] + x;
    var m := WordLength(x);
    assert LeadingSpaces(s) == 0 && s[0..] == s;
    assert WordLength(s) == 1 + m;
    assert s[..1 + m] == [c] + x[..m];
    assert s[1 + m..] == x[m..];
    if StartsWord(x) {
      assert LeadingSpaces(x) == 0 && x[0..] == x;
    }
  }

  /** Texts with the same words that both start (or both do not start) with a word keep the same words under a common first character. */
  lemma SplitCons(c: char, x: string, y: string)
    requires Split(x) == Split(y) && (StartsWord(x) <==> StartsWord(y))
    ensures Split([c] + x) == Split([c] + y)
  {
    if IsSpace(c) {
      SplitSkipsSpace(c, x);
      SplitSkipsSpace(c, y);
    } else {
      SplitConsWord(c, x);
      SplitConsWord(c, y);
    }
  }

  /** A non-empty string is its first character in front of the rest. */
  lemma SplitFront(s: string)
    requires s != []
    ensures Split(s) == Split([s[0]] + s[1..])
  {
    assert s == [s[0]] + s[1..];
  }

  /** Text that starts with a word splits into that word and the words of the rest. */
  lemma SplitFirstWord(s: string)
    requires StartsWord(s)
    ensures WordLength(s) > 0 && Split(s) == [s[..WordLength(s)]] + Split(s[WordLength(s)..])
  {
    assert LeadingSpaces(s) == 0 && s[0..] == s;
  }

  /** A first word followed by one space and another word: the rest of the words come after that space. */
  lemma SplitAfterGap(s: string, n: nat)
    requires StartsWord(s) && n == WordLength(s) && n < |s| - 1 && StartsWord(s[n + 1..])
    ensures Split(s[n + 1..]) != []
    ensures Split(s) == [s[..n]] + Split(s[n + 1..])
  {
    SplitFirstWord(s);
    var v := s[n..];
    assert v[1..] == s[n + 1..];
    SplitSkipsLeadingSpaces(v);
    assert LeadingSpaces(v) == 1;
    SplitFirstWord(s[n + 1..]);
  }

  /** A string is its prefix, one character and its suffix. */
  lemma SplitAround(s: string, n: nat)
    requires n < |s|
    ensures s == s[..n] + ([s[n]] + s[n + 1..])
  {
  }

  /** `split()` skips the whitespace prefix. */
  lemma SplitSkipsLeadingSpaces(s: string)
    ensures Split(s) == Split(s[LeadingSpaces(s)..])
  {
    var u := s[LeadingSpaces(s)..];
    assert LeadingSpaces(u) == 0 && u[0..] == u;
  }

  /** Trailing whitespace adds no word, and does not change whether the text starts with one. */
  lemma {:induction false} SplitDropsTrailingSpaces(x: string, z: string)
    requires AllSpace(z)
    ensures Split(x + z) == Split(x)
    ensures StartsWord(x + z) <==> StartsWord(x)
  {
    if x == [] {
      assert x + z == z;
      assert LeadingSpaces(z) == |z|;
    } else {
      var y := x[1..];
      var xz := x + z;
      assert xz[0] == x[0] && xz[1..] == y + z;
      calc {
        Split(xz);
        { SplitFront(xz); }
        Split([x[0]] + (y + z));
        { SplitDropsTrailingSpaces(y, z); SplitCons(x[0], y + z, y); }
        Split([x[0]] + y);
        { SplitFront(x); }
        Split(x);
      }
    }
  }

  /** `strip` keeps the words. */
  lemma SplitIgnoresStrip(s: string)
    ensures Split(Strip(s)) == Split(s)
  {
    StripKeepsCore(s);
    var l := LeadingSpaces(s);
    var r := Strip(s);
    var tail := s[l + |r|..];
    assert AllSpace(tail) by {
      assert forall i :: 0 <= i < |tail| ==> tail[i] == s[l + |r| + i];
    }
    assert s[l..] == r + tail;
    SplitSkipsLeadingSpaces(s);
    SplitDropsTrailingSpaces(r, tail);
  }

  /** A word followed by whitespace or the end is the first word of the result. */
  lemma {:induction false} SplitWordThen(w: string, x: string)
    requires IsWord(w)
    requires !StartsWord(x)
    ensures Split(w + x) == [w] + Split(x)
    decreases |w|
  {
    var c, rest := w[0], w[1..];
    var y := rest + x;
    assert w + x == [c] + y;
    if rest == [] {
      assert y == x && w == [c];
      SplitConsWord(c, x);
    } else {
      assert StartsWord(y) by { assert y[0] == w[1]; }
      SplitWordThen(rest, x);
      SplitConsWord(c, y);
      assert w == [c] + rest;
    }
  }

  /** `sep.join([w] + ws)` is `w`, the separator and the join of the rest. */
  lemma {:induction false} JoinCons(w: string, ws: seq<string>, sep: string)
    requires ws != []
    ensures Join([w] + ws, sep) == w + (sep + Join(ws, sep))
    decreases |ws|
  {
    var xs := [w] + ws;
    if |ws| == 1 {
      assert xs[..1] == [w];
    } else {
      var init := ws[..|ws| - 1];
      var last := ws[|ws| - 1];
      JoinCons(w, init, sep);
      assert xs[..|xs| - 1] == [w] + init;
      assert Join(xs, sep) == w + (sep + Join(init, sep)) + sep + last;
      assert Join(ws, sep) == Join(init, sep) + sep + last;
    }
  }

  /** Joining words with single spaces and splitting again gives back the words. */
  lemma {:induction false} SplitJoinRoundTrip(ws: seq<string>)
    requires forall k :: 0 <= k < |ws| ==> IsWord(ws[k])
    ensures Split(Join(ws, " ")) == ws
  {
    if ws != [] {
      var w, rest := ws[0], ws[1..];
      assert ws == [w] + rest;
      if rest == [] {
        assert Join(ws, " ") == w + [];
        SplitWordThen(w, []);
      } else {
        assert forall k :: 0 <= k < |rest| ==> rest[k] == ws[k + 1];
        SplitJoinRoundTrip(rest);
        JoinCons(w, rest, " ");
        var j := Join(rest, " ");
        var tail := " " + j;
        SplitWordThen(w, tail);
        SplitSkipsSpace(' ', j);
      }
    }
  }

  /** `c` occurs in `t` at offset `i`. */
  predicate OccursAt(c: string, t: string, i: nat)
  {
    i + |c| <= |t| && t[i..i + |c|] == c
  }

  /** `c in t` for strings: `c` is a contiguous substring of `t`. */
  predicate IsInfix(c: string, t: string)
  {
    exists i: nat | i <= |t| :: OccursAt(c, t, i)
  }

  /** A substring of `m` is a substring of any string that contains `m`. */
  lemma InfixInContext(c: string, a: string, m: string, z: string)
    requires IsInfix(c, m)
    ensures IsInfix(c, a + m + z)
  {
    var k: nat :| k <= |m| && OccursAt(c, m, k);
    var t := a + m + z;
    assert t[|a| + k..|a| + k + |c|] == m[k..k + |c|];
    assert OccursAt(c, t, |a| + k);
  }

  /** A substring of `m` is a substring of `a + m`. */
  lemma InfixInSuffix(c: string, a: string, m: string)
    requires IsInfix(c, m)
    ensures IsInfix(c, a + m)
  {
    var k: nat :| k <= |m| && OccursAt(c, m, k);
    assert (a + m)[|a| + k..|a| + k + |c|] == m[k..k + |c|];
    assert OccursAt(c, a + m, |a| + k);
  }

  /** Each joined part occurs in the joined string. */
  lemma {:induction false} JoinContainsParts(xs: seq<string>, sep: string, k: nat)
    requires k < |xs|
    ensures IsInfix(xs[k], Join(xs, sep))
    decreases |xs|
  {
    var n := |xs|;
    if n > 1 {
      var init := Join(xs[..n - 1], sep);
      var all := Join(xs, sep);
      assert all == init + sep + xs[n - 1];
      if k == n - 1 {
        assert all[|init + sep|..|all|] == xs[n - 1];
        assert OccursAt(xs[k], all, |init + sep|);
      } else {
        JoinContainsParts(xs[..n - 1], sep, k);
        var p: nat :| p <= |init| && OccursAt(xs[k], init, p);
        assert all[p..p + |xs[k]|] == init[p..p + |xs[k]|];
        assert OccursAt(xs[k], all, p);
      }
    } else {
      assert OccursAt(xs[k], Join(xs, sep), 0);
    }
  }

  function DigitChar(d: nat): (c: char)
    requires d < 10
    ensures '0' <= c <= '9'
  {
    "0123456789"[d]
  }

  /** `str(n)` for a non-negative integer: its decimal digits, without leading zeros. */
  function NatToString(n: nat): (r: string)
    ensures r != []
    ensures forall i :: 0 <= i < |r| ==> '0' <= r[i] <= '9'
    ensures |r| > 1 ==> r[0] != '0'
    decreases n
  {
    if n < 10 then [DigitChar(n)] else NatToString(n / 10) + [DigitChar(n % 10)]
  }

  /** `str(i)` for any integer. */
  function IntToString(i: int): string
  {
    if i < 0 then "-" + NatToString(-i) else NatToString(i)
  }

  /** `str(i)` loses nothing: a minus sign exactly for negative `i`, then the digits of its magnitude. */
  lemma IntToStringRoundTrip(i: int)
    ensures IntToString(i) != []
    ensures IntToString(i)[0] == '-' <==> i < 0
    ensures i >= 0 ==> ParseDigits(IntToString(i)) == i
    ensures i < 0 ==> IntToString(i)[1..] == NatToString(-i) && ParseDigits(IntToString(i)[1..]) == -i
  {
    if i < 0 {
      var s, t := IntToString(i), NatToString(-i);
      assert s == "-" + t;
      assert s[1..] == t;
      NatToStringRoundTrip(-i);
      assert ParseDigits(s[1..]) == ParseDigits(t);
    } else {
      NatToStringRoundTrip(i);
    }
  }

  /** Reads back a string of decimal digits. */
  function ParseDigits(s: string): nat
    requires forall i :: 0 <= i < |s| ==> '0' <= s[i] <= '9'
  {
    if s == [] then 0
    else 10 * ParseDigits(s[..|s| - 1]) + ((s[|s| - 1] as int) - ('0' as int))
  }

  /** `str(n)` loses nothing: reading the digits back gives `n`, so distinct numbers print differently. */
  lemma {:induction false} NatToStringRoundTrip(n: nat)
    ensures ParseDigits(NatToString(n)) == n
    decreases n
  {
    if n >= 10 {
      var s := NatToString(n);
      assert s[..|s| - 1] == NatToString(n / 10);
      NatToStringRoundTrip(n / 10);
    }
  }
}
