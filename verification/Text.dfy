/** The string operations of the Rust standard library that the modelled code relies on. */
module Text {
  import opened Options

  // ---------------------------------------------------------------- trim

  /** Unicode `White_Space`, which `str::trim` strips. */
  predicate IsWhitespace(c: char) {
    || '\t' <= c <= '\r' || c == ' ' || c == '\U{85}' || c == '\U{A0}' || c == '\U{1680}'
    || '\U{2000}' <= c <= '\U{200A}' || c == '\U{2028}' || c == '\U{2029}'
    || c == '\U{202F}' || c == '\U{205F}' || c == '\U{3000}'
  }

  /** The first position at or after `i` that holds no whitespace. */
  function SkipSpace(s: string, i: nat): (k: nat)
    requires i <= |s|
    ensures i <= k <= |s|
    decreases |s| - i
  {
    if i < |s| && IsWhitespace(s[i]) then SkipSpace(s, i + 1) else i
  }

  /** The end of `s[..i]` once trailing whitespace is dropped. */
  function DropSpace(s: string, i: nat): (k: nat)
    requires i <= |s|
    ensures k <= i
  {
    if i > 0 && IsWhitespace(s[i - 1]) then DropSpace(s, i - 1) else i
  }

  /** `str::trim`. */
  function Trim(s: string): string {
    var from := SkipSpace(s, 0);
    var to := DropSpace(s, |s|);
    if from <= to then s[from..to] else ""
  }

  lemma {:induction false} SkipSpaceStops(s: string, i: nat)
    requires i <= |s|
    ensures var k := SkipSpace(s, i);
      && (forall j :: i <= j < k ==> IsWhitespace(s[j])) && (k < |s| ==> !IsWhitespace(s[k]))
    decreases |s| - i
  {
    if i < |s| && IsWhitespace(s[i]) {
      SkipSpaceStops(s, i + 1);
    }
  }

  lemma {:induction false} DropSpaceStops(s: string, i: nat)
    requires i <= |s|
    ensures var k := DropSpace(s, i);
      && (forall j :: k <= j < i ==> IsWhitespace(s[j])) && (k > 0 ==> !IsWhitespace(s[k - 1]))
  {
    if i > 0 && IsWhitespace(s[i - 1]) {
      DropSpaceStops(s, i - 1);
    }
  }

  /** Trimming strips whitespace only, and all of it, at both ends. */
  lemma {:induction false} TrimStrips(s: string) returns (from: nat, to: nat)
    ensures from <= to <= |s| && Trim(s) == s[from..to]
    ensures forall j :: 0 <= j < from || to <= j < |s| ==> IsWhitespace(s[j])
    ensures from < to ==> !IsWhitespace(s[from]) && !IsWhitespace(s[to - 1])
  {
    from, to := SkipSpace(s, 0), DropSpace(s, |s|);
    SkipSpaceStops(s, 0);
    DropSpaceStops(s, |s|);
    if from > to {
      to := from;
    }
  }

  lemma TrimIsIdentity(s: string)
    requires s != "" ==> !IsWhitespace(s[0]) && !IsWhitespace(s[|s| - 1])
    ensures Trim(s) == s
  {}

  // ---------------------------------------------------------------- find and split

  predicate PairAt(s: string, c: char, k: int) {
    0 <= k && k + 2 <= |s| && s[k] == c && s[k + 1] == c
  }

  /** The first position at or after `from` where `cc` occurs in `s`. */
  function FindPairFrom(s: string, c: char, from: nat): Option<nat>
    requires from <= |s|
    decreases |s| - from
  {
    if from + 2 > |s| then None
    else if s[from] == c && s[from + 1] == c then Some(from)
    else FindPairFrom(s, c, from + 1)
  }

  /** `str::find` of a doubled character. */
  function FindPair(s: string, c: char): (r: Option<nat>)
    ensures r.Some? ==> r.value + 2 <= |s|
  {
    FindPairBounds(s, c, 0);
    FindPairFrom(s, c, 0)
  }

  lemma {:induction false} FindPairBounds(s: string, c: char, from: nat)
    requires from <= |s|
    ensures var r := FindPairFrom(s, c, from);
      && (r.Some? ==> from <= r.value && PairAt(s, c, r.value) && forall k :: from <= k < r.value ==> !PairAt(s, c, k))
      && (r.None? ==> forall k :: from <= k ==> !PairAt(s, c, k))
    decreases |s| - from
  {
    if from + 2 <= |s| && !PairAt(s, c, from) {
      FindPairBounds(s, c, from + 1);
    }
  }

  /** The pair found is the first one, and none is missed. */
  lemma FindPairIsFirst(s: string, c: char)
    ensures FindPair(s, c).Some? ==>
      PairAt(s, c, FindPair(s, c).value) && forall k :: 0 <= k < FindPair(s, c).value ==> !PairAt(s, c, k)
    ensures FindPair(s, c).None? ==> forall k :: !PairAt(s, c, k)
  {
    FindPairBounds(s, c, 0);
  }

  /** The first position holding `cc` is what `FindPair` returns. */
  lemma FindPairUnique(s: string, c: char, i: nat)
    requires PairAt(s, c, i) && forall k :: 0 <= k < i ==> !PairAt(s, c, k)
    ensures FindPair(s, c) == Some(i)
  {
    FindPairIsFirst(s, c);
    assert FindPair(s, c).Some?;
    assert FindPair(s, c).value == i;
  }

  /** `str::split_once` with a one-character separator: cut at the first occurrence. */
  function SplitOnce(s: string, c: char): Option<(string, string)> {
    if s == "" then None
    else if s[0] == c then Some(("", s[1..]))
    else
      match SplitOnce(s[1..], c)
      case None => None
      case Some((a, b)) => Some(([s[0]] + a, b))
  }

  lemma {:induction false} SplitOnceCuts(s: string, c: char)
    ensures var r := SplitOnce(s, c);
      && (r.Some? ==> s == r.value.0 + [c] + r.value.1 && c !in r.value.0)
      && (r.None? <==> c !in s)
  {
    if s != "" && s[0] != c {
      SplitOnceCuts(s[1..], c);
      assert s == [s[0]] + s[1..];
    }
  }

  /** `str::rsplit_once` with a one-character separator: cut at the last occurrence. */
  function RSplitOnce(s: string, c: char): Option<(string, string)> {
    if s == "" then None
    else if s[|s| - 1] == c then Some((s[..|s| - 1], ""))
    else
      match RSplitOnce(s[..|s| - 1], c)
      case None => None
      case Some((a, b)) => Some((a, b + [s[|s| - 1]]))
  }

  lemma {:induction false} RSplitOnceCuts(s: string, c: char)
    ensures var r := RSplitOnce(s, c);
      && (r.Some? ==> s == r.value.0 + [c] + r.value.1 && c !in r.value.1)
      && (r.None? <==> c !in s)
  {
    if s != "" {
      assert s == s[..|s| - 1] + [s[|s| - 1]];
      if s[|s| - 1] != c {
        RSplitOnceCuts(s[..|s| - 1], c);
      }
    }
  }

  /** A cut whose first half is free of the separator is the first cut. */
  lemma SplitOnceUnique(a: string, c: char, b: string)
    requires c !in a
    ensures SplitOnce(a + [c] + b, c) == Some((a, b))
  {
    var s := a + [c] + b;
    assert s[|a|] == c;
    SplitOnceCuts(s, c);
    var (x, y) := SplitOnce(s, c).value;
    assert s[|x|] == c;
    assert |x| == |a|;
    assert x == s[..|x|] && a == s[..|a|];
    assert y == s[|x| + 1..] && b == s[|a| + 1..];
  }

  /** A cut whose second half is free of the separator is the last cut. */
  lemma RSplitOnceUnique(a: string, c: char, b: string)
    requires c !in b
    ensures RSplitOnce(a + [c] + b, c) == Some((a, b))
  {
    var s := a + [c] + b;
    assert s[|a|] == c;
    RSplitOnceCuts(s, c);
    var (x, y) := RSplitOnce(s, c).value;
    assert s[|x|] == c;
    assert |x| == |a|;
    assert x == s[..|x|] && a == s[..|a|];
    assert y == s[|x| + 1..] && b == s[|a| + 1..];
  }

  // ---------------------------------------------------------------- UTF-8 byte lengths

  function Utf8Width(c: char): nat {
    if c < '\U{80}' then 1 else if c < '\U{800}' then 2 else if c < '\U{10000}' then 3 else 4
  }

  /** What a sequence of this many bytes has room for: 7 bits in one byte, and 5 in each and one more in all in several. */
  function CodeLimit(width: nat): nat {
    match width
    case 0 => 0
    case 1 => 0x80
    case 2 => 0x800
    case 3 => 0x1_0000
    case _ => 0x20_0000
  }

  /** A character takes the least number of bytes that has room for its code point (section 3 of RFC 3629). */
  lemma Utf8WidthIsLeast(c: char)
    ensures 1 <= Utf8Width(c) <= 4 && CodeLimit(Utf8Width(c) - 1) <= c as int < CodeLimit(Utf8Width(c))
  {}

  /** `str::len`: the length in bytes. */
  function ByteLen(s: string): nat {
    if s == "" then 0 else Utf8Width(s[0]) + ByteLen(s[1..])
  }

  /** The prefix that `String::truncate(n)` keeps, or `None` where it panics: `n` splits a character. */
  function TruncateAt(s: string, n: nat): (r: Option<string>)
    ensures r.Some? ==> r.value <= s && ByteLen(r.value) == n
    ensures r.None? ==> forall k :: 0 <= k <= |s| ==> ByteLen(s[..k]) != n
  {
    if n == 0 then Some("")
    else if s == "" || Utf8Width(s[0]) > n then
      assert forall k :: 0 < k <= |s| ==> s[..k][0] == s[0];
      None
    else
      match TruncateAt(s[1..], n - Utf8Width(s[0]))
      case Some(p) =>
        assert ([s[0]] + p)[1..] == p;
        Some([s[0]] + p)
      case None =>
        assert forall k :: 0 < k <= |s| ==> s[..k][1..] == s[1..][..k - 1];
        None
  }

  /** The first `n` bytes of a text, which end at a character's end. */
  ghost predicate FirstBytes(s: string, kept: string, n: nat) {
    kept <= s && ByteLen(kept) == n
  }

  lemma {:induction false} FirstBytesUnique(s: string, p: string, q: string, n: nat)
    requires FirstBytes(s, p, n) && FirstBytes(s, q, n)
    ensures p == q
    decreases |s|
  {
    if p != "" && q != "" {
      assert p[1..] <= s[1..] && q[1..] <= s[1..] && p[0] == s[0] == q[0];
      FirstBytesUnique(s[1..], p[1..], q[1..], n - Utf8Width(s[0]));
      assert p == [p[0]] + p[1..] && q == [q[0]] + q[1..];
    }
  }

  lemma {:induction false} AsciiByteLen(s: string)
    requires forall k :: 0 <= k < |s| ==> s[k] < '\U{80}'
    ensures ByteLen(s) == |s|
  {
    if s != "" {
      AsciiByteLen(s[1..]);
    }
  }

  lemma {:induction false} ByteLenConcat(a: string, b: string)
    ensures ByteLen(a + b) == ByteLen(a) + ByteLen(b)
  {
    if a == "" {
      assert a + b == b;
    } else {
      assert (a + b)[1..] == a[1..] + b;
      ByteLenConcat(a[1..], b);
    }
  }

  /** Byte `n` is inside the text but at no character's end, so cutting there panics. */
  ghost predicate CutsCharacter(s: string, n: nat) {
    ByteLen(s) > n && forall k :: 0 <= k <= |s| ==> ByteLen(s[..k]) != n
  }

  lemma {:induction false} TruncateFailsIff(s: string, n: nat)
    requires ByteLen(s) > n
    ensures TruncateAt(s, n).None? <==> CutsCharacter(s, n)
  {
    var r := TruncateAt(s, n);
    if r.Some? {
      assert s[..|r.value|] == r.value;
    }
  }

  /** Such texts exist for every `n`: ASCII up to byte `n - 1`, then a two-byte character, then anything. */
  lemma {:induction false} WideCharacterCuts(n: nat, tail: string) returns (s: string)
    requires n > 0
    ensures CutsCharacter(s, n) && |s| == n + |tail| && s[n..] == tail
  {
    var ascii := seq(n - 1, _ => 'x');
    AsciiByteLen(ascii);
    var wide := ascii + ['\U{E9}'];
    s := wide + tail;
    ByteLenConcat(ascii, ['\U{E9}']);
    ByteLenConcat(wide, tail);
    forall k | 0 <= k <= |s| ensures ByteLen(s[..k]) != n {
      if k < n {
        assert s[..k] == ascii[..k];
        AsciiByteLen(ascii[..k]);
      } else {
        assert s[..k] == wide + tail[..k - n];
        ByteLenConcat(wide, tail[..k - n]);
      }
    }
  }
}
