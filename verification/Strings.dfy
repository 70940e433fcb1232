/** Sorting, line joining and decimal printing, as the canonical payload uses them. */
module Strings {

  // ---------------------------------------------------------------- sequences as multisets

  function RemoveAt<T>(s: seq<T>, k: nat): seq<T>
    requires k < |s|
  {
    s[..k] + s[k + 1..]
  }

  lemma RemoveAtMultiset<T>(s: seq<T>, k: nat)
    requires k < |s|
    ensures multiset(s) == multiset(RemoveAt(s, k)) + multiset{s[k]}
  {
    assert s == s[..k] + [s[k]] + s[k + 1..];
  }

  lemma SameSize<T>(a: seq<T>, b: seq<T>)
    requires multiset(a) == multiset(b)
    ensures |a| == |b|
  {
    assert |multiset(a)| == |a| && |multiset(b)| == |b|;
  }

  lemma Partner<T>(a: seq<T>, i: nat, b: seq<T>) returns (k: nat)
    requires multiset(a) == multiset(b) && i < |a|
    ensures k < |b| && b[k] == a[i]
  {
    assert a[i] in multiset(a);
    assert a[i] in b;
    k :| 0 <= k < |b| && b[k] == a[i];
  }

  lemma RemoveBoth<T>(a: seq<T>, i: nat, b: seq<T>, k: nat)
    requires multiset(a) == multiset(b) && i < |a| && k < |b| && a[i] == b[k]
    ensures multiset(RemoveAt(a, i)) == multiset(RemoveAt(b, k))
  {
    RemoveAtMultiset(a, i);
    RemoveAtMultiset(b, k);
    assert multiset(RemoveAt(a, i)) == multiset(a) - multiset{a[i]};
    assert multiset(RemoveAt(b, k)) == multiset(b) - multiset{b[k]};
  }

  lemma AddBoth<T>(a: seq<T>, i: nat, b: seq<T>, k: nat)
    requires i < |a| && k < |b| && a[i] == b[k]
    requires multiset(RemoveAt(a, i)) == multiset(RemoveAt(b, k))
    ensures multiset(a) == multiset(b)
  {
    RemoveAtMultiset(a, i);
    RemoveAtMultiset(b, k);
  }

  // ---------------------------------------------------------------- sorting

  /** The order of Rust strings: by code point, shorter first. */
  predicate StrLe(a: string, b: string) {
    if a == "" then true
    else if b == "" then false
    else if a[0] == b[0] then StrLe(a[1..], b[1..])
    else a[0] < b[0]
  }

  lemma {:induction false} StrLeTotal(a: string, b: string)
    ensures StrLe(a, b) || StrLe(b, a)
  {
    if a != "" && b != "" && a[0] == b[0] {
      StrLeTotal(a[1..], b[1..]);
    }
  }

  lemma {:induction false} StrLeTransitive(a: string, b: string, c: string)
    requires StrLe(a, b) && StrLe(b, c)
    ensures StrLe(a, c)
  {
    if a != "" && b != "" && c != "" && a[0] == b[0] == c[0] {
      StrLeTransitive(a[1..], b[1..], c[1..]);
    }
  }

  lemma {:induction false} StrLeAntisymmetric(a: string, b: string)
    requires StrLe(a, b) && StrLe(b, a)
    ensures a == b
  {
    if a != "" && b != "" {
      StrLeAntisymmetric(a[1..], b[1..]);
      assert a == [a[0]] + a[1..] && b == [b[0]] + b[1..];
    }
  }

  /** The first place at which they differ decides, and where there is none the shorter is below. */
  lemma {:induction false} StrLeIff(a: string, b: string)
    ensures StrLe(a, b) <==> a <= b || exists k :: DiffersAt(a, b, k) && a[k] < b[k]
  {
    if a != "" && b != "" && a[0] == b[0] {
      StrLeIff(a[1..], b[1..]);
      assert a <= b <==> a[1..] <= b[1..];
      forall k: nat ensures DiffersAt(a[1..], b[1..], k) <==> DiffersAt(a, b, k + 1) {
        LaterDiffers(a, b, k);
      }
      if k :| DiffersAt(a, b, k) && a[k] < b[k] {
        assert DiffersAt(a[1..], b[1..], k - 1);
      }
      if k :| DiffersAt(a[1..], b[1..], k) && a[1..][k] < b[1..][k] {
        assert DiffersAt(a, b, k + 1);
      }
    } else if a != "" && b != "" {
      assert DiffersAt(a, b, 0);
    }
  }

  ghost predicate DiffersAt(a: string, b: string, k: int) {
    0 <= k < |a| && k < |b| && a[..k] == b[..k] && a[k] != b[k]
  }

  lemma LaterDiffers(a: string, b: string, k: nat)
    requires a != "" && b != "" && a[0] == b[0]
    ensures DiffersAt(a[1..], b[1..], k) <==> DiffersAt(a, b, k + 1)
  {
    if k < |a| - 1 && k < |b| - 1 {
      assert a[..k + 1] == [a[0]] + a[1..][..k] && b[..k + 1] == [b[0]] + b[1..][..k];
      assert a[1..][..k] == a[..k + 1][1..] && b[1..][..k] == b[..k + 1][1..];
    }
  }

  ghost predicate Sorted(s: seq<string>) {
    forall i, j :: 0 <= i < j < |s| ==> StrLe(s[i], s[j])
  }

  function Insert(x: string, s: seq<string>): seq<string> {
    if s == [] then [x]
    else if StrLe(x, s[0]) then [x] + s
    else [s[0]] + Insert(x, s[1..])
  }

  /** `Vec::sort` on strings. */
  function Sort(s: seq<string>): seq<string> {
    if s == [] then [] else Insert(s[0], Sort(s[1..]))
  }

  lemma {:induction false} InsertMembers(x: string, s: seq<string>, j: nat)
    requires j < |Insert(x, s)|
    ensures Insert(x, s)[j] == x || exists k :: 0 <= k < |s| && s[k] == Insert(x, s)[j]
  {
    if s != [] {
      if StrLe(x, s[0]) {
        assert j > 0 ==> Insert(x, s)[j] == s[j - 1];
      } else if j > 0 {
        InsertMembers(x, s[1..], j - 1);
      }
    }
  }

  lemma SortedPrepend(x: string, s: seq<string>)
    requires Sorted(s) && forall k :: 0 <= k < |s| ==> StrLe(x, s[k])
    ensures Sorted([x] + s)
  {
    var r := [x] + s;
    forall i, j | 0 <= i < j < |r| ensures StrLe(r[i], r[j]) {
      assert r[j] == s[j - 1];
    }
  }

  lemma SortedTail(s: seq<string>)
    requires Sorted(s) && s != []
    ensures Sorted(s[1..])
  {}

  lemma {:induction false} InsertSorted(x: string, s: seq<string>)
    requires Sorted(s)
    ensures Sorted(Insert(x, s))
  {
    if s != [] {
      if StrLe(x, s[0]) {
        forall k | 0 <= k < |s| ensures StrLe(x, s[k]) {
          if k > 0 {
            StrLeTransitive(x, s[0], s[k]);
          }
        }
        SortedPrepend(x, s);
      } else {
        StrLeTotal(x, s[0]);
        SortedTail(s);
        InsertSorted(x, s[1..]);
        var rest := Insert(x, s[1..]);
        forall k | 0 <= k < |rest| ensures StrLe(s[0], rest[k]) {
          InsertMembers(x, s[1..], k);
        }
        SortedPrepend(s[0], rest);
      }
    }
  }

  lemma {:induction false} InsertMultiset(x: string, s: seq<string>)
    ensures multiset(Insert(x, s)) == multiset(s) + multiset{x}
  {
    if s != [] {
      assert s == [s[0]] + s[1..];
      if !StrLe(x, s[0]) {
        InsertMultiset(x, s[1..]);
      }
    }
  }

  /** Sorting sorts, and loses and adds nothing. */
  lemma {:induction false} SortKeeps(s: seq<string>)
    ensures Sorted(Sort(s)) && multiset(Sort(s)) == multiset(s)
  {
    if s != [] {
      SortKeeps(s[1..]);
      InsertSorted(s[0], Sort(s[1..]));
      InsertMultiset(s[0], Sort(s[1..]));
      assert s == [s[0]] + s[1..];
    }
  }

  lemma {:induction false} LeastIsBelow(a: seq<string>, b: seq<string>)
    requires Sorted(a) && multiset(a) == multiset(b) && a != [] && b != []
    ensures StrLe(a[0], b[0])
  {
    var j := Partner(b, 0, a);
    StrLeReflexive(a[0]);
  }

  lemma SameTail<T>(a: seq<T>, b: seq<T>)
    requires a != [] && b != [] && multiset(a) == multiset(b) && a[0] == b[0]
    ensures multiset(a[1..]) == multiset(b[1..])
  {
    RemoveBoth(a, 0, b, 0);
    assert RemoveAt(a, 0) == a[1..] && RemoveAt(b, 0) == b[1..];
  }

  lemma SameParts<T>(a: seq<T>, b: seq<T>)
    requires a != [] && b != [] && a[0] == b[0] && a[1..] == b[1..]
    ensures a == b
  {
    assert a == [a[0]] + a[1..] && b == [b[0]] + b[1..];
  }

  lemma {:induction false} SortedEqual(a: seq<string>, b: seq<string>)
    requires Sorted(a) && Sorted(b) && multiset(a) == multiset(b)
    ensures a == b
    decreases |a|
  {
    SameSize(a, b);
    if a != [] {
      LeastIsBelow(a, b);
      LeastIsBelow(b, a);
      StrLeAntisymmetric(a[0], b[0]);
      SameTail(a, b);
      SortedTail(a);
      SortedTail(b);
      SortedEqual(a[1..], b[1..]);
      SameParts(a, b);
    }
  }

  lemma {:induction false} StrLeReflexive(a: string)
    ensures StrLe(a, a)
  {
    StrLeTotal(a, a);
  }

  /** The sorted sequence depends on the multiset only. */
  lemma {:induction false} SortedUnique(a: seq<string>, b: seq<string>)
    requires multiset(a) == multiset(b)
    ensures Sort(a) == Sort(b)
  {
    SortKeeps(a);
    SortKeeps(b);
    SortedEqual(Sort(a), Sort(b));
  }

  // ---------------------------------------------------------------- lines

  predicate NoNewline(s: string) {
    forall k :: 0 <= k < |s| ==> s[k] != '\n'
  }

  predicate AllNoNewline(lines: seq<string>) {
    forall i :: 0 <= i < |lines| ==> NoNewline(lines[i])
  }

  /** `join("\n")`. */
  function Join(lines: seq<string>): string {
    if lines == [] then "" else if |lines| == 1 then lines[0] else lines[0] + "\n" + Join(lines[1..])
  }

  function Lines(s: string): (r: seq<string>)
    ensures r != []
  {
    if s == "" then [""]
    else if s[0] == '\n' then [""] + Lines(s[1..])
    else
      var rest := Lines(s[1..]);
      [[s[0]] + rest[0]] + rest[1..]
  }

  lemma {:induction false} LinesOfPlain(s: string)
    requires NoNewline(s)
    ensures Lines(s) == [s]
  {
    if s != "" {
      LinesOfPlain(s[1..]);
      assert s == [s[0]] + s[1..];
    }
  }

  lemma {:induction false} LinesOfConcat(a: string, b: string)
    requires NoNewline(a)
    ensures Lines(a + "\n" + b) == [a] + Lines(b)
  {
    if a == "" {
      assert a + "\n" + b == "\n" + b;
    } else {
      LinesOfConcat(a[1..], b);
      assert (a + "\n" + b)[1..] == a[1..] + "\n" + b;
      assert a == [a[0]] + a[1..];
    }
  }

  /** Splitting inverts joining. */
  lemma {:induction false} LinesOfJoin(lines: seq<string>)
    requires lines != [] && AllNoNewline(lines)
    ensures Lines(Join(lines)) == lines
    decreases |lines|
  {
    if |lines| == 1 {
      LinesOfPlain(lines[0]);
    } else {
      LinesOfJoin(lines[1..]);
      LinesOfConcat(lines[0], Join(lines[1..]));
    }
  }

  lemma {:induction false} JoinPrepend(x: string, lines: seq<string>)
    requires lines != []
    ensures Join([x] + lines) == x + "\n" + Join(lines)
  {
    assert ([x] + lines)[1..] == lines;
  }

  lemma {:induction false} JoinAppend(lines: seq<string>, x: string)
    requires lines != []
    ensures Join(lines + [x]) == Join(lines) + "\n" + x
    decreases |lines|
  {
    var all := lines + [x];
    assert all[1..] == lines[1..] + [x];
    if |lines| == 1 {
      assert all[1..] == [x];
    } else {
      JoinAppend(lines[1..], x);
      Reassociate(lines[0], Join(lines[1..]), x);
    }
  }

  lemma Reassociate(a: string, b: string, c: string)
    ensures a + "\n" + (b + "\n" + c) == a + "\n" + b + "\n" + c
  {}

  // ---------------------------------------------------------------- decimal numbers

  function Digit(d: nat): char
    requires d < 10
  {
    "0123456789"[d]
  }

  function Decimal(n: nat): string {
    if n < 10 then [Digit(n)] else Decimal(n / 10) + [Digit(n % 10)]
  }

  function DigitValue(c: char): int {
    c as int - '0' as int
  }

  function Value(s: string): int {
    if s == "" then 0 else 10 * Value(s[..|s| - 1]) + DigitValue(s[|s| - 1])
  }

  lemma {:induction false} ValueOfDecimal(n: nat)
    ensures Value(Decimal(n)) == n
  {
    if n < 10 {
      assert Value([Digit(n)]) == 10 * Value("") + DigitValue(Digit(n));
    } else {
      ValueOfDecimal(n / 10);
      assert Decimal(n)[..|Decimal(n)| - 1] == Decimal(n / 10);
    }
  }

  /** Digits only, and no leading zero. */
  lemma {:induction false} DecimalIsShort(n: nat)
    ensures forall k :: 0 <= k < |Decimal(n)| ==> '0' <= Decimal(n)[k] <= '9'
    ensures Decimal(n) == "0" || (Decimal(n) != "" && Decimal(n)[0] != '0')
  {
    if n >= 10 {
      DecimalIsShort(n / 10);
    }
  }

  lemma {:induction false} DecimalInjective(m: nat, n: nat)
    ensures Decimal(m) == Decimal(n) <==> m == n
  {
    ValueOfDecimal(m);
    ValueOfDecimal(n);
  }

  lemma {:induction false} DecimalIsPlain(n: nat)
    ensures NoNewline(Decimal(n))
  {
    if n >= 10 {
      DecimalIsPlain(n / 10);
    }
  }
}
