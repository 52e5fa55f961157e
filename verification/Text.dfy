/** The string operations the operator relies on: decimal printing and parsing, splitting on '-',
    white space, ASCII lower-casing, and the sorted key list of a Go map. */
module Text {
  import opened Wrappers

  // ---- decimal numbers (strconv.Itoa, strconv.Atoi) ----

  const MaxInt: int := 0x7fff_ffff_ffff_ffff

  predicate IsDigit(c: char) { '0' <= c <= '9' }

  function Digit(n: nat): (c: char)
    requires n < 10
    ensures IsDigit(c)
  {
    ('0' as int + n) as char
  }

  function DigitValue(c: char): nat
    requires IsDigit(c)
  {
    c as int - '0' as int
  }

  function Itoa(n: nat): (s: string)
    ensures s != [] && forall i | 0 <= i < |s| :: IsDigit(s[i])
  {
    if n < 10 then [Digit(n)] else Itoa(n / 10) + [Digit(n % 10)]
  }

  /** The number a run of digits stands for; None when some character is not a digit. */
  function DigitsValue(s: string): Option<nat> {
    if s == [] then Some(0)
    else if !IsDigit(s[|s| - 1]) then None
    else match DigitsValue(s[..|s| - 1])
      case None => None
      case Some(high) => Some(10 * high + DigitValue(s[|s| - 1]))
  }

  /** strconv.Atoi on a 64-bit machine: an optional sign, at least one digit, no overflow. */
  function Atoi(s: string): (r: Option<int>) {
    var signed := s != [] && (s[0] == '+' || s[0] == '-');
    var digits := if signed then s[1..] else s;
    if digits == [] then None
    else match DigitsValue(digits)
      case None => None
      case Some(n) =>
        if signed && s[0] == '-' then (if n <= MaxInt + 1 then Some(-(n as int)) else None)
        else if n <= MaxInt then Some(n) else None
  }

  lemma {:induction false} DigitsRoundTrip(n: nat)
    ensures DigitsValue(Itoa(n)) == Some(n)
  {
    if n >= 10 {
      DigitsRoundTrip(n / 10);
      var s := Itoa(n);
      assert s[..|s| - 1] == Itoa(n / 10);
    } else {
      assert Itoa(n)[..0] == [];
    }
  }

  /** Printing and parsing a number agree for every number an int holds. */
  lemma AtoiItoa(n: nat)
    requires n <= MaxInt
    ensures Atoi(Itoa(n)) == Some(n)
  {
    DigitsRoundTrip(n);
  }

  lemma ItoaInjective(m: nat, n: nat)
    requires Itoa(m) == Itoa(n)
    ensures m == n
  {
    DigitsRoundTrip(m);
    DigitsRoundTrip(n);
  }

  /** Two numbers printed in front of the same separator are told apart by what follows them. */
  lemma {:induction false} DigitPrefixSplit(a: string, b: string, sep: char, x: string, y: string)
    requires forall i | 0 <= i < |a| :: IsDigit(a[i])
    requires forall i | 0 <= i < |b| :: IsDigit(b[i])
    requires !IsDigit(sep)
    requires a + [sep] + x == b + [sep] + y
    ensures a == b && x == y
  {
    var s, t := a + [sep] + x, b + [sep] + y;
    assert !IsDigit(s[|a|]) && forall i | 0 <= i < |a| :: IsDigit(s[i]);
    assert !IsDigit(t[|b|]) && forall i | 0 <= i < |b| :: IsDigit(t[i]);
    assert a == s[..|a|] && b == t[..|b|];
    assert x == s[|a| + 1..] && y == t[|b| + 1..];
  }

  // ---- splitting and white space (strings.Split, strings.Fields, strings.TrimSpace) ----

  /** unicode.IsSpace. */
  predicate IsSpace(c: char) {
    || c in {'\t', '\n', '\U{b}', '\U{c}', '\r', ' ', '\U{85}', '\U{a0}', '\U{1680}'}
    || '\U{2000}' <= c <= '\U{200a}'
    || c in {'\U{2028}', '\U{2029}', '\U{202f}', '\U{205f}', '\U{3000}'}
  }

  predicate NoSpace(s: string) { forall i | 0 <= i < |s| :: !IsSpace(s[i]) }

  function TrimLeft(s: string): string {
    if s != [] && IsSpace(s[0]) then TrimLeft(s[1..]) else s
  }

  function TrimRight(s: string): string {
    if s != [] && IsSpace(s[|s| - 1]) then TrimRight(s[..|s| - 1]) else s
  }

  function TrimSpace(s: string): string { TrimRight(TrimLeft(s)) }

  lemma TrimSpaceUnchanged(s: string)
    requires s == [] || (!IsSpace(s[0]) && !IsSpace(s[|s| - 1]))
    ensures TrimSpace(s) == s
  {
  }

  /** The first index of c in s, or |s|. */
  function IndexOf(s: string, c: char): (i: nat)
    ensures i <= |s|
    ensures i < |s| ==> s[i] == c
    ensures forall j | 0 <= j < i :: s[j] != c
  {
    if s == [] || s[0] == c then 0 else 1 + IndexOf(s[1..], c)
  }

  /** strings.Split(s, string(c)). */
  function Split(s: string, c: char): (parts: seq<string>)
    ensures parts != []
    decreases |s|
  {
    var i := IndexOf(s, c);
    if i == |s| then [s] else [s[..i]] + Split(s[i + 1..], c)
  }

  lemma SplitHead(a: string, c: char, rest: string)
    requires c !in a
    ensures Split(a + [c] + rest, c) == [a] + Split(rest, c)
  {
    var s := a + [c] + rest;
    var i := IndexOf(s, c);
    assert s[|a|] == c && forall j | 0 <= j < |a| :: s[j] == a[j] && a[j] != c;
    assert s[..i] == a && s[i + 1..] == rest;
  }

  lemma SplitNone(a: string, c: char)
    requires c !in a
    ensures Split(a, c) == [a]
  {
  }

  /** The length of the leading run of characters that are not white space. */
  function WordLength(s: string): (n: nat)
    ensures n <= |s| && NoSpace(s[..n])
    ensures n < |s| ==> IsSpace(s[n])
  {
    if s == [] || IsSpace(s[0]) then 0
    else
      assert forall i | 0 < i <= WordLength(s[1..]) :: s[i] == s[1..][i - 1];
      1 + WordLength(s[1..])
  }

  /** strings.Fields. */
  function Fields(s: string): seq<string>
    decreases |s|
  {
    if s == [] then []
    else if IsSpace(s[0]) then Fields(s[1..])
    else var n := WordLength(s); [s[..n]] + Fields(s[n..])
  }

  // ---- lower case (ASCII) and prefixes ----

  function LowerChar(c: char): char {
    if 'A' <= c <= 'Z' then (c as int + 32) as char else c
  }

  function ToLower(s: string): (r: string)
    ensures |r| == |s|
    ensures forall i | 0 <= i < |s| :: r[i] == LowerChar(s[i])
  {
    if s == [] then [] else [LowerChar(s[0])] + ToLower(s[1..])
  }

  lemma {:induction false} ToLowerConcat(a: string, b: string)
    ensures ToLower(a + b) == ToLower(a) + ToLower(b)
  {
    if a == [] {
      assert a + b == b;
    } else {
      assert (a + b)[1..] == a[1..] + b;
      ToLowerConcat(a[1..], b);
    }
  }

  predicate HasPrefix(s: string, p: string) { p <= s }

  // ---- the sorted key list of a map ----

  /** The byte-wise order of Go strings, on code points. */
  predicate Less(a: string, b: string) {
    b != [] && (a == [] || a[0] < b[0] || (a[0] == b[0] && Less(a[1..], b[1..])))
  }

  lemma LessTotal(a: string, b: string)
    ensures a == b || Less(a, b) || Less(b, a)
  {
    if a != [] && b != [] && a[0] == b[0] {
      LessTotal(a[1..], b[1..]);
      assert a == [a[0]] + a[1..] && b == [b[0]] + b[1..];
    }
  }

  lemma LessIrreflexive(a: string)
    ensures !Less(a, a)
  {
  }

  lemma LessTransitive(a: string, b: string, c: string)
    requires Less(a, b) && Less(b, c)
    ensures Less(a, c)
  {
  }

  predicate Ascending(ks: seq<string>) {
    forall i, j | 0 <= i < j < |ks| :: Less(ks[i], ks[j])
  }

  ghost function Elems<T>(ks: seq<T>): set<T> { set k | k in ks }

  lemma AscendingDistinct(ks: seq<string>)
    requires Ascending(ks)
    ensures forall i, j | 0 <= i < j < |ks| :: ks[i] != ks[j]
  {
    forall i, j | 0 <= i < j < |ks|
      ensures ks[i] != ks[j]
    {
      LessIrreflexive(ks[i]);
    }
  }

  /** An ascending sequence is determined by its elements. */
  lemma {:induction false} AscendingUnique(a: seq<string>, b: seq<string>)
    requires Ascending(a) && Ascending(b) && Elems(a) == Elems(b)
    ensures a == b
  {
    assert a != [] ==> a[0] in Elems(a);
    assert b != [] ==> b[0] in Elems(b);
    if a != [] && b != [] {
      HeadIsLeast(a);
      HeadIsLeast(b);
      assert a[0] in Elems(b) && b[0] in Elems(a);
      if a[0] != b[0] {
        LessTransitive(a[0], b[0], a[0]);
        LessIrreflexive(a[0]);
      }
      TailElems(a);
      TailElems(b);
      AscendingUnique(a[1..], b[1..]);
    }
  }

  lemma HeadIsLeast(a: seq<string>)
    requires Ascending(a) && a != []
    ensures forall k | k in Elems(a) :: k == a[0] || Less(a[0], k)
  {
  }

  lemma TailElems(a: seq<string>)
    requires Ascending(a) && a != []
    ensures Ascending(a[1..]) && Elems(a[1..]) == Elems(a) - {a[0]}
  {
    AscendingDistinct(a);
    forall k | k in Elems(a) - {a[0]}
      ensures k in a[1..]
    {
      var i :| 0 <= i < |a| && a[i] == k;
      assert a[1..][i - 1] == k;
    }
  }

  /** k put at its place in an ascending sequence. */
  function Insert(k: string, ks: seq<string>): (r: seq<string>)
    requires Ascending(ks) && k !in ks
    ensures Ascending(r) && Elems(r) == Elems(ks) + {k}
  {
    if ks == [] then [k]
    else if Less(k, ks[0]) then
      assert forall j | 0 <= j < |ks| :: Less(k, ks[j]) by {
        forall j | 0 <= j < |ks|
          ensures Less(k, ks[j])
        {
          if j > 0 {
            LessTransitive(k, ks[0], ks[j]);
          }
        }
      }
      [k] + ks
    else
      LessTotal(k, ks[0]);
      var rest := Insert(k, ks[1..]);
      var r := [ks[0]] + rest;
      assert Elems(r) == {ks[0]} + Elems(rest);
      assert ks == [ks[0]] + ks[1..];
      assert forall j | 0 <= j < |rest| :: Less(ks[0], rest[j]) by {
        forall j | 0 <= j < |rest|
          ensures Less(ks[0], rest[j])
        {
          assert rest[j] in Elems(rest);
        }
      }
      assert forall i, j | 0 <= i < j < |r| :: r[j] == rest[j - 1] && (i > 0 ==> r[i] == rest[i - 1]);
      r
  }

  /** The keys in ascending order. */
  ghost function Sorted(keys: set<string>): (ks: seq<string>)
    ensures Ascending(ks) && Elems(ks) == keys && |ks| == |keys|
  {
    if keys == {} then []
    else
      var k :| k in keys;
      var rest := Sorted(keys - {k});
      var r := Insert(k, rest);
      InsertLength(k, rest);
      r
  }

  lemma {:induction false} InsertLength(k: string, ks: seq<string>)
    requires Ascending(ks) && k !in ks
    ensures |Insert(k, ks)| == |ks| + 1
  {
    if ks != [] && !Less(k, ks[0]) {
      InsertLength(k, ks[1..]);
    }
  }

  /** GetSortedKeySlice: the keys are collected in whatever order the map yields them, then sorted.
      The result does not depend on that order. */
  method GetSortedKeySlice(keys: set<string>) returns (ks: seq<string>)
    ensures ks == Sorted(keys)
  {
    ks := [];
    var todo := keys;
    while todo != {}
      invariant todo <= keys && Ascending(ks) && Elems(ks) == keys - todo
      decreases todo
    {
      var k :| k in todo;
      assert k !in ks;
      ks := Insert(k, ks);
      todo := todo - {k};
    }
    AscendingUnique(ks, Sorted(keys));
  }
}
