/** Text rules used by the payment-order fields: truncation to a declared
    length, ASCII normalisation (NFKD decomposition followed by dropping every
    non-ASCII character), decimal-digit strings and the decimal rendering of a
    natural number. */
module Texto {

  // ---------------------------------------------------------------------
  // Truncation (`truncated_str(n)`): an overlong value is cut, never refused.
  // ---------------------------------------------------------------------

  /** The first `n` characters of `s`, or all of `s` when it is not longer. */
  function Truncate(s: string, n: nat): (r: string)
    ensures |r| <= n
    ensures |s| <= n ==> r == s
    ensures |s| > n ==> |r| == n
    ensures r <= s
  {
    if |s| <= n then s else s[..n]
  }

  // ---------------------------------------------------------------------
  // ASCII
  // ---------------------------------------------------------------------

  predicate IsAscii(c: char) {
    c as int < 0x80
  }

  predicate AllAscii(s: string) {
    forall i :: 0 <= i < |s| ==> IsAscii(s[i])
  }

  /** The full NFKD decomposition of one character. The table holds the
      characters of Spanish text (the five vowels with acute or grave accent,
      u with diaeresis, n with tilde, c with cedilla, both cases) and a few compatibility characters (ordinal
      indicators, superscript digits, the no-break space, the fi/fl
      ligatures); every other character is its own decomposition. Canonical
      reordering of combining marks is not modelled: every combining mark is
      non-ASCII, so the ASCII filter that follows removes it whatever its
      position. */
  function Decompose(c: char): (d: string)
    ensures IsAscii(c) ==> d == [c]
    ensures |d| >= 1
  {
    match c
    case '\U{E1}' => ['a', '\U{301}']
    case '\U{E9}' => ['e', '\U{301}']
    case '\U{ED}' => ['i', '\U{301}']
    case '\U{F3}' => ['o', '\U{301}']
    case '\U{FA}' => ['u', '\U{301}']
    case '\U{E0}' => ['a', '\U{300}']
    case '\U{E8}' => ['e', '\U{300}']
    case '\U{EC}' => ['i', '\U{300}']
    case '\U{F2}' => ['o', '\U{300}']
    case '\U{F9}' => ['u', '\U{300}']
    case '\U{FC}' => ['u', '\U{308}']
    case '\U{F1}' => ['n', '\U{303}']
    case '\U{E7}' => ['c', '\U{327}']
    case '\U{C1}' => ['A', '\U{301}']
    case '\U{C9}' => ['E', '\U{301}']
    case '\U{CD}' => ['I', '\U{301}']
    case '\U{D3}' => ['O', '\U{301}']
    case '\U{DA}' => ['U', '\U{301}']
    case '\U{C0}' => ['A', '\U{300}']
    case '\U{C8}' => ['E', '\U{300}']
    case '\U{CC}' => ['I', '\U{300}']
    case '\U{D2}' => ['O', '\U{300}']
    case '\U{D9}' => ['U', '\U{300}']
    case '\U{DC}' => ['U', '\U{308}']
    case '\U{D1}' => ['N', '\U{303}']
    case '\U{C7}' => ['C', '\U{327}']
    case '\U{AA}' => ['a']
    case '\U{BA}' => ['o']
    case '\U{B9}' => ['1']
    case '\U{B2}' => ['2']
    case '\U{B3}' => ['3']
    case '\U{A0}' => [' ']
    case '\U{FB01}' => ['f', 'i']
    case '\U{FB02}' => ['f', 'l']
    case _ => [c]
  }

  /** The concatenation of `f(c)` for every character `c` of `s`, in order. */
  function FlatMap(f: char -> string, s: string): string {
    if s == [] then [] else f(s[0]) + FlatMap(f, s[1..])
  }

  lemma {:induction false} FlatMapConcat(f: char -> string, a: string, b: string)
    ensures FlatMap(f, a + b) == FlatMap(f, a) + FlatMap(f, b)
  {
    if a == [] {
      assert a + b == b;
    } else {
      assert (a + b)[0] == a[0] && (a + b)[1..] == a[1..] + b;
      FlatMapConcat(f, a[1..], b);
    }
  }

  lemma {:induction false} FlatMapFixed(f: char -> string, s: string)
    ensures (forall i :: 0 <= i < |s| ==> f(s[i]) == [s[i]]) ==> FlatMap(f, s) == s
  {
    if s != [] {
      FlatMapFixed(f, s[1..]);
    }
  }

  lemma {:induction false} FlatMapLonger(f: char -> string, s: string)
    requires forall c :: |f(c)| >= 1
    ensures |FlatMap(f, s)| >= |s|
  {
    if s != [] {
      FlatMapLonger(f, s[1..]);
    }
  }

  /** `unicodedata.normalize('NFKD', s)`, character by character. */
  function Nfkd(s: string): (r: string)
    ensures |r| >= |s|
    ensures AllAscii(s) ==> r == s
  {
    FlatMapLonger(Decompose, s);
    FlatMapFixed(Decompose, s);
    FlatMap(Decompose, s)
  }

  /** `s.encode('ascii', 'ignore').decode('ascii')`: every non-ASCII character
      is dropped, the ASCII ones are kept in order. */
  function DropNonAscii(s: string): (r: string)
    ensures AllAscii(r)
    ensures |r| <= |s|
    ensures AllAscii(s) ==> r == s
  {
    if s == [] then []
    else
      var rest := DropNonAscii(s[1..]);
      assert s == [s[0]] + s[1..];
      if IsAscii(s[0]) then [s[0]] + rest else rest
  }

  /** What the filter keeps: every ASCII character as often as it occurs in
      the input, and no other character. */
  lemma {:induction false} DropNonAsciiKeeps(s: string, c: char)
    ensures IsAscii(c) ==> multiset(DropNonAscii(s))[c] == multiset(s)[c]
    ensures !IsAscii(c) ==> c !in DropNonAscii(s)
  {
    if s != [] {
      DropNonAsciiKeeps(s[1..], c);
      assert s == [s[0]] + s[1..];
    }
  }

  /** The `_unicode_to_ascii` validator. */
  function UnicodeToAscii(s: string): (r: string)
    ensures AllAscii(r)
    ensures AllAscii(s) ==> r == s
  {
    DropNonAscii(Nfkd(s))
  }

  /** Normalising twice is normalising once. */
  lemma UnicodeToAsciiIdempotent(s: string)
    ensures UnicodeToAscii(UnicodeToAscii(s)) == UnicodeToAscii(s)
  {
  }

  lemma NfkdConcat(a: string, b: string)
    ensures Nfkd(a + b) == Nfkd(a) + Nfkd(b)
  {
    FlatMapConcat(Decompose, a, b);
  }

  lemma {:induction false} DropNonAsciiConcat(a: string, b: string)
    ensures DropNonAscii(a + b) == DropNonAscii(a) + DropNonAscii(b)
  {
    if a == [] {
      assert a + b == b;
    } else {
      assert (a + b)[1..] == a[1..] + b;
      DropNonAsciiConcat(a[1..], b);
    }
  }

  /** The normalisation works character by character: normalising a
      concatenation is concatenating the normalised parts, so the order of
      the characters that survive is preserved. */
  lemma UnicodeToAsciiConcat(a: string, b: string)
    ensures UnicodeToAscii(a + b) == UnicodeToAscii(a) + UnicodeToAscii(b)
  {
    NfkdConcat(a, b);
    DropNonAsciiConcat(Nfkd(a), Nfkd(b));
  }

  /** A single character normalises to the ASCII part of its decomposition. */
  lemma SingleChar(c: char, expected: string)
    requires DropNonAscii(Decompose(c)) == expected
    ensures UnicodeToAscii([c]) == expected
  {
    assert [c][1..] == [];
    assert Nfkd([c]) == Decompose(c) + Nfkd([]);
    assert Decompose(c) + [] == Decompose(c);
  }

  lemma JoinNormalised(a: string, b: string, x: string, y: string)
    requires UnicodeToAscii(a) == x && UnicodeToAscii(b) == y
    ensures UnicodeToAscii(a + b) == x + y
  {
    UnicodeToAsciiConcat(a, b);
  }

  lemma AsciiUnchanged(s: string)
    requires AllAscii(s)
    ensures UnicodeToAscii(s) == s
  {
  }

  lemma OAcute()
    ensures UnicodeToAscii("\U{F3}") == "o"
  {
    assert Decompose('\U{F3}') == ['o', '\U{301}'];
    assert DropNonAscii(['\U{301}']) == [];
    SingleChar('\U{F3}', "o");
  }

  /** "pagó de luz" normalises to "pago de luz". */
  lemma AccentStripped()
    ensures UnicodeToAscii("pag" + "\U{F3}" + " de luz") == "pag" + "o" + " de luz"
  {
    AsciiUnchanged("pag");
    AsciiUnchanged(" de luz");
    OAcute();
    JoinNormalised("pag", "\U{F3}", "pag", "o");
    JoinNormalised("pag" + "\U{F3}", " de luz", "pag" + "o", " de luz");
  }

  /** Characters with no ASCII decomposition (here the inverted question
      mark) disappear. */
  lemma UndecomposableDropped()
    ensures UnicodeToAscii("\U{BF}Pago?") == "Pago?"
  {
    assert AllAscii("Pago?");
    assert DropNonAscii(['\U{BF}']) == [];
    SingleChar('\U{BF}', "");
    JoinNormalised("\U{BF}", "Pago?", "", "Pago?");
  }

  lemma {:induction false} LigaturesExpand(s: string)
    requires forall i :: 0 <= i < |s| ==> s[i] == '\U{FB01}'
    ensures AllAscii(Nfkd(s)) && |Nfkd(s)| == 2 * |s|
  {
    if s != [] {
      LigaturesExpand(s[1..]);
      assert Nfkd(s) == "fi" + Nfkd(s[1..]);
    }
  }

  // ---------------------------------------------------------------------
  // Decimal digits
  // ---------------------------------------------------------------------

  predicate IsDigit(c: char) {
    '0' <= c <= '9'
  }

  predicate AllDigits(s: string) {
    forall i :: 0 <= i < |s| ==> IsDigit(s[i])
  }

  /** `digits(n, n)`: exactly `n` decimal digits. */
  predicate DigitsOfLength(s: string, n: nat) {
    |s| == n && AllDigits(s)
  }

  /** The number a string of decimal digits denotes. */
  function DigitsValue(s: string): nat
    requires AllDigits(s)
  {
    if s == [] then 0
    else DigitsValue(s[..|s| - 1]) * 10 + (s[|s| - 1] as int - '0' as int)
  }

  /** `str(n)` for a natural number: its canonical decimal rendering, with no
      leading zero. */
  function Decimal(n: nat): (s: string)
    ensures |s| >= 1 && AllDigits(s)
    ensures DigitsValue(s) == n
    ensures s[0] == '0' ==> s == "0"
  {
    var last := [('0' as int + n % 10) as char];
    if n < 10 then last
    else
      var s := Decimal(n / 10) + last;
      assert s[..|s| - 1] == Decimal(n / 10);
      s
  }

  /** Different numbers have different renderings. */
  lemma DecimalInjective(m: nat, n: nat)
    requires Decimal(m) == Decimal(n)
    ensures m == n
  {
  }
}
