/**
 * The state string of script.js: `updateURL` writes `"<seed>_p<id>,<id>,..."`
 * into the `state` URL parameter and `loadStateFromURL` reads it back.
 *
 * The JavaScript built-ins the two functions rely on are modelled on
 * strings: `String(n)` for an integer (`IntToString`), `split` with a
 * non-empty separator (`Split`), `join` (`JoinInts`), `parseInt` with no
 * radix (`ParseInt`) and `Number` (`JsNumber`, integer forms only). A
 * result `None` stands for `NaN`.
 */
module Codec {
  import opened Wrappers
  import opened TreeModel
  import opened Prune

  /** The seed used when the URL carries no state. */
  const DefaultSeed: int := 12345

  // ---------------------------------------------------------------------
  // Characters

  /** The characters JavaScript trims: WhiteSpace and LineTerminator. */
  predicate IsJsSpace(c: char) {
    || c == ' ' || c == '\t' || c == '\n' || c == '\U{B}' || c == '\U{C}' || c == '\r'
    || c == '\U{A0}' || c == '\U{1680}' || ('\U{2000}' <= c <= '\U{200A}')
    || c == '\U{2028}' || c == '\U{2029}' || c == '\U{202F}' || c == '\U{205F}'
    || c == '\U{3000}' || c == '\U{FEFF}'
  }

  /** The value of a digit character in bases up to 16, and 16 for any other character. */
  function DigitValue(c: char): (d: nat)
    ensures d <= 16
  {
    if '0' <= c <= '9' then c as int - '0' as int
    else if 'a' <= c <= 'f' then c as int - 'a' as int + 10
    else if 'A' <= c <= 'F' then c as int - 'A' as int + 10
    else 16
  }

  predicate IsDigitIn(c: char, base: nat) {
    DigitValue(c) < base
  }

  predicate AllDigitsIn(s: string, base: nat) {
    forall i :: 0 <= i < |s| ==> IsDigitIn(s[i], base)
  }

  /** The decimal digit character for `d`. */
  function DigitChar(d: nat): (c: char)
    requires d < 10
    ensures DigitValue(c) == d
  {
    ('0' as int + d) as char
  }

  // ---------------------------------------------------------------------
  // Number to string

  /** The decimal numeral of a natural number, without leading zeros. */
  function NatToString(n: nat): (s: string)
    ensures |s| > 0 && AllDigitsIn(s, 10)
    decreases n
  {
    if n < 10 then [DigitChar(n)] else NatToString(n / 10) + [DigitChar(n % 10)]
  }

  /** `String(n)` for an integer `n`: an optional minus sign and the numeral. */
  function IntToString(n: int): (s: string)
    ensures |s| > 0
  {
    if n < 0 then "-" + NatToString(-n) else NatToString(n)
  }

  // ---------------------------------------------------------------------
  // String to number

  /** The value of a numeral whose characters are all digits in `base`. */
  function Value(s: string, base: nat): nat
    decreases |s|
  {
    if s == [] then 0 else Value(s[..|s| - 1], base) * base + DigitValue(s[|s| - 1])
  }

  /** The longest prefix of `s` made of digits in `base`. */
  function DigitPrefix(s: string, base: nat): (p: string)
    ensures p <= s && AllDigitsIn(p, base)
    ensures |p| < |s| ==> !IsDigitIn(s[|p|], base)
    decreases |s|
  {
    if s == [] || !IsDigitIn(s[0], base) then [] else [s[0]] + DigitPrefix(s[1..], base)
  }

  function TrimStart(s: string): (t: string)
    ensures t == [] || !IsJsSpace(t[0])
    decreases |s|
  {
    if s != [] && IsJsSpace(s[0]) then TrimStart(s[1..]) else s
  }

  function TrimEnd(s: string): (t: string)
    ensures t == [] || !IsJsSpace(t[|t| - 1])
    decreases |s|
  {
    if s != [] && IsJsSpace(s[|s| - 1]) then TrimEnd(s[..|s| - 1]) else s
  }

  function Negate(negative: bool, v: nat): int {
    if negative then -(v as int) else v
  }

  /** Whether `u` starts with the radix prefix `0x` or `0X`. */
  predicate HexPrefixed(u: string) {
    |u| >= 2 && u[0] == '0' && (u[1] == 'x' || u[1] == 'X')
  }

  /**
   * `parseInt(s)` with no radix: leading white space is skipped, one sign is
   * read, a `0x`/`0X` prefix selects base 16, and the longest run of digits
   * that follows is the value; with no digit the result is NaN.
   */
  function ParseInt(s: string): Option<int> {
    var t := TrimStart(s);
    var signed := t != [] && (t[0] == '-' || t[0] == '+');
    var negative := t != [] && t[0] == '-';
    var u := if signed then t[1..] else t;
    if HexPrefixed(u) then
      var digits := DigitPrefix(u[2..], 16);
      if digits == [] then None else Some(Negate(negative, Value(digits, 16)))
    else
      var digits := DigitPrefix(u, 10);
      if digits == [] then None else Some(Negate(negative, Value(digits, 10)))
  }

  /**
   * `Number(s)` on its integer forms: surrounding white space is ignored,
   * an empty string is 0, a signed decimal numeral or an unsigned `0x`,
   * `0o` or `0b` numeral is its value; any other string is NaN here.
   */
  function JsNumber(s: string): Option<int> {
    var t := TrimEnd(TrimStart(s));
    if t == [] then Some(0)
    else if |t| > 2 && t[0] == '0' && (t[1] == 'x' || t[1] == 'X') && AllDigitsIn(t[2..], 16) then Some(Value(t[2..], 16))
    else if |t| > 2 && t[0] == '0' && (t[1] == 'o' || t[1] == 'O') && AllDigitsIn(t[2..], 8) then Some(Value(t[2..], 8))
    else if |t| > 2 && t[0] == '0' && (t[1] == 'b' || t[1] == 'B') && AllDigitsIn(t[2..], 2) then Some(Value(t[2..], 2))
    else
      var negative := t[0] == '-';
      var u := if t[0] == '-' || t[0] == '+' then t[1..] else t;
      if u != [] && AllDigitsIn(u, 10) then Some(Negate(negative, Value(u, 10))) else None
  }

  // ---------------------------------------------------------------------
  // split and join

  /**
   * `s.split(sep)` for a non-empty separator: the pieces between the
   * occurrences of `sep`, found left to right without overlap.
   */
  function Split(s: string, sep: string): (parts: seq<string>)
    requires sep != []
    ensures |parts| > 0
    decreases |s|
  {
    if |s| < |sep| then [s]
    else if s[..|sep|] == sep then [""] + Split(s[|sep|..], sep)
    else
      var rest := Split(s[1..], sep);
      [[s[0]] + rest[0]] + rest[1..]
  }

  /** `ids.map(String).join(",")`. */
  function JoinInts(ids: seq<int>): string
    decreases |ids|
  {
    if ids == [] then ""
    else if |ids| == 1 then IntToString(ids[0])
    else IntToString(ids[0]) + "," + JoinInts(ids[1..])
  }

  /** `parts.map(Number)`, keeping the ids that are numbers. */
  function NumbersOf(parts: seq<string>): seq<int>
    decreases |parts|
  {
    if parts == [] then []
    else
      var n := JsNumber(parts[0]);
      (if n.Some? then [n.value] else []) + NumbersOf(parts[1..])
  }

  // ---------------------------------------------------------------------
  // The state string

  /** `updateURL`: the state string for a seed and the prune set in insertion order. */
  function Encode(seed: int, pruned: seq<int>): string {
    IntToString(seed) + "_p" + JoinInts(pruned)
  }

  /** What `loadStateFromURL` hands to `generateNewTree`: the seed (`None` for NaN) and the ids. */
  datatype Loaded = Loaded(seed: Option<int>, ids: seq<int>)

  /**
   * `loadStateFromURL` on the `state` parameter (`None` when absent): an
   * absent or empty state gives the default seed and no ids; otherwise the
   * seed is `parseInt` of the text before the first `_p`, and the ids are
   * read from the text between the first and second `_p` when it is not
   * empty.
   */
  function Decode(state: Option<string>): Loaded {
    if state.None? || state.value == "" then Loaded(Some(DefaultSeed), [])
    else
      var parts := Split(state.value, "_p");
      var ids := if |parts| > 1 && parts[1] != "" then NumbersOf(Split(parts[1], ",")) else [];
      Loaded(ParseInt(parts[0]), ids)
  }

  // ---------------------------------------------------------------------
  // Lemmas

  lemma {:induction false} ValueOfNatToString(n: nat)
    ensures Value(NatToString(n), 10) == n
    decreases n
  {
    if n >= 10 {
      ValueOfNatToString(n / 10);
      var s := NatToString(n / 10) + [DigitChar(n % 10)];
      assert s[..|s| - 1] == NatToString(n / 10);
    }
  }

  lemma {:induction false} DigitPrefixOfDigits(s: string, rest: string, base: nat)
    requires AllDigitsIn(s, base)
    requires rest == [] || !IsDigitIn(rest[0], base)
    ensures DigitPrefix(s + rest, base) == s
    decreases |s|
  {
    if s != [] {
      assert (s + rest)[1..] == s[1..] + rest;
      DigitPrefixOfDigits(s[1..], rest, base);
      assert [s[0]] + s[1..] == s;
    }
  }

  lemma TrimOfNumeral(n: int)
    ensures TrimStart(IntToString(n)) == IntToString(n)
    ensures TrimEnd(IntToString(n)) == IntToString(n)
  {
    var s := IntToString(n);
    if n < 0 {
      assert s[|s| - 1] == NatToString(-n)[|NatToString(-n)| - 1];
    }
  }

  /** The unsigned part: the numeral is the digit prefix and no hexadecimal prefix is seen. */
  lemma UnsignedNumeral(m: nat, rest: string)
    requires rest == [] || (!IsDigitIn(rest[0], 10) && rest[0] != 'x' && rest[0] != 'X')
    ensures DigitPrefix(NatToString(m) + rest, 10) == NatToString(m)
    ensures !HexPrefixed(NatToString(m) + rest)
  {
    var numeral := NatToString(m);
    var u := numeral + rest;
    DigitPrefixOfDigits(numeral, rest, 10);
    if |u| >= 2 {
      if |numeral| >= 2 {
        assert u[1] == numeral[1];
        assert IsDigitIn(u[1], 10);
      } else {
        assert u[1] == rest[0];
      }
    }
  }

  /** `parseInt` on an optional minus sign followed by a decimal numeral and other text. */
  lemma ParseIntDecimal(s: string, negative: bool, u: string)
    requires s == (if negative then "-" + u else u)
    requires u != [] && IsDigitIn(u[0], 10) && !HexPrefixed(u)
    ensures ParseInt(s) == Some(Negate(negative, Value(DigitPrefix(u, 10), 10)))
  {
    if negative {
      assert s[1..] == u;
    }
    assert TrimStart(s) == s;
  }

  /**
   * `parseInt` reads back `String(n)` followed by any text that does not
   * continue the numeral (no further digit, and no `x` that would turn a
   * leading `0` into a hexadecimal prefix).
   */
  lemma ParseIntOfString(n: int, rest: string)
    requires rest == [] || (!IsDigitIn(rest[0], 10) && rest[0] != 'x' && rest[0] != 'X')
    ensures ParseInt(IntToString(n) + rest) == Some(n)
  {
    var m: nat := if n < 0 then -n else n;
    var u := NatToString(m) + rest;
    ValueOfNatToString(m);
    UnsignedNumeral(m, rest);
    SignedNumeral(n, m, rest);
    ParseIntDecimal(IntToString(n) + rest, n < 0, u);
  }

  /** `String(n)` followed by text is the optional minus sign, then the numeral of `|n|` and the text. */
  lemma SignedNumeral(n: int, m: nat, rest: string)
    requires m == if n < 0 then -n else n
    ensures var u := NatToString(m) + rest;
      && IntToString(n) + rest == (if n < 0 then "-" + u else u)
      && u != [] && IsDigitIn(u[0], 10)
  {
    var u := NatToString(m) + rest;
    assert u[0] == NatToString(m)[0];
    if n < 0 {
      assert IntToString(n) + rest == "-" + u;
    }
  }

  /** `Number` reads back `String(n)`. */
  lemma NumberOfString(n: int)
    ensures JsNumber(IntToString(n)) == Some(n)
  {
    TrimOfNumeral(n);
    var s := IntToString(n);
    var m: nat := if n < 0 then -n else n;
    ValueOfNatToString(m);
    if n < 0 {
      assert s[1..] == NatToString(m);
      assert s[0] == '-';
    }
    assert !(|s| > 2 && s[0] == '0' && (s[1] == 'x' || s[1] == 'X' || s[1] == 'o' || s[1] == 'O' || s[1] == 'b' || s[1] == 'B')) by {
      if |s| > 2 && n >= 0 {
        assert IsDigitIn(s[1], 10);
      }
    }
  }

  /** A string that does not contain the separator's first character is a single piece. */
  lemma {:induction false} SplitWithout(s: string, sep: string)
    requires sep != []
    requires forall i :: 0 <= i < |s| ==> s[i] != sep[0]
    ensures Split(s, sep) == [s]
    decreases |s|
  {
    if |s| >= |sep| {
      assert s[..|sep|][0] == s[0];
      SplitWithout(s[1..], sep);
      assert [s[0]] + s[1..] == s;
    }
  }

  /** A piece free of the separator's first character, then the separator, splits off first. */
  lemma {:induction false} SplitAfter(a: string, sep: string, b: string)
    requires sep != []
    requires forall i :: 0 <= i < |a| ==> a[i] != sep[0]
    ensures Split(a + sep + b, sep) == [a] + Split(b, sep)
    decreases |a|
  {
    var s := a + sep + b;
    if a == [] {
      assert s == sep + b;
      assert s[..|sep|] == sep;
      assert s[|sep|..] == b;
    } else {
      assert s[..|sep|][0] == a[0];
      assert s[1..] == a[1..] + sep + b;
      SplitAfter(a[1..], sep, b);
      assert [a[0]] + a[1..] == a;
    }
  }

  /** The characters of a numeral: digits and a leading minus sign. */
  lemma NumeralChars(n: int)
    ensures forall i :: 0 <= i < |IntToString(n)| ==> IsDigitIn(IntToString(n)[i], 10) || IntToString(n)[i] == '-'
  {
    if n < 0 {
      var s := IntToString(n);
      assert forall i :: 1 <= i < |s| ==> s[i] == NatToString(-n)[i - 1];
    }
  }

  /** Text made only of decimal digits, minus signs and commas. */
  predicate NumeralText(s: string) {
    forall i :: 0 <= i < |s| ==> IsDigitIn(s[i], 10) || s[i] == '-' || s[i] == ','
  }

  /** A joined list of numbers holds only digits, minus signs and commas. */
  lemma {:induction false} JoinChars(ids: seq<int>)
    ensures NumeralText(JoinInts(ids))
    decreases |ids|
  {
    if |ids| >= 1 {
      NumeralChars(ids[0]);
      assert NumeralText(IntToString(ids[0]));
    }
    if |ids| > 1 {
      JoinChars(ids[1..]);
      TextConcat(IntToString(ids[0]) + ",", JoinInts(ids[1..]));
    }
  }

  lemma TextConcat(a: string, b: string)
    requires NumeralText(a) && NumeralText(b)
    ensures NumeralText(a + b)
  {
  }

  /** `split(",")` undoes `join(",")` on a non-empty list of numbers. */
  lemma {:induction false} SplitJoin(ids: seq<int>)
    requires ids != []
    ensures NumbersOf(Split(JoinInts(ids), ",")) == ids
    decreases |ids|
  {
    if |ids| == 1 {
      var a := IntToString(ids[0]);
      NumeralFree(ids[0]);
      NumberOfString(ids[0]);
      SplitWithout(a, ",");
      NumbersOfCons(a, []);
    } else {
      SplitJoin(ids[1..]);
      SplitJoinStep(ids);
      assert [ids[0]] + ids[1..] == ids;
    }
  }

  /** One number off the front of a joined list of two or more. */
  lemma SplitJoinStep(ids: seq<int>)
    requires |ids| > 1
    ensures NumbersOf(Split(JoinInts(ids), ",")) == [ids[0]] + NumbersOf(Split(JoinInts(ids[1..]), ","))
  {
    var a := IntToString(ids[0]);
    NumeralFree(ids[0]);
    NumberOfString(ids[0]);
    SplitAfter(a, ",", JoinInts(ids[1..]));
    NumbersOfCons(a, Split(JoinInts(ids[1..]), ","));
  }

  lemma NumbersOfCons(a: string, rest: seq<string>)
    ensures NumbersOf([a] + rest) == (if JsNumber(a).Some? then [JsNumber(a).value] else []) + NumbersOf(rest)
  {
    assert ([a] + rest)[1..] == rest;
  }

  /** A numeral holds neither separator character. */
  lemma NumeralFree(n: int)
    ensures forall i :: 0 <= i < |IntToString(n)| ==> IntToString(n)[i] != ',' && IntToString(n)[i] != '_'
  {
    NumeralChars(n);
  }

  /** `new Set(ids)` of a duplicate-free list keeps it as it is. */
  lemma {:induction false} AddAllDistinct(ids: seq<int>)
    requires Distinct(ids)
    ensures AddAll([], ids) == ids
    decreases |ids|
  {
    if ids != [] {
      var init := ids[..|ids| - 1];
      assert Distinct(init);
      AddAllDistinct(init);
      assert ids[|ids| - 1] !in init;
      assert init + [ids[|ids| - 1]] == ids;
    }
  }

  /**
   * Reading back what `updateURL` wrote gives the same seed and, once put
   * into a `Set`, the same prune set in the same order; this includes the
   * empty prune set, written `"<seed>_p"`.
   */
  lemma RoundTrip(seed: int, pruned: seq<int>)
    requires Distinct(pruned)
    ensures var loaded := Decode(Some(Encode(seed, pruned)));
      loaded.seed == Some(seed) && loaded.ids == pruned && AddAll([], loaded.ids) == pruned
  {
    var a := IntToString(seed);
    var j := JoinInts(pruned);
    NumeralChars(seed);
    JoinChars(pruned);
    SplitAfter(a, "_p", j);
    SplitWithout(j, "_p");
    var parts := Split(Encode(seed, pruned), "_p");
    assert parts == [a, j];
    ParseIntOfString(seed, "");
    assert a + "" == a;
    if pruned != [] {
      assert |j| > 0;
      SplitJoin(pruned);
    }
    AddAllDistinct(pruned);
  }
}
