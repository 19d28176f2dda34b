/**
 * The handful of JavaScript value semantics the protocol engine leans on:
 * `undefined` for a missing comma field, `Number(...)`, `parseInt(..., 2)`,
 * the bitwise `&`/`~` on 32-bit integers, `String.prototype.split`, `trim`,
 * the `\s` and `\d` regex classes and decimal rendering in template literals.
 */
module Js {

  /** `None` stands for JavaScript `undefined` (a missing field or property). */
  datatype Option<+T> = None | Some(value: T)

  /** A JavaScript number as far as the model needs one: NaN or an integer. */
  datatype Number = NaN | Int(value: int)

  /** How a template literal renders a possibly undefined string. */
  function Str(x: Option<string>): string
  {
    match x
    case Some(s) => s
    case None => "undefined"
  }

  predicate StartsWith(s: string, p: string)
  {
    |p| <= |s| && s[..|p|] == p
  }

  // ---------------------------------------------------------------------------
  // split(',')

  /** `s.split(sep)` for a one-character separator: never empty, "" gives [""]. */
  function Split(s: string, sep: char): (r: seq<string>)
    ensures |r| >= 1
    decreases |s|
  {
    if |s| == 0 then [""]
    else
      var rest := Split(s[1..], sep);
      if s[0] == sep then [""] + rest
      else [[s[0]] + rest[0]] + rest[1..]
  }

  /** `fields.join(sep)`. */
  function Join(fields: seq<string>, sep: char): string
    decreases |fields|
  {
    if |fields| == 0 then ""
    else if |fields| == 1 then fields[0]
    else fields[0] + [sep] + Join(fields[1..], sep)
  }

  /** Splitting loses nothing: joining the fields back gives the reply text. */
  lemma {:induction false} SplitJoin(s: string, sep: char)
    ensures Join(Split(s, sep), sep) == s
    ensures forall i :: 0 <= i < |Split(s, sep)| ==> sep !in Split(s, sep)[i]
    decreases |s|
  {
    if |s| > 0 {
      SplitJoin(s[1..], sep);
      var rest := Split(s[1..], sep);
      if s[0] == sep {
        assert Split(s, sep) == [""] + rest;
        assert Join([""] + rest, sep) == "" + [sep] + Join(rest, sep);
      } else {
        var r := Split(s, sep);
        assert r == [[s[0]] + rest[0]] + rest[1..];
        if |rest| == 1 {
          assert Join(r, sep) == [s[0]] + rest[0];
        } else {
          assert rest == [rest[0]] + rest[1..];
          assert Join(rest, sep) == rest[0] + [sep] + Join(rest[1..], sep);
          assert Join(r, sep) == ([s[0]] + rest[0]) + [sep] + Join(rest[1..], sep);
        }
        assert s == [s[0]] + s[1..];
      }
    }
  }

  /**
   * The first field starts with a non-separator character c exactly when the
   * whole text does: this is why `arr[0].startsWith('#')` classifies a reply.
   */
  lemma {:induction false} SplitHead(s: string, sep: char, c: char)
    requires c != sep
    ensures StartsWith(Split(s, sep)[0], [c]) <==> StartsWith(s, [c])
  {
    if |s| > 0 {
      var rest := Split(s[1..], sep);
      if s[0] == sep {
        assert Split(s, sep)[0] == "";
      } else {
        assert Split(s, sep)[0] == [s[0]] + rest[0];
      }
    }
  }

  /** A text whose head x holds no separator splits with x as its first field. */
  lemma {:induction false} SplitFirstField(x: string, sep: char, y: string)
    requires sep !in x
    ensures Split(x + [sep] + y, sep)[0] == x
    decreases |x|
  {
    if |x| == 0 {
      assert x + [sep] + y == [sep] + y;
    } else {
      assert (x + [sep] + y)[1..] == x[1..] + [sep] + y;
      SplitFirstField(x[1..], sep, y);
      assert x == [x[0]] + x[1..];
    }
  }

  /** Without a separator the whole text is the single field. */
  lemma {:induction false} SplitNoSeparator(x: string, sep: char)
    requires sep !in x
    ensures Split(x, sep) == [x]
    decreases |x|
  {
    if |x| > 0 {
      SplitNoSeparator(x[1..], sep);
      assert x == [x[0]] + x[1..];
    }
  }

  /** A head without a separator becomes the first field; the rest splits on its own. */
  lemma {:induction false} SplitCons(x: string, sep: char, y: string)
    requires sep !in x
    ensures Split(x + [sep] + y, sep) == [x] + Split(y, sep)
    decreases |x|
  {
    if |x| == 0 {
      assert x + [sep] + y == [sep] + y;
    } else {
      assert (x + [sep] + y)[1..] == x[1..] + [sep] + y;
      SplitCons(x[1..], sep, y);
      assert x == [x[0]] + x[1..];
    }
  }

  /** Joining separator-free fields and splitting again gives the same fields back. */
  lemma {:induction false} JoinSplit(fields: seq<string>, sep: char)
    requires |fields| >= 1
    requires forall i :: 0 <= i < |fields| ==> sep !in fields[i]
    ensures Split(Join(fields, sep), sep) == fields
    decreases |fields|
  {
    if |fields| == 1 {
      SplitNoSeparator(fields[0], sep);
    } else {
      JoinSplit(fields[1..], sep);
      SplitCons(fields[0], sep, Join(fields[1..], sep));
      assert fields == [fields[0]] + fields[1..];
    }
  }

  /** `arr[i]`: the i-th field, or undefined past the end. */
  function Field(arr: seq<string>, i: int): Option<string>
  {
    if 0 <= i < |arr| then Some(arr[i]) else None
  }

  // ---------------------------------------------------------------------------
  // Whitespace: the `\s` class, which is also what trim() and Number() strip.

  predicate IsSpace(c: char)
  {
    c == '\t' || c == '\n' || c == '\U{000B}' || c == '\U{000C}' || c == '\r' || c == ' '
    || c == '\U{00A0}' || c == '\U{1680}' || ('\U{2000}' <= c <= '\U{200A}')
    || c == '\U{2028}' || c == '\U{2029}' || c == '\U{202F}' || c == '\U{205F}'
    || c == '\U{3000}' || c == '\U{FEFF}'
  }

  function TrimStart(s: string): (r: string)
    ensures |r| <= |s|
    decreases |s|
  {
    if |s| > 0 && IsSpace(s[0]) then TrimStart(s[1..]) else s
  }

  /** `trimStart` drops exactly the leading whitespace: a suffix that starts with no space. */
  lemma {:induction false} TrimStartShape(s: string)
    ensures var r := TrimStart(s);
      && r == s[|s| - |r|..]
      && (|r| > 0 ==> !IsSpace(r[0]))
      && (forall i :: 0 <= i < |s| - |r| ==> IsSpace(s[i]))
    decreases |s|
  {
    if |s| > 0 && IsSpace(s[0]) {
      TrimStartShape(s[1..]);
      var r := TrimStart(s);
      assert s[1..][|s| - 1 - |r|..] == s[|s| - |r|..];
      forall i | 1 <= i < |s| - |r|
        ensures IsSpace(s[i])
      {
        assert s[1..][i - 1] == s[i];
      }
    }
  }

  function TrimEnd(s: string): (r: string)
    ensures |r| <= |s|
    decreases |s|
  {
    if |s| > 0 && IsSpace(s[|s| - 1]) then TrimEnd(s[..|s| - 1]) else s
  }

  /** `trimEnd` drops exactly the trailing whitespace: a prefix that ends with no space. */
  lemma {:induction false} TrimEndShape(s: string)
    ensures var r := TrimEnd(s);
      && r == s[..|r|]
      && (|r| > 0 ==> !IsSpace(r[|r| - 1]))
      && (forall i :: |r| <= i < |s| ==> IsSpace(s[i]))
    decreases |s|
  {
    if |s| > 0 && IsSpace(s[|s| - 1]) {
      TrimEndShape(s[..|s| - 1]);
      var r := TrimEnd(s);
      assert s[..|s| - 1][..|r|] == s[..|r|];
      forall i | |r| <= i < |s| - 1
        ensures IsSpace(s[i])
      {
        assert s[..|s| - 1][i] == s[i];
      }
    }
  }

  /** `s.trim()`. */
  function Trim(s: string): string
  {
    TrimEnd(TrimStart(s))
  }

  /** `s.replace(/\s/g, '')`. */
  function RemoveSpaces(s: string): (r: string)
    ensures |r| <= |s|
    decreases |s|
  {
    if |s| == 0 then ""
    else if IsSpace(s[0]) then RemoveSpaces(s[1..])
    else [s[0]] + RemoveSpaces(s[1..])
  }

  /** What `replace(/\s/g, '')` leaves has no whitespace. */
  lemma {:induction false} RemoveSpacesClean(s: string)
    ensures forall i :: 0 <= i < |RemoveSpaces(s)| ==> !IsSpace(RemoveSpaces(s)[i])
    decreases |s|
  {
    if |s| > 0 {
      RemoveSpacesClean(s[1..]);
    }
  }

  // ---------------------------------------------------------------------------
  // Decimal digits: the `\d` class, Number() and template-literal rendering.

  predicate IsDigit(c: char)
  {
    '0' <= c <= '9'
  }

  function DigitValue(c: char): nat
    requires IsDigit(c)
  {
    c as int - '0' as int
  }

  predicate AllDigits(s: string)
  {
    forall i :: 0 <= i < |s| ==> IsDigit(s[i])
  }

  function DecimalValue(s: string): nat
    requires AllDigits(s)
    decreases |s|
  {
    if |s| == 0 then 0 else DecimalValue(s[..|s| - 1]) * 10 + DigitValue(s[|s| - 1])
  }

  /** `lastCommand.match(/\d/g)` read as numbers (an empty result stands for `null`). */
  function Digits(s: string): (r: seq<nat>)
    decreases |s|
  {
    if |s| == 0 then []
    else if IsDigit(s[0]) then [DigitValue(s[0])] + Digits(s[1..])
    else Digits(s[1..])
  }

  /** Every matched digit is a single decimal digit. */
  lemma {:induction false} DigitsBelowTen(s: string)
    ensures forall i :: 0 <= i < |Digits(s)| ==> Digits(s)[i] <= 9
    decreases |s|
  {
    if |s| > 0 {
      DigitsBelowTen(s[1..]);
    }
  }

  /** `Number(s.match(/\d/))`: the first digit, or 0 when there is none (`Number(null)`). */
  function FirstDigit(s: string): (r: nat)
    ensures r <= 9
  {
    var ds := Digits(s);
    DigitsBelowTen(s);
    if |ds| == 0 then 0 else ds[0]
  }

  /** Decimal rendering of a natural number, as `${n}` gives it. */
  function NatToString(n: nat): (r: string)
    ensures |r| >= 1 && AllDigits(r)
    decreases n
  {
    if n < 10 then [('0' as int + n) as char]
    else NatToString(n / 10) + [('0' as int + n % 10) as char]
  }

  /** Rendering then reading a natural number gives it back. */
  lemma {:induction false} NatToStringValue(n: nat)
    ensures DecimalValue(NatToString(n)) == n
    decreases n
  {
    if n >= 10 {
      NatToStringValue(n / 10);
      var s := NatToString(n);
      assert s[..|s| - 1] == NatToString(n / 10);
    }
  }

  /** The text of an integer literal: an optional sign and at least one digit. */
  function IntegerLiteral(t: string): Option<int>
  {
    if |t| > 0 && AllDigits(t) then Some(DecimalValue(t))
    else if |t| > 1 && t[0] == '-' && AllDigits(t[1..]) then Some(-(DecimalValue(t[1..]) as int))
    else if |t| > 1 && t[0] == '+' && AllDigits(t[1..]) then Some(DecimalValue(t[1..]))
    else None
  }

  /**
   * `Number(x)` for a field that may be undefined: surrounding whitespace is
   * ignored, the empty string is 0, an integer literal is its value and
   * everything else is NaN.
   */
  function ToNumber(x: Option<string>): (r: Number)
    ensures x.None? ==> r == NaN
  {
    match x
    case None => NaN
    case Some(s) =>
      var t := Trim(s);
      if t == "" then Int(0)
      else match IntegerLiteral(t)
        case Some(v) => Int(v)
        case None => NaN
  }

  /** Reading back a rendered natural number gives that number. */
  lemma ToNumberOfNat(n: nat)
    ensures ToNumber(Some(NatToString(n))) == Int(n)
  {
    var s := NatToString(n);
    NatToStringValue(n);
    assert !IsSpace(s[0]) && !IsSpace(s[|s| - 1]);
    assert TrimStart(s) == s;
    assert TrimEnd(s) == s;
  }

  /** `Boolean(x * 1)`: true for a field that reads as a non-zero number. */
  predicate Truthy(x: Option<string>)
  {
    var n := ToNumber(x);
    n.Int? && n.value != 0
  }

  // ---------------------------------------------------------------------------
  // parseInt(x, 2) and 32-bit bitwise operators

  /** The longest prefix of binary digits. */
  function BinaryPrefix(s: string): (r: string)
    ensures |r| <= |s|
    decreases |s|
  {
    if |s| > 0 && (s[0] == '0' || s[0] == '1') then [s[0]] + BinaryPrefix(s[1..]) else ""
  }

  /** The binary prefix is the longest prefix made of `0` and `1`. */
  lemma {:induction false} BinaryPrefixShape(s: string)
    ensures var r := BinaryPrefix(s);
      && r == s[..|r|]
      && (forall i :: 0 <= i < |r| ==> r[i] == '0' || r[i] == '1')
      && (|r| < |s| ==> s[|r|] != '0' && s[|r|] != '1')
    decreases |s|
  {
    if |s| > 0 && (s[0] == '0' || s[0] == '1') {
      BinaryPrefixShape(s[1..]);
      var r, t := BinaryPrefix(s), BinaryPrefix(s[1..]);
      assert r == [s[0]] + t;
      assert t == s[1..][..|t|];
      assert s[..|r|] == [s[0]] + s[1..][..|t|];
    }
  }

  function BinaryValue(s: string): nat
    decreases |s|
  {
    if |s| == 0 then 0
    else BinaryValue(s[..|s| - 1]) * 2 + (if s[|s| - 1] == '1' then 1 else 0)
  }

  /**
   * `parseInt(x, 2)`: leading whitespace and one sign are skipped, then the
   * longest run of binary digits is read; `None` is NaN (no digit at all).
   * `undefined` is parsed as the text "undefined".
   */
  function ParseBinary(x: Option<string>): Option<int>
  {
    var t := TrimStart(Str(x));
    var neg := |t| > 0 && t[0] == '-';
    var body := if |t| > 0 && (t[0] == '-' || t[0] == '+') then t[1..] else t;
    var digits := BinaryPrefix(body);
    if digits == "" then None
    else if neg then Some(-(BinaryValue(digits) as int))
    else Some(BinaryValue(digits))
  }

  /** The integer a bitwise operator sees: NaN becomes 0. */
  function BitsOf(v: Option<int>): int
  {
    match v
    case Some(n) => n
    case None => 0
  }

  function Pow2(k: nat): (r: nat)
    ensures r >= 1
  {
    if k == 0 then 1 else 2 * Pow2(k - 1)
  }

  /**
   * Bit k (k < 32) of the two's complement integer v, which is what
   * `Boolean(v & (1 << k))` tests. Dafny's division by a positive divisor
   * rounds down, so negative values read as two's complement.
   */
  predicate Bit(v: int, k: nat)
  {
    (v / Pow2(k)) % 2 == 1
  }

  /** A string made only of binary digits. */
  predicate IsBinaryText(b: string)
  {
    forall i :: 0 <= i < |b| ==> b[i] == '0' || b[i] == '1'
  }

  /** Character k counted from the right of a binary text is '1' (false past its left end). */
  predicate BitChar(b: string, k: nat)
  {
    k < |b| && b[|b| - 1 - k] == '1'
  }

  /** A non-empty binary text parses to its value. */
  lemma ParseBinaryText(b: string)
    requires |b| > 0 && IsBinaryText(b)
    ensures ParseBinary(Some(b)) == Some(BinaryValue(b))
  {
    assert b[0] == '0' || b[0] == '1';
    assert !IsSpace(b[0]);
    var t := TrimStart(Str(Some(b)));
    assert t == b && t[0] != '-' && t[0] != '+';
    BinaryPrefixOfText(b);
  }

  lemma BinaryPrefixOfText(b: string)
    requires IsBinaryText(b)
    ensures BinaryPrefix(b) == b
  {
  }

  /** A positive multiple of d is at least d. */
  lemma MulAtLeast(d: nat, x: int)
    requires x >= 1
    ensures d * x >= d
  {
    assert d * x == d + d * (x - 1);
  }

  /** Quotient and remainder are the unique pair that rebuilds the dividend. */
  lemma DivUnique(n: int, d: int, q: int, r: int)
    requires d > 0 && n == d * q + r && 0 <= r < d
    ensures n / d == q && n % d == r
  {
    var q', r' := n / d, n % d;
    assert n == d * q' + r' && 0 <= r' < d;
    if q > q' {
      MulAtLeast(d, q - q');
    } else if q < q' {
      MulAtLeast(d, q' - q);
    }
  }

  /** Doubling and adding a bit shifts every bit up by one place. */
  lemma ShiftBit(v: nat, c: nat, k: nat)
    requires c <= 1
    ensures Bit(2 * v + c, 0) <==> c == 1
    ensures Bit(2 * v + c, k + 1) <==> Bit(v, k)
  {
    var p := Pow2(k);
    var q, r := v / p, v % p;
    DivUnique(2 * v + c, 2, v, c);
    assert 2 * v + c == (2 * p) * q + (2 * r + c) by {
      assert v == p * q + r;
    }
    DivUnique(2 * v + c, 2 * p, q, 2 * r + c);
  }

  /** Bit k of a binary text's value is its k-th character from the right. */
  lemma {:induction false} BinaryBit(b: string, k: nat)
    requires IsBinaryText(b)
    ensures Bit(BinaryValue(b), k) <==> BitChar(b, k)
    decreases |b|
  {
    if |b| == 0 {
      assert BinaryValue(b) == 0;
    } else {
      var init := b[..|b| - 1];
      var c := if b[|b| - 1] == '1' then 1 else 0;
      assert BinaryValue(b) == 2 * BinaryValue(init) + c;
      if k == 0 {
        ShiftBit(BinaryValue(init), c, 0);
      } else {
        ShiftBit(BinaryValue(init), c, k - 1);
        BinaryBit(init, k - 1);
        assert BitChar(init, k - 1) <==> BitChar(b, k);
      }
    }
  }

  /** `v & (1 << k)`: the bit's own value, or 0. */
  function Masked(v: int, k: nat): int
  {
    if Bit(v, k) then Pow2(k) else 0
  }

  /** JavaScript `~x` on a 32-bit integer. */
  function BitNot(x: int): int
  {
    -x - 1
  }

  // ---------------------------------------------------------------------------
  // replace

  /** `s.replace(/a/g, b)` for single characters. */
  function ReplaceAll(s: string, a: char, b: char): (r: string)
    ensures |r| == |s|
    decreases |s|
  {
    if |s| == 0 then ""
    else [if s[0] == a then b else s[0]] + ReplaceAll(s[1..], a, b)
  }

  /** Every occurrence of `a` becomes `b`; everything else stays. */
  lemma {:induction false} ReplaceAllChars(s: string, a: char, b: char)
    ensures forall i :: 0 <= i < |s| ==> ReplaceAll(s, a, b)[i] == (if s[i] == a then b else s[i])
    decreases |s|
  {
    if |s| > 0 {
      ReplaceAllChars(s[1..], a, b);
    }
  }

  /** `s.replace(a, b)` with a string pattern: only the first occurrence changes. */
  function ReplaceFirst(s: string, a: char, b: char): (r: string)
    ensures |r| == |s|
    decreases |s|
  {
    if |s| == 0 then ""
    else if s[0] == a then [b] + s[1..]
    else [s[0]] + ReplaceFirst(s[1..], a, b)
  }

  /** The first occurrence of `a`, and only it, becomes `b`. */
  lemma {:induction false} ReplaceFirstChars(s: string, a: char, b: char)
    ensures forall i :: 0 <= i < |s| ==>
      ReplaceFirst(s, a, b)[i] == (if s[i] == a && a !in s[..i] then b else s[i])
    decreases |s|
  {
    if |s| > 0 && s[0] != a {
      ReplaceFirstChars(s[1..], a, b);
      forall i | 1 <= i < |s|
        ensures ReplaceFirst(s, a, b)[i] == (if s[i] == a && a !in s[..i] then b else s[i])
      {
        PrefixAfterHead(s, a, i);
      }
    } else if |s| > 0 {
      forall i | 1 <= i < |s|
        ensures a in s[..i]
      {
        assert s[..i][0] == a;
      }
    }
  }

  /** Membership in a prefix of length `i` splits into the head and the rest. */
  lemma PrefixAfterHead(s: string, a: char, i: int)
    requires 1 <= i <= |s|
    ensures a in s[..i] <==> (a == s[0] || a in s[1..][..i - 1])
  {
    assert s[..i] == [s[0]] + s[1..][..i - 1];
  }
}
