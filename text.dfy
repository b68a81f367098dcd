/**
 * The string operations the handlers decide with: `String.prototype.includes`
 * and `startsWith` (both case-sensitive), `split(' ')`, and the decimal form
 * a template literal gives a non-negative integer, `parseInt(s, 10)`, and
 * the string a template literal makes of any value.
 */
module Text {
  import opened Js

  /** `s.startsWith(prefix)`. */
  predicate StartsWith(s: string, prefix: string)
  {
    |prefix| <= |s| && s[..|prefix|] == prefix
  }

  /** `s.includes(part)`: `part` occurs in `s` at some position. */
  predicate Includes(s: string, part: string)
    decreases |s|
  {
    StartsWith(s, part) || (|s| > 0 && Includes(s[1..], part))
  }

  /** An occurrence at a known position is found. */
  lemma {:induction false} IncludesAt(s: string, part: string, i: nat)
    requires i + |part| <= |s| && s[i..i + |part|] == part
    ensures Includes(s, part)
    decreases i
  {
    if i > 0 {
      assert s[1..][i - 1..i - 1 + |part|] == s[i..i + |part|];
      IncludesAt(s[1..], part, i - 1);
    }
  }

  /** Every match has a position. */
  lemma {:induction false} IncludesPosition(s: string, part: string) returns (i: nat)
    requires Includes(s, part)
    ensures i + |part| <= |s| && s[i..i + |part|] == part
    decreases |s|
  {
    if StartsWith(s, part) {
      i := 0;
    } else {
      var j := IncludesPosition(s[1..], part);
      i := j + 1;
      assert s[i..i + |part|] == s[1..][j..j + |part|];
    }
  }

  /** Every character of a match occurs in the searched string. */
  lemma {:induction false} IncludesChar(s: string, part: string, k: nat)
    requires Includes(s, part) && k < |part|
    ensures part[k] in s
  {
    var i := IncludesPosition(s, part);
    assert s[i + k] == part[k];
  }

  /**
   * A match that starts within the first `k + 1` characters would cover
   * position `k`; when `s[k]` is not a character of `part`, the match lies
   * after it.
   */
  lemma {:induction false} IncludesPast(s: string, part: string, k: nat)
    requires Includes(s, part)
    requires k < |part| && k < |s| && s[k] !in part
    ensures Includes(s[k + 1..], part)
  {
    var i := IncludesPosition(s, part);
    if i <= k {
      CoveredCharMatches(s, part, i, k);
      assert false;
    }
    assert s[k + 1..][i - k - 1..i - k - 1 + |part|] == s[i..i + |part|];
    IncludesAt(s[k + 1..], part, i - k - 1);
  }

  /** A match in `s` is still a match once text is put before and after it. */
  lemma {:induction false} IncludesWithin(prefix: string, s: string, suffix: string, part: string)
    requires Includes(s, part)
    ensures Includes(prefix + s + suffix, part)
  {
    var i := IncludesPosition(s, part);
    var t := prefix + s + suffix;
    assert t[|prefix| + i..|prefix| + i + |part|] == s[i..i + |part|];
    IncludesAt(t, part, |prefix| + i);
  }

  /** `parts` joined with the one-character separator `sep` between them. */
  function Join(parts: seq<string>, sep: char): string
    decreases |parts|
  {
    if |parts| == 0 then ""
    else if |parts| == 1 then parts[0]
    else parts[0] + [sep] + Join(parts[1..], sep)
  }

  /** A match in `a + [c] + b` lies in `a`, covers `c`, or lies in `b`. */
  lemma {:induction false} NotIncludesAround(a: string, c: char, b: string, part: string)
    requires c !in part && !Includes(a, part) && !Includes(b, part)
    ensures !Includes(a + [c] + b, part)
  {
    var s := a + [c] + b;
    if Includes(s, part) {
      var i := IncludesPosition(s, part);
      if i + |part| <= |a| {
        assert s[i..i + |part|] == a[i..i + |part|];
        IncludesAt(a, part, i);
      } else if i <= |a| {
        CoveredCharMatches(s, part, i, |a|);
      } else {
        assert s[i..i + |part|] == b[i - |a| - 1..i - |a| - 1 + |part|];
        IncludesAt(b, part, i - |a| - 1);
      }
    }
  }

  /** The character at position `j` of a match at `i` belongs to `part`. */
  lemma {:induction false} CoveredCharMatches(s: string, part: string, i: nat, j: nat)
    requires i + |part| <= |s| && s[i..i + |part|] == part
    requires i <= j < i + |part|
    ensures s[j] in part
  {
    assert s[j] == part[j - i];
  }

  /** A string shorter than `part` does not contain it. */
  lemma {:induction false} NotIncludesShorter(s: string, part: string)
    requires |s| < |part|
    ensures !Includes(s, part)
  {
    if Includes(s, part) {
      var i := IncludesPosition(s, part);
    }
  }

  /**
   * Words joined by a separator foreign to `part` do not contain it when no
   * word is long enough to, or the word lacks the character `missing` of `part`.
   */
  lemma {:induction false} NotIncludesJoin(words: seq<string>, sep: char, part: string, missing: char)
    requires sep !in part && missing in part
    requires forall k :: 0 <= k < |words| ==> |words[k]| < |part| || missing !in words[k]
    ensures !Includes(Join(words, sep), part)
    decreases |words|
  {
    if |words| == 0 {
      NotIncludesShorter("", part);
    } else {
      assert !Includes(words[0], part) by {
        if |words[0]| < |part| {
          NotIncludesShorter(words[0], part);
        } else if Includes(words[0], part) {
          var k :| 0 <= k < |part| && part[k] == missing;
          IncludesChar(words[0], part, k);
        }
      }
      if |words| > 1 {
        NotIncludesJoin(words[1..], sep, part, missing);
        NotIncludesAround(words[0], sep, Join(words[1..], sep), part);
      }
    }
  }

  /** A character in neither the words nor the separator is not in the joined string. */
  lemma {:induction false} JoinLacksChar(words: seq<string>, sep: char, c: char)
    requires c != sep && forall k :: 0 <= k < |words| ==> c !in words[k]
    ensures c !in Join(words, sep)
    decreases |words|
  {
    if |words| > 1 {
      JoinLacksChar(words[1..], sep, c);
    }
  }

  /** A string lacking one of `part`'s characters does not contain `part`. */
  lemma {:induction false} NotIncludesWithoutChar(s: string, part: string, k: nat)
    requires k < |part| && part[k] !in s
    ensures !Includes(s, part)
  {
    if Includes(s, part) {
      IncludesChar(s, part, k);
    }
  }

  /** A match of a match is a match. */
  lemma {:induction false} IncludesTransitive(s: string, x: string, part: string)
    requires Includes(s, x) && Includes(x, part)
    ensures Includes(s, part)
  {
    var i := IncludesPosition(s, x);
    var j := IncludesPosition(x, part);
    var m := s[i + j..i + j + |part|];
    forall t | 0 <= t < |part|
      ensures m[t] == part[t]
    {
      assert m[t] == s[i..i + |x|][j + t];
      assert part[t] == x[j..j + |part|][t];
    }
    assert m == part;
    IncludesAt(s, part, i + j);
  }

  /** Two neighbouring words and the separator between them occur in the joined string. */
  lemma {:induction false} JoinContainsPair(words: seq<string>, sep: char, k: nat)
    requires k + 1 < |words|
    ensures Includes(Join(words, sep), words[k] + [sep] + words[k + 1])
    decreases k
  {
    var pair := words[k] + [sep] + words[k + 1];
    if k == 0 {
      var rest := Join(words[1..], sep);
      assert Join(words, sep) == words[0] + [sep] + rest;
      if |words| == 2 {
        assert Join(words, sep) == pair;
        IncludesAt(pair, pair, 0);
      } else {
        assert rest == words[1] + [sep] + Join(words[2..], sep);
        var s := Join(words, sep);
        assert s[..|pair|] == pair;
        IncludesAt(s, pair, 0);
      }
    } else {
      JoinContainsPair(words[1..], sep, k - 1);
      assert words[1..][k - 1] == words[k] && words[1..][k] == words[k + 1];
      IncludesWithin(words[0] + [sep], Join(words[1..], sep), "", pair);
      assert words[0] + [sep] + Join(words[1..], sep) + "" == Join(words, sep);
    }
  }

  /**
   * `s.split(sep)` for a one-character separator: the pieces between the
   * separators, none of them containing it; joining them gives `s` back.
   */
  function Split(s: string, sep: char): (parts: seq<string>)
    ensures |parts| >= 1
    ensures forall k :: 0 <= k < |parts| ==> sep !in parts[k]
    ensures Join(parts, sep) == s
    decreases |s|
  {
    if |s| == 0 then [""]
    else
      var rest := Split(s[1..], sep);
      if s[0] == sep then
        assert Join([""] + rest, sep) == [sep] + Join(rest, sep);
        [""] + rest
      else
        var parts := [[s[0]] + rest[0]] + rest[1..];
        assert Join(parts, sep) == [s[0]] + Join(rest, sep) by {
          if |rest| > 1 {
            assert parts[1..] == rest[1..];
          }
        }
        parts
  }

  /**
   * Behind a prefix ending in a space, a space-free part whose first
   * character the rest of the prefix lacks is found exactly when the
   * message holds it.
   */
  lemma {:induction false} MentionAfterPrefix(a: string, m: string, part: string)
    requires |part| > 0 && part[0] !in a && ' ' !in part
    ensures Includes(a + " " + m, part) <==> Includes(m, part)
  {
    if Includes(m, part) {
      IncludesWithin(a + " ", m, "", part);
      assert a + " " + m + "" == a + " " + m;
    } else {
      NotIncludesWithoutChar(a, part, 0);
      NotIncludesAround(a, ' ', m, part);
      assert a + [' '] + m == a + " " + m;
    }
  }

  /** A string without the separator splits into itself alone. */
  lemma {:induction false} SplitWithoutSeparator(s: string, sep: char)
    requires sep !in s
    ensures Split(s, sep) == [s]
    decreases |s|
  {
    if |s| > 0 {
      SplitWithoutSeparator(s[1..], sep);
      assert [s[0]] + s[1..] == s;
    }
  }

  /** Splitting at the first separator: the first piece, then the split of what follows it. */
  lemma {:induction false} SplitAtFirst(s: string, sep: char, i: nat)
    requires i < |s| && s[i] == sep && sep !in s[..i]
    ensures Split(s, sep) == [s[..i]] + Split(s[i + 1..], sep)
    decreases i
  {
    if i > 0 {
      assert s[0] == s[..i][0];
      assert s[1..][..i - 1] == s[..i][1..];
      assert s[1..][i - 1] == s[i];
      SplitAtFirst(s[1..], sep, i - 1);
      assert s[1..][i..] == s[i + 1..];
      assert [s[0]] + s[1..][..i - 1] == s[..i];
    }
  }

  /** The decimal digits of `n`, as a template literal prints a non-negative integer. */
  function NatToString(n: nat): (digits: string)
    ensures |digits| >= 1
    ensures forall k :: 0 <= k < |digits| ==> '0' <= digits[k] <= '9'
    decreases n
  {
    if n < 10 then [Digit(n)] else NatToString(n / 10) + [Digit(n % 10)]
  }

  function Digit(d: nat): (c: char)
    requires d < 10
    ensures '0' <= c <= '9'
  {
    ['0', '1', '2', '3', '4', '5', '6', '7', '8', '9'][d]
  }

  /** The value a string of decimal digits denotes. */
  function DigitsValue(digits: string): nat
    requires forall k :: 0 <= k < |digits| ==> '0' <= digits[k] <= '9'
    decreases |digits|
  {
    if |digits| == 0 then 0
    else DigitsValue(digits[..|digits| - 1]) * 10 + (digits[|digits| - 1] as int - '0' as int)
  }

  /** Reading the printed digits back gives the number. */
  lemma {:induction false} NatToStringRoundTrip(n: nat)
    ensures DigitsValue(NatToString(n)) == n
    decreases n
  {
    var d := NatToString(n);
    if n >= 10 {
      NatToStringRoundTrip(n / 10);
      assert d[..|d| - 1] == NatToString(n / 10);
    }
    DigitValue(n % 10);
  }

  lemma {:induction false} DigitValue(d: nat)
    requires d < 10
    ensures Digit(d) as int - '0' as int == d
  {
  }

  predicate IsDigit(c: char)
  {
    '0' <= c <= '9'
  }

  /**
   * The characters `parseInt` skips before the number: the ECMAScript
   * WhiteSpace (tab, vertical tab, form feed, byte-order mark and every
   * space separator) and LineTerminator code points.
   */
  predicate IsJsWhitespace(c: char)
  {
    var u := c as int;
    || u == 0x09 || u == 0x0B || u == 0x0C || u == 0xFEFF
    || u == 0x20 || u == 0xA0 || u == 0x1680 || (0x2000 <= u <= 0x200A)
    || u == 0x202F || u == 0x205F || u == 0x3000
    || u == 0x0A || u == 0x0D || u == 0x2028 || u == 0x2029
  }

  /** `s` without its leading whitespace. */
  function TrimStart(s: string): (t: string)
    ensures |t| <= |s| && t == s[|s| - |t|..]
    ensures |t| > 0 ==> !IsJsWhitespace(t[0])
    ensures forall k :: 0 <= k < |s| - |t| ==> IsJsWhitespace(s[k])
    decreases |s|
  {
    if |s| > 0 && IsJsWhitespace(s[0]) then
      var t := TrimStart(s[1..]);
      assert forall k :: 1 <= k < |s| - |t| ==> s[k] == s[1..][k - 1];
      t
    else s
  }

  /** The length of the longest run of decimal digits `s` starts with. */
  function DigitPrefixLength(s: string): (k: nat)
    ensures k <= |s|
    ensures forall j :: 0 <= j < k ==> IsDigit(s[j])
    ensures k < |s| ==> !IsDigit(s[k])
    decreases |s|
  {
    if |s| > 0 && IsDigit(s[0]) then 1 + DigitPrefixLength(s[1..]) else 0
  }

  /**
   * `parseInt(s, 10)`: leading whitespace skipped, one optional sign, then
   * the longest run of digits; `NaN` when that run is empty.
   */
  function ParseInt(s: string): Parsed<int>
  {
    var t := TrimStart(s);
    var negative := |t| > 0 && t[0] == '-';
    var body := if |t| > 0 && (t[0] == '-' || t[0] == '+') then t[1..] else t;
    var k := DigitPrefixLength(body);
    if k == 0 then NotANumber
    else
      var magnitude: int := DigitsValue(body[..k]);
      Number(if negative then -magnitude else magnitude)
  }

  /** A run of digits followed by a non-digit is measured exactly. */
  lemma {:induction false} DigitPrefixOfDigits(digits: string, rest: string)
    requires forall k :: 0 <= k < |digits| ==> IsDigit(digits[k])
    requires |rest| > 0 ==> !IsDigit(rest[0])
    ensures DigitPrefixLength(digits + rest) == |digits|
    decreases |digits|
  {
    if |digits| > 0 {
      assert (digits + rest)[1..] == digits[1..] + rest;
      DigitPrefixOfDigits(digits[1..], rest);
    }
  }

  /**
   * `parseInt` reads back the decimal form of a non-negative integer,
   * whatever non-digit text follows it (`parseInt("12abc", 10)` is 12).
   */
  lemma {:induction false} ParseIntOfNatToString(n: nat, rest: string)
    requires |rest| > 0 ==> !IsDigit(rest[0])
    ensures ParseInt(NatToString(n) + rest) == Number(n)
  {
    ParseIntOfDigits(NatToString(n), rest);
    NatToStringRoundTrip(n);
  }

  /** `parseInt` of a run of digits followed by a non-digit is the value of the run. */
  lemma {:induction false} ParseIntOfDigits(digits: string, rest: string)
    requires |digits| > 0 && forall k :: 0 <= k < |digits| ==> '0' <= digits[k] <= '9'
    requires |rest| > 0 ==> !IsDigit(rest[0])
    ensures ParseInt(digits + rest) == Number(DigitsValue(digits))
  {
    var s := digits + rest;
    assert s[0] == digits[0] && IsDigit(s[0]);
    assert !IsJsWhitespace(s[0]);
    assert TrimStart(s) == s;
    assert s[0] != '-' && s[0] != '+';
    DigitPrefixOfDigits(digits, rest);
    assert s[..|digits|] == digits;
  }

  /** The largest magnitude an integral number prints without an exponent. */
  const PlainIntegerLimit: real := 1000000000000000000000.0

  /**
   * What a template literal makes of a value.  Integral numbers below
   * 10^21 in magnitude print as their decimal digits; any other number goes
   * through `formatNumber`, the engine's shortest round-trip formatting.
   */
  function Display(v: Value, formatNumber: real -> string): (s: string)
    ensures v.Str? ==> s == v.s
    ensures v.Num? && v.n == v.n.Floor as real && 0.0 <= v.n < PlainIntegerLimit ==>
      s == NatToString(v.n.Floor)
    decreases v
  {
    match v
    case Undefined => "undefined"
    case Null => "null"
    case NaN => "NaN"
    case Bool(b) => if b then "true" else "false"
    case Str(text) => text
    case Num(n) =>
      if n == n.Floor as real && -PlainIntegerLimit < n < PlainIntegerLimit then
        if n >= 0.0 then NatToString(n.Floor) else "-" + NatToString(-n.Floor)
      else formatNumber(n)
    case Arr(items) => DisplayItems(items, formatNumber)
    case Obj(_) => "[object Object]"
  }

  /** `Array.prototype.toString`: the elements joined by commas, `null` and `undefined` as empty. */
  function DisplayItems(items: seq<Value>, formatNumber: real -> string): string
    decreases items
  {
    if |items| == 0 then ""
    else
      var last := items[|items| - 1];
      var shown := if Nullish(last) then "" else Display(last, formatNumber);
      if |items| == 1 then shown
      else DisplayItems(items[..|items| - 1], formatNumber) + "," + shown
  }

  /** An integral id printed into a message is read back by `parseInt`. */
  lemma {:induction false} DisplayedIdParses(n: nat, formatNumber: real -> string)
    requires (n as real) < PlainIntegerLimit
    ensures ParseInt(Display(Num(n as real), formatNumber)) == Number(n)
  {
    var shown := Display(Num(n as real), formatNumber);
    assert shown == NatToString(n) by {
      assert (n as real).Floor == n;
    }
    ParseIntOfNatToString(n, "");
    assert shown + "" == shown;
  }

  /** `toLowerCase` on the ASCII letters; every other character is kept. */
  function Lower(s: string): (t: string)
    ensures |t| == |s|
    ensures forall i :: 0 <= i < |s| ==>
      t[i] == if 'A' <= s[i] <= 'Z' then (s[i] - 'A') + 'a' else s[i]
  {
    seq(|s|, i requires 0 <= i < |s| => if 'A' <= s[i] <= 'Z' then (s[i] - 'A') + 'a' else s[i])
  }

  /** Lower-casing works character by character, so it commutes with taking a prefix. */
  lemma {:induction false} LowerPrefix(a: string, b: string)
    ensures Lower(a + b)[..|a|] == Lower(a)
  {
    assert forall i :: 0 <= i < |a| ==> (a + b)[i] == a[i];
  }
}
