/**
 * The two string conversions the page relies on: JavaScript's
 * `String.prototype.split` with a one-character separator, and the decimal
 * text a number takes inside a template literal (`${rank}`).
 */
module Text {

  import opened Wrappers

  /** Joins non-empty `parts` with `sep` between neighbours (`parts.join(sep)`). */
  function Join(parts: seq<string>, sep: char): string
    requires |parts| > 0
  {
    if |parts| == 1 then parts[0] else parts[0] + [sep] + Join(parts[1..], sep)
  }

  /**
   * `s.split(sep)`: the maximal runs of `s` between separators, in order.  The
   * empty string splits into one empty part, as in JavaScript.
   */
  function Split(s: string, sep: char): (parts: seq<string>)
    ensures |parts| > 0
    ensures Join(parts, sep) == s
    ensures forall i :: 0 <= i < |parts| ==> sep !in parts[i]
  {
    if s == [] then [""]
    else if s[0] == sep then
      var rest := Split(s[1..], sep);
      assert s == [sep] + s[1..];
      [""] + rest
    else
      var rest := Split(s[1..], sep);
      var parts := [[s[0]] + rest[0]] + rest[1..];
      assert parts[1..] == rest[1..];
      assert |rest| > 1 ==> Join(rest, sep) == rest[0] + [sep] + Join(rest[1..], sep);
      parts
  }

  /** Splitting undoes joining separator-free parts. */
  lemma {:induction false} SplitJoin(parts: seq<string>, sep: char)
    requires |parts| > 0
    requires forall i :: 0 <= i < |parts| ==> sep !in parts[i]
    ensures Split(Join(parts, sep), sep) == parts
    decreases |Join(parts, sep)|, |parts[0]|
  {
    var s := Join(parts, sep);
    if parts[0] == [] {
      if |parts| > 1 {
        assert s == [sep] + Join(parts[1..], sep);
        assert s[1..] == Join(parts[1..], sep);
        SplitJoin(parts[1..], sep);
        assert parts == [""] + parts[1..];
      }
    } else {
      var c := parts[0][0];
      var shorter := [parts[0][1..]] + parts[1..];
      assert c != sep;
      assert shorter[1..] == parts[1..];
      assert forall i :: 0 <= i < |shorter| ==> sep !in shorter[i];
      assert s == [c] + Join(shorter, sep) by {
        if |parts| > 1 {
          assert parts[0] == [c] + parts[0][1..];
        }
      }
      assert s[1..] == Join(shorter, sep);
      SplitJoin(shorter, sep);
      assert parts == [[c] + shorter[0]] + shorter[1..];
    }
  }

  /** The part of a split at `index`, or `None` past the end (`split(sep)[index]`). */
  function PartAt(s: string, sep: char, index: nat): (r: Option<string>)
    ensures r.Some? <==> index < |Split(s, sep)|
    ensures r.Some? ==> r.value == Split(s, sep)[index]
  {
    var parts := Split(s, sep);
    if index < |parts| then Some(parts[index]) else None
  }

  /** The decimal digit character for `d`. */
  function DigitChar(d: nat): char
    requires d < 10
  {
    "0123456789"[d]
  }

  /** The value of a decimal digit character. */
  function DigitValue(c: char): nat
  {
    if '0' <= c <= '9' then (c as int - '0' as int) else 0
  }

  predicate IsDigits(s: string)
  {
    forall i :: 0 <= i < |s| ==> '0' <= s[i] <= '9'
  }

  /** The number a string of decimal digits denotes. */
  function DecimalValue(s: string): nat
  {
    if s == [] then 0 else 10 * DecimalValue(s[..|s| - 1]) + DigitValue(s[|s| - 1])
  }

  /**
   * The shortest decimal text of `n`, as `String(n)` writes it for every `n`
   * up to 2^53, the range in which every integer is a JavaScript number.
   */
  function NatToDecimal(n: nat): (s: string)
    ensures |s| > 0 && IsDigits(s)
    ensures s[0] == '0' ==> s == "0"
    ensures DecimalValue(s) == n
  {
    if n < 10 then
      [DigitChar(n)]
    else
      var s := NatToDecimal(n / 10) + [DigitChar(n % 10)];
      assert s[..|s| - 1] == NatToDecimal(n / 10);
      s
  }

  /** The decimal text of an integer in a template literal: `-` before a negative one. */
  function IntToDecimal(i: int): (s: string)
    ensures |s| > 0
    ensures (s[0] == '-') <==> i < 0
    ensures i >= 0 ==> s == NatToDecimal(i)
    ensures i < 0 ==> s[1..] == NatToDecimal(-i)
  {
    if i < 0 then "-" + NatToDecimal(-i) else NatToDecimal(i)
  }

  /** Reads back the text `IntToDecimal` writes. */
  function ParseInt(s: string): int
  {
    if |s| > 0 && s[0] == '-' then -(DecimalValue(s[1..]) as int) else DecimalValue(s)
  }

  /** `IntToDecimal` loses nothing: its text parses back to the number. */
  lemma ParseIntToDecimal(i: int)
    ensures ParseInt(IntToDecimal(i)) == i
  {
    if i < 0 {
      assert IntToDecimal(i)[1..] == NatToDecimal(-i);
    }
  }

  /** Distinct integers have distinct decimal texts. */
  lemma IntToDecimalInjective(a: int, b: int)
    requires IntToDecimal(a) == IntToDecimal(b)
    ensures a == b
  {
    ParseIntToDecimal(a);
    ParseIntToDecimal(b);
  }
}
