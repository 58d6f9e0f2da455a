/** The few pieces of JavaScript runtime behaviour the server relies on:
    dynamically typed field values and their truthiness, `String.prototype.split`
    with a one-character separator, and the two different ways a path segment
    becomes a table key (used directly as a property name, or passed through
    `Number(...)` first). */
module Js {

  datatype Option<+T> = None | Some(value: T)

  /** A value a decoded request body can hold for a field; a field the body
      does not have reads as `Undefined`. Numbers are integers here. */
  datatype Value = Undefined | Null | Bool(b: bool) | Num(n: int) | Str(s: string) | Compound

  /** The falsy values among those the model distinguishes. */
  const Falsy: set<Value> := {Undefined, Null, Bool(false), Num(0), Str("")}

  /** JavaScript truthiness: `!v` holds exactly for the falsy values. */
  predicate Truthy(v: Value)
    ensures !Truthy(v) <==> v in Falsy
  {
    match v
    case Undefined => false
    case Null => false
    case Bool(b) => b
    case Num(n) => n != 0
    case Str(s) => s != ""
    case Compound => true
  }

  /** The result of `Number(segment)` on a path segment. */
  datatype Number = Finite(n: nat) | NaN

  // ---------------------------------------------------------------------------
  // split / join

  /** `s.split(sep)`: the pieces between occurrences of `sep`, never empty. */
  function Split(s: string, sep: char): (parts: seq<string>)
    ensures |parts| >= 1
    ensures forall i :: 0 <= i < |parts| ==> sep !in parts[i]
  {
    if s == [] then [[]]
    else
      var rest := Split(s[1..], sep);
      if s[0] == sep then [[]] + rest
      else [[s[0]] + rest[0]] + rest[1..]
  }

  /** `parts.join(sep)`. */
  function Join(parts: seq<string>, sep: char): string
    requires |parts| >= 1
  {
    if |parts| == 1 then parts[0] else parts[0] + [sep] + Join(parts[1..], sep)
  }

  /** Splitting loses nothing: joining the pieces gives the string back. */
  lemma {:induction false} JoinSplit(s: string, sep: char)
    ensures Join(Split(s, sep), sep) == s
  {
    if s != [] {
      var rest := Split(s[1..], sep);
      JoinSplit(s[1..], sep);
      if s[0] != sep && |rest| > 1 {
        assert Split(s, sep)[1..] == rest[1..];
      }
    }
  }

  lemma {:induction false} SplitNoSeparator(p: string, sep: char)
    requires sep !in p
    ensures Split(p, sep) == [p]
  {
    if p != [] {
      SplitNoSeparator(p[1..], sep);
      assert [p[0]] + p[1..] == p;
    }
  }

  lemma {:induction false} SplitAtSeparator(p: string, rest: string, sep: char)
    requires sep !in p
    ensures Split(p + [sep] + rest, sep) == [p] + Split(rest, sep)
  {
    var s := p + [sep] + rest;
    if p == [] {
      assert s[1..] == rest;
    } else {
      assert s[1..] == p[1..] + [sep] + rest;
      SplitAtSeparator(p[1..], rest, sep);
      assert [p[0]] + p[1..] == p;
    }
  }

  /** Joining pieces that do not contain the separator and splitting again
      gives back the same pieces. */
  lemma {:induction false} SplitJoin(parts: seq<string>, sep: char)
    requires |parts| >= 1
    requires forall i :: 0 <= i < |parts| ==> sep !in parts[i]
    ensures Split(Join(parts, sep), sep) == parts
  {
    if |parts| == 1 {
      SplitNoSeparator(parts[0], sep);
    } else {
      SplitJoin(parts[1..], sep);
      SplitAtSeparator(parts[0], Join(parts[1..], sep), sep);
    }
  }

  predicate StartsWith(s: string, prefix: string) {
    |prefix| <= |s| && s[..|prefix|] == prefix
  }

  // ---------------------------------------------------------------------------
  // Decimal strings, property keys and Number()

  predicate IsDigit(c: char) { '0' <= c <= '9' }

  predicate AllDigits(s: string) { forall i :: 0 <= i < |s| ==> IsDigit(s[i]) }

  function DigitValue(c: char): nat
    requires IsDigit(c)
  {
    (c as int) - ('0' as int)
  }

  function DigitChar(d: nat): char
    requires d < 10
  {
    ((('0' as int) + d) as char)
  }

  /** The value of a string of decimal digits (leading zeros allowed). */
  function DigitsValue(s: string): nat
    requires AllDigits(s)
  {
    if s == [] then 0 else DigitsValue(s[..|s| - 1]) * 10 + DigitValue(s[|s| - 1])
  }

  /** `String(n)` for a non-negative integer: the name of the property a
      table entry with numeric key `n` is stored under. */
  function DecimalString(n: nat): (s: string)
    ensures |s| >= 1 && AllDigits(s)
    ensures s[0] == '0' <==> n == 0
  {
    if n < 10 then [DigitChar(n)] else DecimalString(n / 10) + [DigitChar(n % 10)]
  }

  /** A decimal string without superfluous leading zeros. */
  predicate Canonical(s: string) {
    |s| >= 1 && AllDigits(s) && (s[0] == '0' ==> |s| == 1)
  }

  /** The integer key a property name `s` denotes in an ID-keyed table:
      only the canonical decimal form of a number names that number's entry. */
  function KeyOf(s: string): (r: Option<nat>)
    ensures r.Some? ==> DecimalString(r.value) == s
    ensures r.None? ==> forall n: nat :: DecimalString(n) != s
  {
    if Canonical(s) then
      CanonicalIsDecimal(s);
      Some(DigitsValue(s))
    else
      assert forall n: nat :: DecimalString(n) != s by {
        forall n: nat ensures DecimalString(n) != s {
          assert Canonical(DecimalString(n));
        }
      }
      None
  }

  /** `Number(s)` restricted to what the model distinguishes: the empty
      string is 0, a string of decimal digits is its value (leading zeros
      allowed), anything else is NaN. */
  function NumberOf(s: string): (r: Number)
    ensures r.NaN? <==> !AllDigits(s)
    ensures KeyOf(s).Some? ==> r == Finite(KeyOf(s).value)
  {
    if s == "" then Finite(0)
    else if AllDigits(s) then Finite(DigitsValue(s))
    else NaN
  }

  lemma {:induction false} DecimalStringValue(n: nat)
    ensures DigitsValue(DecimalString(n)) == n
  {
    var s := DecimalString(n);
    if n < 10 {
      assert s[..|s| - 1] == [];
    } else {
      DecimalStringValue(n / 10);
      assert s[..|s| - 1] == DecimalString(n / 10);
    }
  }

  lemma {:induction false} CanonicalIsDecimal(s: string)
    requires Canonical(s)
    ensures DecimalString(DigitsValue(s)) == s
  {
    var last := s[|s| - 1];
    assert DigitChar(DigitValue(last)) == last;
    if |s| > 1 {
      var p := s[..|s| - 1];
      assert p[0] == s[0];
      CanonicalIsDecimal(p);
      var v := DigitsValue(p);
      assert v != 0;
      assert DigitsValue(s) / 10 == v && DigitsValue(s) % 10 == DigitValue(last);
      assert s == p + [last];
    }
  }

  /** A segment used directly as a property name finds the entry with key
      `n` exactly when it is the decimal form of `n`. */
  lemma KeyOfIsDecimal(s: string, n: nat)
    ensures KeyOf(s) == Some(n) <==> s == DecimalString(n)
  {
    if KeyOf(s) == Some(n) {
      CanonicalIsDecimal(s);
    }
    if s == DecimalString(n) {
      DecimalStringValue(n);
    }
  }

  /** The decimal name of `n` is a key for `n` both ways. */
  lemma DecimalNamesKey(n: nat)
    ensures KeyOf(DecimalString(n)) == Some(n)
    ensures NumberOf(DecimalString(n)) == Finite(n)
  {
    KeyOfIsDecimal(DecimalString(n), n);
    DecimalStringValue(n);
  }

  /** Where the property-name lookup succeeds, `Number(...)` agrees with it;
      the converse fails, which is why the handlers that coerce with
      `Number(...)` find entries the others do not. */
  lemma KeyOfAgreesWithNumber(s: string)
    ensures KeyOf(s).Some? ==> NumberOf(s) == Finite(KeyOf(s).value)
    ensures KeyOf("01") == None && NumberOf("01") == Finite(1)
    ensures KeyOf("") == None && NumberOf("") == Finite(0)
  {
    assert "01"[..1] == "0" && "0"[..0] == "";
    assert DigitsValue("0") == 0;
  }
}
