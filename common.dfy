/** Small shared vocabulary: optional values, the outcome of a record fetch,
    and the string helpers the exports use (decimal digits, ASCII upper case,
    joining). */
module Common {

  /** A field that may be null or undefined in a fetched record. */
  datatype Option<T> = None | Some(value: T) {
    /** `x || d` for a field whose only falsy value is its absence. */
    function GetOr(d: T): T {
      match this
      case Some(v) => v
      case None => d
    }
  }

  /** The outcome of `supabase.from(...).select(...)`: an error, or the rows
      (a null `data` is the empty sequence). */
  datatype Fetch<T> = FetchError | Fetched(rows: seq<T>)

  /** JavaScript truthiness of an optional string: null and "" are falsy. */
  predicate TextTruthy(s: Option<string>) {
    s.Some? && s.value != ""
  }

  /** `s || d` for an optional string. */
  function TextOr(s: Option<string>, d: string): (r: string)
    ensures TextTruthy(s) ==> r == s.value
    ensures !TextTruthy(s) ==> r == d
  {
    if TextTruthy(s) then s.value else d
  }

  /** JavaScript truthiness of an optional number: null and 0 are falsy. */
  predicate NumTruthy(x: Option<real>) {
    x.Some? && x.value != 0.0
  }

  /** `x || 0` for an optional number. */
  function NumOr0(x: Option<real>): (r: real)
    ensures NumTruthy(x) ==> r == x.value
    ensures !NumTruthy(x) ==> r == 0.0
  {
    if x.Some? then x.value else 0.0
  }

  function Min(a: int, b: int): int { if a <= b then a else b }

  function Max(a: int, b: int): int { if a >= b then a else b }

  predicate IsDigit(ch: char) { '0' <= ch <= '9' }

  function Digit(k: nat): (ch: char)
    requires k < 10
    ensures IsDigit(ch)
  {
    ('0' as int + k) as char
  }

  /** Decimal text of a natural number, as JavaScript's `${n}` writes it. */
  function NatStr(n: nat): (s: string)
    ensures |s| >= 1
    ensures forall i :: 0 <= i < |s| ==> IsDigit(s[i])
    ensures s[0] != '0' || n == 0
  {
    if n < 10 then [Digit(n)] else NatStr(n / 10) + [Digit(n % 10)]
  }

  /** The number a string of decimal digits denotes. */
  function DigitsValue(s: string): nat
    requires forall i :: 0 <= i < |s| ==> IsDigit(s[i])
  {
    if |s| == 0 then 0
    else
      assert IsDigit(s[|s| - 1]);
      DigitsValue(s[..|s| - 1]) * 10 + (s[|s| - 1] as int - '0' as int)
  }

  /** Reading back the digits of `NatStr(n)` gives `n`. */
  lemma {:induction false} DigitsValueOfNatStr(n: nat)
    ensures DigitsValue(NatStr(n)) == n
  {
    if n >= 10 {
      var s := NatStr(n);
      assert s[..|s| - 1] == NatStr(n / 10);
      DigitsValueOfNatStr(n / 10);
    }
  }

  /** `NatStr` is injective: distinct numbers have distinct texts. */
  lemma NatStrInjective(m: nat, n: nat)
    requires NatStr(m) == NatStr(n)
    ensures m == n
  {
    DigitsValueOfNatStr(m);
    DigitsValueOfNatStr(n);
  }

  function UpperChar(ch: char): char {
    if 'a' <= ch <= 'z' then (ch as int - 32) as char else ch
  }

  /** `String.prototype.toUpperCase` on ASCII letters; other characters are kept. */
  function Upper(s: string): (r: string)
    ensures |r| == |s|
    ensures forall i :: 0 <= i < |s| ==> r[i] == UpperChar(s[i])
  {
    seq(|s|, i requires 0 <= i < |s| => UpperChar(s[i]))
  }

  /** `parts.join(sep)`. */
  function Join(parts: seq<string>, sep: string): string {
    if |parts| == 0 then ""
    else if |parts| == 1 then parts[0]
    else Join(parts[..|parts| - 1], sep) + sep + parts[|parts| - 1]
  }
}
