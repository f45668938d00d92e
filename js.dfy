/** The few JavaScript value coercions that the game's server and client
    rely on, written out over Dafny's unbounded integers and strings. */
module Js {

  /** A value that may be absent (`undefined` or `null` in the source). */
  datatype Option<T> = None | Some(value: T)

  const TwoTo31: int := 0x8000_0000
  const TwoTo32: int := 0x1_0000_0000

  /** ECMAScript ToInt32 on an integer: what `n | 0` computes. */
  function ToInt32(n: int): (r: int)
    ensures -TwoTo31 <= r < TwoTo31
    ensures (r - n) % TwoTo32 == 0
  {
    var m := n % TwoTo32;
    if m >= TwoTo31 then m - TwoTo32 else m
  }

  /** On an integer that already fits in 32 bits, `| 0` changes nothing. */
  lemma ToInt32Identity(n: int)
    requires -TwoTo31 <= n < TwoTo31
    ensures ToInt32(n) == n
  {
    if n >= 0 {
      assert n % TwoTo32 == n;
    } else {
      assert n % TwoTo32 == n + TwoTo32;
    }
  }

  /** `v | 0` on an optional numeric argument: an absent value is NaN, which
      ToInt32 turns into 0. */
  function OrZero(v: Option<int>): (r: int)
    ensures -TwoTo31 <= r < TwoTo31
    ensures v == None ==> r == 0
    ensures v.Some? && -TwoTo31 <= v.value < TwoTo31 ==> r == v.value
  {
    match v
    case None => 0
    case Some(n) =>
      if -TwoTo31 <= n < TwoTo31 then ToInt32Identity(n); ToInt32(n) else ToInt32(n)
  }

  /** `String(v || d)` on an optional string argument: the empty string is
      falsy, so it is replaced by the default as well. */
  function StringOr(v: Option<string>, d: string): (r: string)
    ensures v.Some? && v.value != "" ==> r == v.value
    ensures v == None || v == Some("") ==> r == d
  {
    if v.Some? && v.value != "" then v.value else d
  }

  function DigitChar(d: nat): (c: char)
    requires d < 10
    ensures '0' <= c <= '9' && c as int == '0' as int + d
  {
    ('0' as int + d) as char
  }

  /** The number a string of decimal digits denotes, most significant
      digit first. */
  function DigitsValue(s: string): int
  {
    if s == [] then 0 else DigitsValue(s[..|s| - 1]) * 10 + (s[|s| - 1] as int - '0' as int)
  }

  /** The decimal text of a natural number, as a template literal prints it:
      digits only, denoting the number, with no leading zero. */
  function Decimal(n: nat): (s: string)
    ensures |s| >= 1
    ensures n >= 10 ==> |s| >= 2
    ensures forall i :: 0 <= i < |s| ==> '0' <= s[i] <= '9'
    ensures DigitsValue(s) == n
    ensures s[0] == '0' ==> n == 0
  {
    if n < 10 then
      assert [DigitChar(n)][..0] == [];
      [DigitChar(n)]
    else
      var p := Decimal(n / 10);
      assert (p + [DigitChar(n % 10)])[..|p|] == p;
      p + [DigitChar(n % 10)]
  }

  lemma DigitCharInjective(a: nat, b: nat)
    requires a < 10 && b < 10 && DigitChar(a) == DigitChar(b)
    ensures a == b
  {
  }

  /** Different numbers print differently. */
  lemma {:induction false} DecimalInjective(a: nat, b: nat)
    requires Decimal(a) == Decimal(b)
    ensures a == b
  {
    var sa, sb := Decimal(a), Decimal(b);
    if a < 10 && b < 10 {
      DigitCharInjective(a, b);
    } else if a >= 10 && b >= 10 {
      var pa, pb := Decimal(a / 10), Decimal(b / 10);
      assert sa == pa + [DigitChar(a % 10)] && sb == pb + [DigitChar(b % 10)];
      assert sa[|sa| - 1] == DigitChar(a % 10) && sb[|sb| - 1] == DigitChar(b % 10);
      DigitCharInjective(a % 10, b % 10);
      assert pa == sa[..|sa| - 1] == sb[..|sb| - 1] == pb;
      DecimalInjective(a / 10, b / 10);
    }
  }

  /** `xs.slice(-n)` for n >= 1: the last n entries, or all of them. */
  function LastN<T>(xs: seq<T>, n: nat): (r: seq<T>)
    ensures |r| == if |xs| <= n then |xs| else n
    ensures r == xs[|xs| - |r|..]
  {
    if |xs| <= n then xs else xs[|xs| - n..]
  }

  /** `xs.slice(0, n)`: the first n entries, or all of them. */
  function Take<T>(xs: seq<T>, n: nat): (r: seq<T>)
    ensures |r| == if |xs| <= n then |xs| else n
    ensures r == xs[..|r|]
  {
    if |xs| <= n then xs else xs[..n]
  }
}
