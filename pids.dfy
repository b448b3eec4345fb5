/** The text of the pid marker: the decimal form the daemon writes, and the
    `trim` and `u32` parse with which `stop` reads it back. */
module Pids {
  import opened Wrappers

  const U32Limit: nat := 0x1_0000_0000

  /** `char::is_whitespace`: the Unicode White_Space property. */
  predicate IsWhitespace(c: char)
  {
    || ('\U{9}' <= c <= '\U{D}')
    || c == ' ' || c == '\U{85}' || c == '\U{A0}' || c == '\U{1680}'
    || ('\U{2000}' <= c <= '\U{200A}')
    || c == '\U{2028}' || c == '\U{2029}' || c == '\U{202F}' || c == '\U{205F}' || c == '\U{3000}'
  }

  /** `str::trim_start`: drops the leading whitespace and nothing else. */
  function TrimStart(s: string): (r: string)
    ensures |r| <= |s| && r == s[|s| - |r|..]
    ensures r == [] || !IsWhitespace(r[0])
    ensures forall i :: 0 <= i < |s| - |r| ==> IsWhitespace(s[i])
  {
    if s != [] && IsWhitespace(s[0]) then TrimStart(s[1..]) else s
  }

  /** `str::trim_end`: drops the trailing whitespace and nothing else. */
  function TrimEnd(s: string): (r: string)
    ensures |r| <= |s| && r == s[..|r|]
    ensures r == [] || !IsWhitespace(r[|r| - 1])
    ensures forall i :: |r| <= i < |s| ==> IsWhitespace(s[i])
  {
    if s != [] && IsWhitespace(s[|s| - 1]) then TrimEnd(s[..|s| - 1]) else s
  }

  function Trim(s: string): string
  {
    TrimEnd(TrimStart(s))
  }

  predicate IsDigit(c: char)
  {
    '0' <= c <= '9'
  }

  predicate AllDigits(s: string)
  {
    forall i :: 0 <= i < |s| ==> IsDigit(s[i])
  }

  /** The number a string of decimal digits denotes. */
  function DigitsValue(s: string): nat
    requires AllDigits(s)
  {
    if s == [] then 0
    else 10 * DigitsValue(s[..|s| - 1]) + (s[|s| - 1] as int - '0' as int)
  }

  /** `u32::from_str`: an optional `+`, then one or more decimal digits whose
      value fits in 32 bits. A sign alone, `-`, and any other character fail. */
  function ParseU32(s: string): (r: Option<nat>)
    ensures r.Some? ==> r.value < U32Limit
    ensures r.Some? ==> s != [] && (IsDigit(s[0]) || s[0] == '+')
    ensures s != [] && s[0] == '-' ==> r.None?
    ensures r.Some? <==>
      exists d :: (s == d || s == "+" + d) && d != [] && AllDigits(d) && DigitsValue(d) < U32Limit
    ensures r.Some? ==> exists d :: (s == d || s == "+" + d) && AllDigits(d) && DigitsValue(d) == r.value
  {
    if s == [] || s == "+" || s == "-" then None
    else
      var digits := if s[0] == '+' then s[1..] else s;
      assert s == digits || s == "+" + digits;
      // Any other split of `s` into sign and digits is this one.
      assert forall d :: (s == d || s == "+" + d) && d != [] && AllDigits(d) ==> d == digits by {
        forall d | (s == d || s == "+" + d) && d != [] && AllDigits(d) ensures d == digits {
          if s == d {
            assert IsDigit(d[0]);
          } else {
            assert s[1..] == d;
          }
        }
      }
      if !AllDigits(digits) then None
      else if DigitsValue(digits) < U32Limit then Some(DigitsValue(digits))
      else None
  }

  /** The pid as `stop` reads it from the marker: `pid.trim().parse::<u32>()`. */
  function ParsePid(text: string): Option<nat>
  {
    ParseU32(Trim(text))
  }

  /** The decimal form of `n`, as the daemon writes its pid: digits only, no
      leading zero, denoting `n`. */
  function Decimal(n: nat): (r: string)
    ensures r != [] && AllDigits(r) && DigitsValue(r) == n
    ensures r[0] == '0' ==> n == 0
  {
    var d := ['0' + (n % 10) as char];
    if n < 10 then d
    else
      var r := Decimal(n / 10) + d;
      assert r[..|r| - 1] == Decimal(n / 10);
      r
  }

  /** Reading back a marker the daemon wrote yields the pid it wrote. */
  lemma {:induction false} ParsePidOfDecimal(n: nat)
    requires n < U32Limit
    ensures ParsePid(Decimal(n)) == Some(n)
  {
    var s := Decimal(n);
    assert !IsWhitespace(s[0]) && !IsWhitespace(s[|s| - 1]);
    assert TrimStart(s) == s;
    assert TrimEnd(s) == s;
  }
}
