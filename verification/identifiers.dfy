/**
 * Invite codes, channel identities and the private-channel naming rule.
 *
 * The server draws an invite code as a random integer in [100000, 999999] and
 * renders it in decimal, and builds a channel identity from the prefix
 * "private-channel-", the clock in milliseconds and a random base-36 suffix.
 * The random draw, the clock and the suffix are parameters here.
 */
module Identifiers {

  /** Channels whose name starts with this prefix are access-controlled. */
  const PrivatePrefix: string := "private-"

  /** Every channel identity the server generates starts with this prefix. */
  const ChannelIdPrefix: string := "private-channel-"

  /** Smallest invite code, and the number of distinct codes that can be drawn. */
  const CodeBase: nat := 100000
  const CodeSpan: nat := 900000

  /** The authorization rule applies exactly to names with the private prefix. */
  predicate IsPrivate(name: string) {
    |PrivatePrefix| <= |name| && name[..|PrivatePrefix|] == PrivatePrefix
  }

  /**
   * `startsWith("private-")`: a name is private exactly when it is the prefix
   * followed by something, so every name built on the prefix is private and
   * stays private whatever is appended to it.
   */
  lemma PrivateByPrefix(name: string, rest: string)
    ensures IsPrivate(name) <==> |name| >= |PrivatePrefix| && name == PrivatePrefix + name[|PrivatePrefix|..]
    ensures IsPrivate(PrivatePrefix + rest)
    ensures IsPrivate(name) ==> IsPrivate(name + rest)
  {
  }

  function DigitChar(d: nat): (c: char)
    requires d < 10
    ensures '0' <= c <= '9'
    ensures d == 0 <==> c == '0'
  {
    ('0' as int + d) as char
  }

  function Pow10(k: nat): (p: nat)
    ensures p >= 1
  {
    if k == 0 then 1 else 10 * Pow10(k - 1)
  }

  /** The number a string of decimal digits denotes, most significant digit first. */
  function DigitsValue(s: string): int
    decreases |s|
  {
    if s == [] then 0 else 10 * DigitsValue(s[..|s| - 1]) + (s[|s| - 1] as int - '0' as int)
  }

  /**
   * The decimal rendering of a non-negative integer, as JavaScript's toString
   * gives it: reading the digits back yields the number.
   */
  function Decimal(n: nat): (s: string)
    ensures s != []
    ensures forall i | 0 <= i < |s| :: '0' <= s[i] <= '9'
    ensures n > 0 ==> s[0] != '0'
    ensures DigitsValue(s) == n
    decreases n
  {
    if n < 10 then
      var s := [DigitChar(n)];
      assert s[..0] == [];
      s
    else
      var high := Decimal(n / 10);
      var s := high + [DigitChar(n % 10)];
      assert s[..|s| - 1] == high;
      s
  }

  /** A number with k + 1 decimal digits renders as a string of length k + 1. */
  lemma {:induction false} DecimalLength(n: nat, k: nat)
    requires Pow10(k) <= n < Pow10(k + 1)
    ensures |Decimal(n)| == k + 1
    decreases k
  {
    if k > 0 {
      assert Pow10(k) == 10 * Pow10(k - 1);
      assert Pow10(k + 1) == 10 * Pow10(k);
      assert Pow10(k - 1) <= n / 10 < Pow10(k);
      DecimalLength(n / 10, k - 1);
    }
  }

  /**
   * generateChannelCode: the draw is the integer part of random * 900000, so the
   * code is always six decimal digits without a leading zero. Two draws may give
   * the same code; nothing here claims otherwise.
   */
  function InviteCode(draw: nat): (code: string)
    requires draw < CodeSpan
    ensures |code| == 6
    ensures forall i | 0 <= i < |code| :: '0' <= code[i] <= '9'
    ensures code[0] != '0'
    ensures DigitsValue(code) == CodeBase + draw
  {
    assert Pow10(5) == 100000 && Pow10(6) == 1000000;
    DecimalLength(CodeBase + draw, 5);
    Decimal(CodeBase + draw)
  }

  /** generateChannelId: every generated identity falls under the private-channel rule. */
  function ChannelId(nowMillis: nat, randomPart: string): (id: string)
    ensures IsPrivate(id)
    ensures |ChannelIdPrefix| <= |id| && id[..|ChannelIdPrefix|] == ChannelIdPrefix
  {
    var id := ChannelIdPrefix + Decimal(nowMillis) + "-" + randomPart;
    assert id[..|PrivatePrefix|] == ChannelIdPrefix[..|PrivatePrefix|];
    id
  }
}
