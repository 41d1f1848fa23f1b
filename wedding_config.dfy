/** The two rules of lib/wedding-config.ts: the countdown to the wedding and the dial link
    for a phone number. The countdown takes the millisecond difference between the target
    and the clock, which the source reads from `new Date()`. */
module WeddingConfig {
  import opened TextUtil
  import opened Arith

  const MsPerSecond := 1000
  const MsPerMinute := 60 * MsPerSecond
  const MsPerHour := 60 * MsPerMinute
  const MsPerDay := 24 * MsPerHour

  datatype Countdown = Countdown(days: int, hours: int, minutes: int, seconds: int, isOver: bool)

  /** `getCountdown`, given `diff = target - now` in whole milliseconds. All operands are
      positive where division happens, so JavaScript's `Math.floor` of the quotient and
      its `%` agree with Dafny's. */
  function GetCountdown(diff: int): Countdown {
    if diff <= 0 then Countdown(0, 0, 0, 0, true)
    else
      Countdown(diff / MsPerDay,
                (diff % MsPerDay) / MsPerHour,
                (diff % MsPerHour) / MsPerMinute,
                (diff % MsPerMinute) / MsPerSecond,
                false)
  }

  /** A countdown whose target has passed is all zeros. */
  lemma CountdownOver(diff: int)
    ensures GetCountdown(diff).isOver <==> diff <= 0
    ensures diff <= 0 ==> GetCountdown(diff) == Countdown(0, 0, 0, 0, true)
  {
  }

  /** Before the target every unit is within its range, and the units add back up to the
      difference without its leftover milliseconds. */
  lemma CountdownRecomposes(diff: int)
    requires diff > 0
    ensures var c := GetCountdown(diff);
            && c.days >= 0
            && 0 <= c.hours < 24 && 0 <= c.minutes < 60 && 0 <= c.seconds < 60
            && c.days * MsPerDay + c.hours * MsPerHour + c.minutes * MsPerMinute + c.seconds * MsPerSecond
               == diff - diff % MsPerSecond
  {
    var c := GetCountdown(diff);
    assert diff == c.days * MsPerDay + diff % MsPerDay;
    Peel(diff, MsPerHour, 24);
    Peel(diff, MsPerMinute, 60);
    Peel(diff, MsPerSecond, 60);
  }

  /** Within a remainder by `b * k`, the whole units of `b` number fewer than `k`, and what
      is left is the remainder by `b`. */
  lemma Peel(x: int, b: int, k: int)
    requires x >= 0 && b > 0 && k > 0
    ensures 0 <= (x % (b * k)) / b < k
    ensures x % (b * k) == ((x % (b * k)) / b) * b + x % b
  {
    var r := x % (b * k);
    ModOfMod(x, b, k);
    assert r == (r / b) * b + r % b;
    if r / b >= k {
      MulAtLeast(r / b - k + 1, b);
    }
  }

  /** Taking a remainder by a multiple first does not change the remainder. */
  lemma ModOfMod(x: int, b: int, k: int)
    requires x >= 0 && b > 0 && k > 0
    ensures (x % (b * k)) % b == x % b
  {
    var q := x / (b * k);
    var r := x % (b * k);
    assert x == q * (b * k) + r;
    assert x == (q * k) * b + r;
    DivModUnique(x, b, q * k + r / b, r % b);
  }

  /** `formatPhoneForCall`. */
  function FormatPhoneForCall(phone: string): (r: string)
    ensures |r| >= 4 && r[..4] == "tel:"
    ensures forall i :: 4 <= i < |r| ==> !IsJsWhitespace(r[i])
  {
    "tel:" + RemoveWhitespace(phone)
  }

  /** The link dials every non-whitespace character of the number as often as it occurs
      and no whitespace, and the number taken from a link formats to the same link. */
  lemma PhoneLinkIsStable(phone: string)
    ensures forall ch :: multiset(FormatPhoneForCall(phone)[4..])[ch] == if IsJsWhitespace(ch) then 0 else multiset(phone)[ch]
    ensures FormatPhoneForCall(FormatPhoneForCall(phone)[4..]) == FormatPhoneForCall(phone)
  {
    assert FormatPhoneForCall(phone)[4..] == RemoveWhitespace(phone);
    forall ch {
      RemoveWhitespaceCounts(phone, ch);
    }
    RemoveWhitespaceIdempotent(phone);
  }

  /** Spaces between digit groups do not change the link. */
  lemma PhoneLinkIgnoresSpacing(a: string, b: string)
    ensures FormatPhoneForCall(a + " " + b) == FormatPhoneForCall(a + b)
  {
    RemoveWhitespaceAppend(a + " ", b);
    RemoveWhitespaceAppend(a, " ");
    RemoveWhitespaceAppend(a, b);
    assert RemoveWhitespace(" ") == [] by {
      assert " "[1..] == [];
    }
  }
}
