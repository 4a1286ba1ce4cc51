/** PulseMetric connections: one OAuth token per music or video service, the status
    text and colour shown for it, and the `m:ss` track-time format. */
module PulseMetric {
  import opened Seqs
  import opened Strings

  datatype Service = Spotify | AppleMusic | YouTube

  /** The part of a service's record that connecting and disconnecting touch. */
  datatype Token = Token(isConnected: bool, tokenExpiry: int)

  const Day: int := 24 * 60 * 60 * 1000
  const TokenLifetime: int := 90 * Day

  /** `Math.ceil((tokenExpiry - now) / day)` */
  function DaysLeft(t: Token, now: int): (d: int)
    ensures Day * (d - 1) < t.tokenExpiry - now <= Day * d
  {
    -((now - t.tokenExpiry) / Day)
  }

  function DaysText(prefix: string, n: nat): string {
    prefix + NatToString(n) + " days"
  }

  const ExpiresPrefix: string := "Expires in "
  const ValidPrefix: string := "Valid for "

  /** `getTokenStatus` */
  function TokenStatus(t: Token, now: int): (r: string)
    ensures !t.isConnected ==> r == "Not Connected"
    ensures t.isConnected && DaysLeft(t, now) <= 0 ==> r == "Expired"
    ensures t.isConnected && 1 <= DaysLeft(t, now) <= 30 ==> r == DaysText(ExpiresPrefix, DaysLeft(t, now))
    ensures t.isConnected && DaysLeft(t, now) > 30 ==> r == DaysText(ValidPrefix, DaysLeft(t, now))
  {
    if !t.isConnected then "Not Connected"
    else
      var d := DaysLeft(t, now);
      if d <= 0 then "Expired"
      else if d <= 7 then DaysText(ExpiresPrefix, d)
      else if d <= 30 then DaysText(ExpiresPrefix, d)
      else DaysText(ValidPrefix, d)
  }

  /** A token issued at `now` reads "Valid for 90 days" then, and never shows more
      than 90 days afterwards. */
  lemma FreshTokenStatus(issued: int, now: int)
    requires issued <= now
    ensures TokenStatus(Token(true, issued + TokenLifetime), issued) == "Valid for 90 days"
    ensures DaysLeft(Token(true, issued + TokenLifetime), now) <= 90
  {
    assert DaysLeft(Token(true, issued + TokenLifetime), issued) == 90;
    assert NatToString(90) == "90" by {
      assert NatToString(9) == "9";
    }
  }

  /** Once the expiry time has passed the token is shown as expired. */
  lemma ExpiredAfterDeadline(t: Token, now: int)
    requires t.isConnected && now >= t.tokenExpiry
    ensures TokenStatus(t, now) == "Expired"
  {
  }

  // ---------------------------------------------------------------------------
  // The colour, as written: by substring tests on the status text.

  const Gray := "text-gray-500"
  const Red := "text-red-500"
  const Yellow := "text-yellow-500"
  const Orange := "text-orange-500"
  const Green := "text-green-500"

  /** `getTokenStatusColor` on the status text. */
  function StatusColor(status: string): (r: string)
    ensures status == "Not Connected" ==> r == Gray
    ensures status == "Expired" ==> r == Red
    ensures status != "Not Connected" && status != "Expired" ==>
      (r == Yellow <==> Contains(status, "7 days")) &&
      (r == Orange <==> !Contains(status, "7 days") && Contains(status, "30 days"))
  {
    if status == "Not Connected" then Gray
    else if status == "Expired" then Red
    else if Contains(status, "7 days") then Yellow
    else if Contains(status, "30 days") then Orange
    else Green
  }

  predicate NoDigits(s: string) {
    forall i :: 0 <= i < |s| ==> !IsDigit(s[i])
  }

  lemma DigitCharInjective(d: nat, e: nat)
    requires d < 10 && e < 10 && DigitChar(d) == DigitChar(e)
    ensures d == e
  {
  }

  /** The characters of a status text, region by region. */
  lemma DaysTextChars(prefix: string, n: nat, i: nat)
    requires i < |DaysText(prefix, n)|
    ensures var s, p, m := DaysText(prefix, n), |prefix|, |NatToString(n)|;
      (i < p ==> s[i] == prefix[i]) &&
      (p <= i < p + m ==> s[i] == NatToString(n)[i - p]) &&
      (p + m <= i ==> s[i] == " days"[i - p - m])
  {
  }

  /** A status text holds "7 days" exactly when its day count ends in 7. */
  lemma SevenDays(prefix: string, n: nat)
    requires NoDigits(prefix)
    ensures Contains(DaysText(prefix, n), "7 days") <==> n % 10 == 7
  {
    if n % 10 == 7 {
      SevenDaysShown(prefix, n);
    }
    if Contains(DaysText(prefix, n), "7 days") {
      SevenDaysMeans(prefix, n);
    }
  }

  lemma SevenDaysShown(prefix: string, n: nat)
    requires n % 10 == 7
    ensures Contains(DaysText(prefix, n), "7 days")
  {
    var s := DaysText(prefix, n);
    var k := |prefix| + |NatToString(n)| - 1;
    assert s[k..k + 6] == "7 days" by {
      forall j | 0 <= j < 6 ensures s[k..k + 6][j] == "7 days"[j] {
        DaysTextChars(prefix, n, k + j);
      }
    }
    ContainsAt(s, "7 days", k);
  }

  lemma SevenDaysMeans(prefix: string, n: nat)
    requires NoDigits(prefix) && Contains(DaysText(prefix, n), "7 days")
    ensures n % 10 == 7
  {
    var s := DaysText(prefix, n);
    var i := ContainsWitness(s, "7 days");
    assert s[i] == '7' && s[i + 1] == ' ' by {
      assert s[i..i + 6][0] == s[i] && s[i..i + 6][1] == s[i + 1];
    }
    DaysTextChars(prefix, n, i);
    DaysTextChars(prefix, n, i + 1);
    assert i == |prefix| + |NatToString(n)| - 1;
    DigitCharInjective(n % 10, 7);
  }

  lemma LastTwoDigits(n: nat)
    requires n % 10 == 0 && (n / 10) % 10 == 3
    ensures n % 100 == 30
  {
    var q := n / 10;
    assert n == 10 * q;
    assert q == 10 * (q / 10) + 3;
    assert n == 100 * (q / 10) + 30;
  }

  lemma LastTwoDigitsBack(n: nat)
    requires n % 100 == 30
    ensures n >= 10 && n % 10 == 0 && (n / 10) % 10 == 3
  {
    var h := n / 100;
    assert n == 100 * h + 30;
    assert n == 10 * (10 * h + 3);
    assert n / 10 == 10 * h + 3;
  }

  /** The last two characters of the decimal form of a number of at least ten. */
  lemma TwoDigitTail(n: nat)
    requires n >= 10
    ensures var num := NatToString(n);
      |num| >= 2 && num[|num| - 1] == DigitChar(n % 10) && num[|num| - 2] == DigitChar((n / 10) % 10)
  {
    var num := NatToString(n);
    assert num == NatToString(n / 10) + [DigitChar(n % 10)];
  }

  /** A status text holds "30 days" exactly when its day count ends in 30. */
  lemma ThirtyDays(prefix: string, n: nat)
    requires NoDigits(prefix)
    ensures Contains(DaysText(prefix, n), "30 days") <==> n % 100 == 30
  {
    if n % 100 == 30 {
      ThirtyDaysShown(prefix, n);
    }
    if Contains(DaysText(prefix, n), "30 days") {
      ThirtyDaysMeans(prefix, n);
    }
  }

  lemma ThirtyDaysShown(prefix: string, n: nat)
    requires n % 100 == 30
    ensures Contains(DaysText(prefix, n), "30 days")
  {
    var s, num := DaysText(prefix, n), NatToString(n);
    var p, m := |prefix|, |num|;
    LastTwoDigitsBack(n);
    TwoDigitTail(n);
    var k := p + m - 2;
    assert s[k..k + 7] == "30 days" by {
      forall j | 0 <= j < 7 ensures s[k..k + 7][j] == "30 days"[j] {
        DaysTextChars(prefix, n, k + j);
      }
    }
    ContainsAt(s, "30 days", k);
  }

  lemma ThirtyDaysMeans(prefix: string, n: nat)
    requires NoDigits(prefix) && Contains(DaysText(prefix, n), "30 days")
    ensures n % 100 == 30
  {
    var s, num := DaysText(prefix, n), NatToString(n);
    var p, m := |prefix|, |num|;
    var i := ContainsWitness(s, "30 days");
    assert s[i] == '3' && s[i + 1] == '0' && s[i + 2] == ' ' by {
      assert s[i..i + 7][0] == s[i] && s[i..i + 7][1] == s[i + 1] && s[i..i + 7][2] == s[i + 2];
    }
    DaysTextChars(prefix, n, i);
    DaysTextChars(prefix, n, i + 1);
    DaysTextChars(prefix, n, i + 2);
    assert i + 1 == p + m - 1;
    assert m >= 2;
    assert n >= 10;
    TwoDigitTail(n);
    DigitCharInjective(n % 10, 0);
    DigitCharInjective((n / 10) % 10, 3);
    LastTwoDigits(n);
  }

  /** The colour a connected token shows, in terms of its day count. */
  lemma ColorByDays(t: Token, now: int)
    requires t.isConnected && DaysLeft(t, now) >= 1
    ensures var d, c := DaysLeft(t, now), StatusColor(TokenStatus(t, now));
      (c == Yellow <==> d % 10 == 7) &&
      (c == Orange <==> d % 10 != 7 && d % 100 == 30) &&
      (c == Green <==> d % 10 != 7 && d % 100 != 30)
  {
    var d := DaysLeft(t, now);
    var prefix := if d <= 30 then ExpiresPrefix else ValidPrefix;
    assert NoDigits(prefix);
    assert TokenStatus(t, now) == DaysText(prefix, d);
    assert TokenStatus(t, now) != "Not Connected" && TokenStatus(t, now) != "Expired" by {
      assert |DaysText(prefix, d)| > 13;
    }
    SevenDays(prefix, d);
    ThirtyDays(prefix, d);
  }

  /** The substring test misranks urgency: a token three days from expiry is green,
      one with 37 days left is yellow, one with 20 days left is green. */
  lemma ColorMisranks(now: int)
    ensures StatusColor(TokenStatus(Token(true, now + 3 * Day), now)) == Green
    ensures StatusColor(TokenStatus(Token(true, now + 37 * Day), now)) == Yellow
    ensures StatusColor(TokenStatus(Token(true, now + 20 * Day), now)) == Green
  {
    assert DaysLeft(Token(true, now + 3 * Day), now) == 3;
    assert DaysLeft(Token(true, now + 37 * Day), now) == 37;
    assert DaysLeft(Token(true, now + 20 * Day), now) == 20;
    ColorByDays(Token(true, now + 3 * Day), now);
    ColorByDays(Token(true, now + 37 * Day), now);
    ColorByDays(Token(true, now + 20 * Day), now);
  }

  /** The colour by the thresholds the status text itself uses. */
  function TokenColor(t: Token, now: int): (r: string)
    ensures !t.isConnected ==> r == Gray
    ensures t.isConnected ==> (r == Red <==> DaysLeft(t, now) <= 0)
    ensures t.isConnected ==> (r == Yellow <==> 1 <= DaysLeft(t, now) <= 7)
    ensures t.isConnected ==> (r == Orange <==> 8 <= DaysLeft(t, now) <= 30)
    ensures t.isConnected ==> (r == Green <==> DaysLeft(t, now) > 30)
  {
    if !t.isConnected then Gray
    else
      var d := DaysLeft(t, now);
      if d <= 0 then Red else if d <= 7 then Yellow else if d <= 30 then Orange else Green
  }

  /** The corrected colour never gets milder as the expiry approaches. */
  lemma TokenColorMonotone(t: Token, now: int, later: int)
    requires t.isConnected && now <= later
    ensures DaysLeft(t, later) <= DaysLeft(t, now)
    ensures TokenColor(t, now) == Red ==> TokenColor(t, later) == Red
    ensures TokenColor(t, now) == Yellow ==> TokenColor(t, later) in {Red, Yellow}
    ensures TokenColor(t, now) == Orange ==> TokenColor(t, later) in {Red, Yellow, Orange}
  {
  }

  /** Where the substring test does work, at exactly 7 and 30 days and for the
      statuses without a day count, both colours agree. */
  lemma ColorsAgreeAtThresholds(t: Token, now: int)
    requires !t.isConnected || DaysLeft(t, now) <= 0 || DaysLeft(t, now) == 7 || DaysLeft(t, now) == 30
    ensures StatusColor(TokenStatus(t, now)) == TokenColor(t, now)
  {
    if t.isConnected && DaysLeft(t, now) >= 1 {
      ColorByDays(t, now);
    }
  }

  // ---------------------------------------------------------------------------

  /** `formatDuration`: whole minutes, a colon, seconds padded to two digits. */
  function FormatDuration(seconds: nat): (r: string)
    ensures ':' in r
  {
    NatToString(seconds / 60) + ":" + PadStart2(NatToString(seconds % 60))
  }

  /** The text reads back as minutes and seconds that add up to the input. */
  lemma FormatDurationRoundTrip(seconds: nat)
    ensures var parts := Split(FormatDuration(seconds), ':');
      |parts| == 2 && |parts[1]| == 2 &&
      ParseNat(parts[0]) * 60 + ParseNat(parts[1]) == seconds
  {
    var mins, padded := NatToString(seconds / 60), PadStart2(NatToString(seconds % 60));
    SecondsField(seconds % 60);
    DigitsHaveNoColon(mins);
    assert FormatDuration(seconds) == mins + [':'] + padded;
    SplitAfterPiece(mins, padded, ':');
    SplitNoSeparator(padded, ':');
    ParseNatToString(seconds / 60);
  }

  lemma DigitsHaveNoColon(s: string)
    requires forall k :: 0 <= k < |s| ==> IsDigit(s[k])
    ensures ':' !in s
  {
    forall k | 0 <= k < |s| ensures s[k] != ':' {
      assert IsDigit(s[k]);
    }
  }

  /** The padded seconds field: two digits that read back as the seconds. */
  lemma SecondsField(x: nat)
    requires x < 60
    ensures var padded := PadStart2(NatToString(x));
      |padded| == 2 && ':' !in padded && ParseNat(padded) == x
  {
    var secs := NatToString(x);
    var padded := PadStart2(secs);
    ParseNatToString(x);
    if x >= 10 {
      assert secs == NatToString(x / 10) + [DigitChar(x % 10)];
      assert padded == secs;
    } else {
      assert padded == "0" + secs;
      ParseLeadingZero(secs);
    }
    assert forall k :: 0 <= k < |padded| ==> IsDigit(padded[k]);
    DigitsHaveNoColon(padded);
  }

  // ---------------------------------------------------------------------------

  class PulseMetric {
    /** The `isConnected` / `tokenExpiry` part of each service record. */
    var tokens: map<Service, Token>
    var isConnecting: Option<Service>

    predicate Valid()
      reads this
    {
      forall s: Service :: s in tokens
    }

    constructor ()
      ensures Valid() && isConnecting == None
      ensures forall s :: s in tokens ==> tokens[s] == Token(false, 0)
    {
      tokens := map[Spotify := Token(false, 0), AppleMusic := Token(false, 0), YouTube := Token(false, 0)];
      isConnecting := None;
      new;
      forall s: Service ensures s in tokens {
        match s
        case Spotify =>
        case AppleMusic =>
        case YouTube =>
      }
    }

    function Status(s: Service, now: int): string
      requires Valid()
      reads this
    {
      TokenStatus(tokens[s], now)
    }

    /** `connectPlatform`, once the simulated OAuth flow is over at time `now`. */
    method ConnectPlatform(s: Service, now: int)
      requires Valid()
      modifies this
      ensures Valid() && isConnecting == None
      ensures tokens == old(tokens)[s := Token(true, now + TokenLifetime)]
      ensures Status(s, now) == "Valid for 90 days"
    {
      isConnecting := Some(s);
      tokens := tokens[s := Token(true, now + TokenLifetime)];
      isConnecting := None;
      FreshTokenStatus(now, now);
    }

    /** `disconnectPlatform` */
    method DisconnectPlatform(s: Service, now: int)
      requires Valid()
      modifies this`tokens
      ensures Valid()
      ensures tokens == old(tokens)[s := Token(false, 0)]
      ensures Status(s, now) == "Not Connected"
    {
      tokens := tokens[s := Token(false, 0)];
    }
  }
}
