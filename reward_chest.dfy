/** The reward chest: it can be claimed again four hours after the last
    claim, and until then shows the time left as h:mm:ss.

    Time is an integer number of milliseconds passed in by the caller. */
module RewardChest {
  import opened Clock

  /** Four hours, in milliseconds. */
  const CooldownMs: int := 4 * 60 * 60 * 1000

  /** What `calculateTime` publishes. */
  datatype Readiness = Readiness(isReady: bool, timeLeft: int)

  /** `calculateTime` at `now`: ready once the cooldown has passed since the
      last claim, and otherwise the milliseconds still to wait. */
  function CalculateTime(now: int, lastClaimed: int): (r: Readiness)
    ensures r.isReady <==> now - lastClaimed >= CooldownMs
    ensures r.isReady <==> r.timeLeft == 0
    ensures r.timeLeft >= 0
    ensures !r.isReady ==> (now - lastClaimed) + r.timeLeft == CooldownMs
    ensures now >= lastClaimed ==> r.timeLeft <= CooldownMs
  {
    var diff := now - lastClaimed;
    if diff >= CooldownMs then Readiness(true, 0) else Readiness(false, CooldownMs - diff)
  }

  /** Waiting never makes the chest less ready: the time left only falls,
      and once ready it stays ready. */
  lemma {:induction false} WaitingOnlyHelps(now: int, later: int, lastClaimed: int)
    requires now <= later
    ensures CalculateTime(now, lastClaimed).isReady ==> CalculateTime(later, lastClaimed).isReady
    ensures CalculateTime(later, lastClaimed).timeLeft <= CalculateTime(now, lastClaimed).timeLeft
    ensures CalculateTime(now, lastClaimed).timeLeft - (later - now) <= CalculateTime(later, lastClaimed).timeLeft
  {
    var a, b := CalculateTime(now, lastClaimed), CalculateTime(later, lastClaimed);
    assert a.timeLeft == if a.isReady then 0 else CooldownMs - (now - lastClaimed);
    assert b.timeLeft == if b.isReady then 0 else CooldownMs - (later - lastClaimed);
  }

  /** The hours, minutes and seconds `formatTime` shows for `ms`. */
  function Hours(ms: nat): nat { ms / 3600000 }
  function Minutes(ms: nat): nat { (ms % 3600000) / 60000 }
  function Seconds(ms: nat): nat { (ms % 60000) / 1000 }

  /** The three fields are whole hours, minutes below 60 and seconds below 60
      of the whole seconds in `ms`. */
  lemma {:induction false} HmsDecomposes(ms: nat)
    ensures Minutes(ms) < 60 && Seconds(ms) < 60
    ensures Hours(ms) * 3600 + Minutes(ms) * 60 + Seconds(ms) == ms / 1000
  {
    var h, r1 := ms / 3600000, ms % 3600000;
    var m, r2 := r1 / 60000, r1 % 60000;
    var s, r3 := r2 / 1000, r2 % 1000;
    assert ms == 60000 * (60 * h + m) + r2;
    assert ms % 60000 == r2;
    assert ms == 1000 * (3600 * h + 60 * m + s) + r3;
  }

  /** `formatTime`: `h:mm:ss`, with minutes and seconds padded to two digits. */
  function FormatHms(ms: nat): string
  {
    HmsDecomposes(ms);
    NatToString(Hours(ms)) + ":" + TwoDigits(Minutes(ms)) + ":" + TwoDigits(Seconds(ms))
  }

  /** The h:mm:ss rendering splits into an hours field and two two-digit
      fields below 60, and together they give back the whole seconds. */
  lemma FormatHmsRoundTrip(ms: nat)
    ensures var f := Split(FormatHms(ms));
      && |f| == 3
      && AllDigits(f[0]) && AllDigits(f[1]) && AllDigits(f[2])
      && |f[1]| == 2 && |f[2]| == 2
      && ParseNat(f[1]) < 60 && ParseNat(f[2]) < 60
      && ParseNat(f[0]) * 3600 + ParseNat(f[1]) * 60 + ParseNat(f[2]) == ms / 1000
  {
    HmsDecomposes(ms);
    var h, m, s := NatToString(Hours(ms)), TwoDigits(Minutes(ms)), TwoDigits(Seconds(ms));
    DigitsHaveNoColon(h);
    DigitsHaveNoColon(m);
    DigitsHaveNoColon(s);
    assert FormatHms(ms) == h + ":" + (m + ":" + s);
    SplitAtColon(h, m + ":" + s);
    SplitAtColon(m, s);
    SplitNoColon(s);
    NatToStringRoundTrip(Hours(ms));
  }

  /** What a click on the chest does. */
  datatype ClickEffect = Claim | ClickSound

  /** `handleClick`: a ready chest is claimed (with the success sound);
      otherwise the click only makes the click sound. */
  function HandleClick(isReady: bool): ClickEffect
  {
    if isReady then Claim else ClickSound
  }

  /** A click claims the reward exactly when the cooldown has passed. */
  lemma ClaimOnlyWhenReady(now: int, lastClaimed: int)
    ensures HandleClick(CalculateTime(now, lastClaimed).isReady) == Claim
      <==> now - lastClaimed >= CooldownMs
  {
  }
}
