/** How old a card is, in whole days, and the colour that age is shown in. */
module CardAge {

  /** Length of a day: instants are whole seconds since the Unix epoch, in UTC. */
  const SecondsPerDay: int := 86400

  /** The two configured day counts; each defaults to 3 and 14 in the
      deployed service. */
  datatype Thresholds = Thresholds(yellow: int, red: int)

  const DefaultThresholds := Thresholds(3, 14)

  const GreenHex: string := "#d1fae5"
  const YellowHex: string := "#fef3c7"
  const RedHex: string := "#fee2e2"

  /** Whole days from `created` to `now`, rounded down as a `timedelta`'s
      `days` is, so that a card created in the future is negatively aged. */
  function AgeDays(created: int, now: int): (days: int)
    ensures days * SecondsPerDay <= now - created < (days + 1) * SecondsPerDay
  {
    (now - created) / SecondsPerDay
  }

  /** The bounds in AgeDays's contract determine the age completely. */
  lemma AgeDaysUnique(created: int, now: int, d: int)
    requires d * SecondsPerDay <= now - created < (d + 1) * SecondsPerDay
    ensures AgeDays(created, now) == d
  {
  }

  /** A card is never negatively aged unless it was created after `now`. */
  lemma AgeDaysNonNegative(created: int, now: int)
    ensures AgeDays(created, now) >= 0 <==> created <= now
  {
  }

  /** A card created exactly `k` days and `s` seconds (less than a day) before
      `now` is `k` days old. */
  lemma AgeDaysOfWholeDays(now: int, k: int, s: int)
    requires 0 <= s < SecondsPerDay
    ensures AgeDays(now - k * SecondsPerDay - s, now) == k
  {
    AgeDaysUnique(now - k * SecondsPerDay - s, now, k);
  }

  /** Age never decreases as `now` advances. */
  lemma AgeDaysMonotone(created: int, now1: int, now2: int)
    requires now1 <= now2
    ensures AgeDays(created, now1) <= AgeDays(created, now2)
  {
  }

  /** The colour of a card of the given age: red from the red threshold on,
      checked first; otherwise yellow from the yellow threshold on;
      otherwise green. */
  function CardColor(age: int, t: Thresholds): (c: string)
    ensures c == GreenHex || c == YellowHex || c == RedHex
    ensures c == RedHex <==> age >= t.red
    ensures c == YellowHex <==> t.yellow <= age < t.red
    ensures c == GreenHex <==> age < t.yellow && age < t.red
  {
    if age >= t.red then RedHex
    else if age >= t.yellow then YellowHex
    else GreenHex
  }

  /** The severity order green < yellow < red of the three colours. */
  function Severity(c: string): nat {
    if c == RedHex then 2 else if c == YellowHex then 1 else 0
  }

  /** An older card is never shown in a less severe colour, whatever the
      thresholds (red is checked first, so even yellow > red is monotone). */
  lemma CardColorMonotone(age1: int, age2: int, t: Thresholds)
    requires age1 <= age2
    ensures Severity(CardColor(age1, t)) <= Severity(CardColor(age2, t))
  {
  }

  /** The boundaries of the classification for yellow < red: exactly red is
      red, exactly yellow is yellow, one day less is green. */
  lemma CardColorBoundaries(t: Thresholds)
    requires t.yellow < t.red
    ensures CardColor(t.red, t) == RedHex
    ensures CardColor(t.yellow, t) == YellowHex
    ensures CardColor(t.yellow - 1, t) == GreenHex
  {
  }

  /** With the default thresholds a card 20 days old is red, one a day old green. */
  lemma DefaultScenarios(now: int)
    ensures AgeDays(now - 20 * SecondsPerDay, now) == 20
    ensures CardColor(AgeDays(now - 20 * SecondsPerDay, now), DefaultThresholds) == RedHex
    ensures CardColor(AgeDays(now - 1 * SecondsPerDay, now), DefaultThresholds) == GreenHex
  {
    AgeDaysOfWholeDays(now, 20, 0);
    AgeDaysOfWholeDays(now, 1, 0);
  }
}
