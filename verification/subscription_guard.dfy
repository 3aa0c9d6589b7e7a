/** The guard wrapped around the app's screens: it reads the stored
    subscription record once, raises the "subscription needed" modal when
    there is none or it has expired, and shows a countdown banner during a
    trial. Times are milliseconds since the epoch. */
module SubscriptionGuard {
  import opened Seqs
  import opened SubscriptionScreen

  /** `isSubscriptionActive`: a record with an expiry still in the future,
      whatever its kind. */
  predicate IsSubscriptionActive(sub: Option<SubscriptionRecord>, now: int) {
    sub.Some? && sub.value.expiresAt.Some? && sub.value.expiresAt.value > now
  }

  /** `Math.ceil(a / b)` for a positive divisor. */
  function CeilDiv(a: int, b: int): (q: int)
    requires b > 0
    ensures (q - 1) * b < a <= q * b
  {
    var f := (-a) / b;
    assert f * b <= -a < (f + 1) * b;
    -f
  }

  /** `getDaysLeft`: whole days to the expiry, rounded up, and never below 0. */
  function DaysLeft(sub: Option<SubscriptionRecord>, now: int): nat {
    if sub.None? || sub.value.expiresAt.None? then 0
    else
      var diffDays := CeilDiv(sub.value.expiresAt.value - now, DayMs);
      if diffDays < 0 then 0 else diffDays
  }

  /** Days are left exactly while the subscription is active, and then the
      count is the remaining time in days rounded up. */
  lemma DaysLeftSpec(sub: Option<SubscriptionRecord>, now: int)
    ensures DaysLeft(sub, now) > 0 <==> IsSubscriptionActive(sub, now)
    ensures IsSubscriptionActive(sub, now) ==>
      var left := sub.value.expiresAt.value - now;
      (DaysLeft(sub, now) - 1) * DayMs < left <= DaysLeft(sub, now) * DayMs
  {
  }

  /** The banner shown above the screens. */
  datatype Banner = NoBanner | TrialBanner(daysLeft: nat, warning: bool)

  /** At most two days are left, counted as `getDaysLeft` counts them,
      exactly when the expiry is missing or at most two days away. */
  lemma DaysLeftAtMostTwo(sub: Option<SubscriptionRecord>, now: int)
    requires sub.Some?
    ensures DaysLeft(sub, now) <= 2 <==> sub.value.expiresAt.None? || sub.value.expiresAt.value - now <= 2 * DayMs
  {
    if sub.value.expiresAt.Some? {
      var q := CeilDiv(sub.value.expiresAt.value - now, DayMs);
      assert (q - 1) * DayMs < sub.value.expiresAt.value - now <= q * DayMs;
      if q <= 2 {
        assert q * DayMs <= 2 * DayMs;
      } else {
        assert 2 * DayMs <= (q - 1) * DayMs;
      }
    }
  }

  /** Only a trial record gets a banner. Its count is positive exactly while
      the trial is active, and is then the remaining time in days rounded up;
      it takes the warning style exactly when the expiry is at most two days
      away, has passed, or is missing. */
  function BannerFor(sub: Option<SubscriptionRecord>, now: int): (b: Banner)
    ensures b.TrialBanner? <==> sub.Some? && sub.value.kind == "trial"
    ensures b.TrialBanner? ==> (b.daysLeft > 0 <==> IsSubscriptionActive(sub, now))
    ensures b.TrialBanner? && b.daysLeft > 0 ==>
      (b.daysLeft - 1) * DayMs < sub.value.expiresAt.value - now <= b.daysLeft * DayMs
    ensures b.TrialBanner? ==>
      (b.warning <==> sub.value.expiresAt.None? || sub.value.expiresAt.value - now <= 2 * DayMs)
  {
    if sub.Some? && sub.value.kind == "trial" then
      var left := DaysLeft(sub, now);
      DaysLeftSpec(sub, now);
      DaysLeftAtMostTwo(sub, now);
      TrialBanner(left, left <= 2)
    else NoBanner
  }

  /** The modal's title and the label of its button. */
  datatype ModalCopy = ModalCopy(title: string, button: string)

  function ExpiredModalCopy(sub: Option<SubscriptionRecord>): ModalCopy {
    if sub.Some? && sub.value.kind == "trial" then ModalCopy("Trial Expirado", "Assinar Premium")
    else ModalCopy("Assinatura Necessária", "Iniciar Trial Gratuito")
  }

  /** The modal offers the premium plan to a user whose trial ran out and
      the trial to everybody else. */
  lemma ExpiredModalOffersNextPlan(sub: Option<SubscriptionRecord>)
    ensures ExpiredModalCopy(sub).button == "Assinar Premium" <==> sub.Some? && sub.value.kind == "trial"
    ensures ExpiredModalCopy(sub).button == "Assinar Premium" <==> ExpiredModalCopy(sub).title == "Trial Expirado"
  {
  }

  class Guard {
    var subscription: Option<SubscriptionRecord>
    var showExpiredModal: bool
    var loading: bool

    constructor ()
      ensures subscription.None? && !showExpiredModal && loading
    {
      subscription := None;
      showExpiredModal := false;
      loading := true;
    }

    /** checkSubscriptionStatus: a missing or unreadable record raises the
        modal; a readable one is kept and raises the modal when its expiry
        has passed. A record without an expiry raises nothing. */
    method CheckSubscriptionStatus(stored: Stored, now: int)
      modifies this`subscription, this`showExpiredModal, this`loading
      ensures !loading
      ensures subscription == if stored.Parsed? then Some(stored.record) else old(subscription)
      ensures showExpiredModal ==
        (old(showExpiredModal) || !stored.Parsed?
         || (stored.record.expiresAt.Some? && stored.record.expiresAt.value <= now))
    {
      match stored {
        case Missing =>
          showExpiredModal := true;
        case Unparsable =>
          showExpiredModal := true;
        case Parsed(sub) =>
          subscription := Some(sub);
          if sub.expiresAt.Some? && sub.expiresAt.value <= now {
            showExpiredModal := true;
          }
      }
      loading := false;
    }

    /** handleSubscribeNow: the modal closes (and the app moves to the
        subscription page). */
    method HandleSubscribeNow()
      modifies this`showExpiredModal
      ensures !showExpiredModal
    {
      showExpiredModal := false;
    }
  }

  /** After the first check, the modal is up exactly when the subscription
      is not active, except for a readable record without an expiry, which
      is let through although it is not active. */
  lemma ModalIffInactive(stored: Stored, now: int)
    ensures var sub := if stored.Parsed? then Some(stored.record) else None;
      var modal := !stored.Parsed? || (stored.record.expiresAt.Some? && stored.record.expiresAt.value <= now);
      && (!(stored.Parsed? && stored.record.expiresAt.None?) ==> (modal <==> !IsSubscriptionActive(sub, now)))
      && (stored.Parsed? && stored.record.expiresAt.None? ==> !modal && !IsSubscriptionActive(sub, now))
  {
  }

  /** A trial started on the subscription page at `start` is active for
      seven days: the banner counts down from 7 and turns to a warning
      once at most two days remain, and from the seventh day on the guard
      raises the modal; before day five there is no warning. The
      subscription page meanwhile never counts the trial as subscribed. */
  lemma TrialLifecycle(start: int, now: int)
    ensures var trial := Some(SubscriptionRecord("trial", Some(start + TrialDurationMs), start));
      && DaysLeft(trial, start) == 7
      && BannerFor(trial, start) == TrialBanner(7, false)
      && (start <= now < start + TrialDurationMs ==> IsSubscriptionActive(trial, now))
      && (BannerFor(trial, now).warning <==> now >= start + 5 * DayMs)
      && (now >= start + TrialDurationMs ==> !IsSubscriptionActive(trial, now) && DaysLeft(trial, now) == 0)
      && !IsSubscribed(trial, now)
  {
    var trial := Some(SubscriptionRecord("trial", Some(start + TrialDurationMs), start));
    DaysLeftSpec(trial, now);
    DaysLeftSpec(trial, start);
  }
}
