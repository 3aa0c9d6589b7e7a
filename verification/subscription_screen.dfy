/** The subscription page: the record of the user's plan kept in device
    storage under "user_subscription", the two plans (a free 7-day trial and
    a monthly premium plan) and the buttons that start them. Times are
    milliseconds since the epoch. */
module SubscriptionScreen {
  import opened Seqs

  const TrialPlanId := "saferide_trial"
  const PremiumPlanId := "saferide_premium_monthly"
  const DayMs: int := 24 * 60 * 60 * 1000
  const TrialDurationMs: int := 7 * DayMs
  const PremiumDurationMs: int := 30 * DayMs

  /** The stored record: `type`, `expiresAt` and `activatedAt`. */
  datatype SubscriptionRecord = SubscriptionRecord(kind: string, expiresAt: Option<int>, activatedAt: int)

  /** `isSubscribed`: a premium record that has not yet expired. */
  predicate IsSubscribed(sub: Option<SubscriptionRecord>, now: int) {
    sub.Some? && sub.value.kind == "premium" && sub.value.expiresAt.Some? && sub.value.expiresAt.value > now
  }

  /** What storage holds under "user_subscription": nothing, text that
      `JSON.parse` rejects, or a record. */
  datatype Stored = Missing | Unparsable | Parsed(record: SubscriptionRecord)

  /** The title of the status card shown when a record exists. */
  function StatusTitle(sub: SubscriptionRecord, now: int): string {
    if IsSubscribed(Some(sub), now) then "Premium Ativo"
    else if sub.kind == "free" then "Plano Básico"
    else "Premium Expirado"
  }

  /** The card says "Premium Ativo" exactly for a live premium record; a
      trial, even a running one, is shown as "Premium Expirado". */
  lemma StatusTitleSpec(sub: SubscriptionRecord, now: int)
    ensures StatusTitle(sub, now) == "Premium Ativo" <==> IsSubscribed(Some(sub), now)
    ensures sub.kind == "trial" ==> StatusTitle(sub, now) == "Premium Expirado"
  {
  }

  /** The label of a plan's button. */
  function PlanButtonLabel(sub: Option<SubscriptionRecord>, planId: string): string {
    if sub.Some? && sub.value.kind == "premium" && planId == PremiumPlanId then "Plano Atual"
    else if sub.Some? && sub.value.kind == "trial" && planId == TrialPlanId then "Trial Ativo"
    else if planId == TrialPlanId then "Iniciar Trial Gratuito"
    else "Assinar Premium"
  }

  /** Whether a plan's button is disabled, as written: the premium button is
      locked for any premium record, expired or not. */
  predicate PlanButtonDisabled(loading: bool, sub: Option<SubscriptionRecord>, planId: string) {
    loading || (sub.Some? && sub.value.kind == "premium" && planId == PremiumPlanId)
  }

  /** Whether a plan's button is disabled when the lock follows
      `isSubscribed`: only a live premium plan locks its button. */
  predicate PlanButtonDisabledFixed(loading: bool, sub: Option<SubscriptionRecord>, planId: string, now: int) {
    loading || (IsSubscribed(sub, now) && planId == PremiumPlanId)
  }

  /** Each plan's button shows one of its own two labels, and, loading
      aside, a button is disabled exactly when it reads "Plano Atual"; the
      trial button is never locked. */
  lemma PlanButtonSpec(loading: bool, sub: Option<SubscriptionRecord>, planId: string)
    ensures planId == TrialPlanId ==> PlanButtonLabel(sub, planId) in {"Trial Ativo", "Iniciar Trial Gratuito"}
    ensures planId != TrialPlanId ==> PlanButtonLabel(sub, planId) in {"Plano Atual", "Assinar Premium"}
    ensures PlanButtonDisabled(loading, sub, planId) <==> loading || PlanButtonLabel(sub, planId) == "Plano Atual"
    ensures planId == TrialPlanId ==> (PlanButtonDisabled(loading, sub, planId) <==> loading)
  {
  }

  /** As written, a premium plan that has run out leaves the user with a
      locked "Plano Atual" button under a "Premium Expirado" card: the page
      offers no way to renew. */
  lemma ExpiredPremiumLocked(expiresAt: int, activatedAt: int, now: int)
    requires expiresAt <= now
    ensures var sub := SubscriptionRecord("premium", Some(expiresAt), activatedAt);
      && !IsSubscribed(Some(sub), now)
      && StatusTitle(sub, now) == "Premium Expirado"
      && PlanButtonLabel(Some(sub), PremiumPlanId) == "Plano Atual"
      && PlanButtonDisabled(false, Some(sub), PremiumPlanId)
  {
  }

  /** With the lock following `isSubscribed`, the premium button is locked
      exactly while the premium plan is live, so an expired plan can be
      renewed. */
  lemma PremiumLockFollowsSubscription(loading: bool, sub: Option<SubscriptionRecord>, now: int)
    ensures PlanButtonDisabledFixed(loading, sub, PremiumPlanId, now) <==> loading || IsSubscribed(sub, now)
    ensures !loading && sub.Some? && sub.value.expiresAt.Some? && sub.value.expiresAt.value <= now ==>
      !PlanButtonDisabledFixed(loading, sub, PremiumPlanId, now)
  {
  }

  /** The page's state: what storage holds, the record shown on screen and
      the loading flag that locks the buttons. */
  class SubscriptionPage {
    var stored: Stored
    var userSubscription: Option<SubscriptionRecord>
    var loading: bool

    constructor (storedRecord: Stored)
      ensures stored == storedRecord && userSubscription.None? && !loading
    {
      stored := storedRecord;
      userSubscription := None;
      loading := false;
    }

    /** loadUserSubscription: a readable stored record is shown; nothing
        stored, or a parse error that the handler catches, leaves the page
        as it is. */
    method LoadUserSubscription()
      modifies this`userSubscription
      ensures userSubscription == if stored.Parsed? then Some(stored.record) else old(userSubscription)
    {
      match stored {
        case Parsed(record) =>
          userSubscription := Some(record);
        case Missing =>
        case Unparsable =>
      }
    }

    /** updateSubscription: a new record expiring at `expiresAt` is stored
        and shown. */
    method UpdateSubscription(kind: string, expiresAt: int, now: int)
      modifies this`stored, this`userSubscription
      ensures stored == Parsed(SubscriptionRecord(kind, Some(expiresAt), now))
      ensures userSubscription == Some(stored.record)
    {
      var subscription := SubscriptionRecord(kind, Some(expiresAt), now);
      stored := Parsed(subscription);
      userSubscription := Some(subscription);
    }

    /** A confirmed press on a plan's button, with the lock as written. A
        locked button does nothing; the trial plan writes a 7-day trial, any
        other plan 30 days of premium. */
    method PressPlan(planId: string, now: int)
      modifies this`stored, this`userSubscription, this`loading
      ensures !loading
      ensures PlanButtonDisabled(old(loading), old(userSubscription), planId) ==>
        stored == old(stored) && userSubscription == old(userSubscription)
      ensures !PlanButtonDisabled(old(loading), old(userSubscription), planId) && planId == TrialPlanId ==>
        stored == Parsed(SubscriptionRecord("trial", Some(now + TrialDurationMs), now))
        && userSubscription == Some(stored.record)
      ensures !PlanButtonDisabled(old(loading), old(userSubscription), planId) && planId != TrialPlanId ==>
        stored == Parsed(SubscriptionRecord("premium", Some(now + PremiumDurationMs), now))
        && userSubscription == Some(stored.record)
      ensures !PlanButtonDisabled(old(loading), old(userSubscription), planId) && planId != TrialPlanId ==>
        IsSubscribed(userSubscription, now)
    {
      if PlanButtonDisabled(loading, userSubscription, planId) {
        loading := false;
        return;
      }
      if planId == TrialPlanId {
        UpdateSubscription("trial", now + TrialDurationMs, now);
      } else {
        UpdateSubscription("premium", now + PremiumDurationMs, now);
      }
      loading := false;
    }

    /** The same press with the lock following `isSubscribed`: an expired
        premium plan can be renewed, and a live one stays locked. */
    method PressPlanFixed(planId: string, now: int)
      modifies this`stored, this`userSubscription, this`loading
      ensures !loading
      ensures PlanButtonDisabledFixed(old(loading), old(userSubscription), planId, now) ==>
        stored == old(stored) && userSubscription == old(userSubscription)
      ensures !PlanButtonDisabledFixed(old(loading), old(userSubscription), planId, now) && planId == TrialPlanId ==>
        stored == Parsed(SubscriptionRecord("trial", Some(now + TrialDurationMs), now))
        && userSubscription == Some(stored.record)
      ensures !PlanButtonDisabledFixed(old(loading), old(userSubscription), planId, now) && planId != TrialPlanId ==>
        stored == Parsed(SubscriptionRecord("premium", Some(now + PremiumDurationMs), now))
        && userSubscription == Some(stored.record)
      ensures !old(loading) && planId == PremiumPlanId && !IsSubscribed(old(userSubscription), now) ==>
        IsSubscribed(userSubscription, now)
    {
      if PlanButtonDisabledFixed(loading, userSubscription, planId, now) {
        loading := false;
        return;
      }
      if planId == TrialPlanId {
        UpdateSubscription("trial", now + TrialDurationMs, now);
      } else {
        UpdateSubscription("premium", now + PremiumDurationMs, now);
      }
      loading := false;
    }
  }
}
