/** The free-trial status and the `/trial/start` and `/trial/complete`
    routes. Times are milliseconds since the epoch; Stripe reports seconds.
    Stripe, the trials table reads and the clock are parameters. */
module Trial {
  import opened Common
  import opened SupabaseJwt
  import opened ServerRepo

  const TrialDays := 14
  const MsPerDay := 24 * 60 * 60 * 1000

  /** `Math.floor(ms / MS_PER_DAY)`: Dafny's division by a positive divisor
      already rounds toward minus infinity. */
  function ElapsedDays(ms: int): int {
    ms / MsPerDay
  }

  /** The reply body of the status routes. */
  datatype TrialStatus = TrialStatus(
    success: bool,
    trialDays: int,
    trialStartAt: Option<int>,
    daysLeft: int,
    isTrialActive: bool,
    hasCompletedTrial: bool)

  /** The trials-table fields `computeStatus` reads. */
  datatype TrialRow = TrialRow(trialStartAt: Option<int>, hasCompletedTrial: bool)

  function RowOf(t: UserTrial): TrialRow {
    TrialRow(t.trialStartAt, t.hasCompletedTrial)
  }

  /** `computeStatus`: the days left of a started, uncompleted trial count
      down from 14 by whole elapsed days and stop at 0. */
  function ComputeStatus(row: TrialRow, now: int): (r: TrialStatus)
    ensures r.success && r.trialDays == TrialDays && r.trialStartAt == row.trialStartAt
    ensures r.hasCompletedTrial == row.hasCompletedTrial
    ensures r.daysLeft >= 0
    ensures row.trialStartAt.Some? && now >= row.trialStartAt.value ==> r.daysLeft <= TrialDays
    ensures row.trialStartAt.None? || row.hasCompletedTrial ==> r.daysLeft == 0
    ensures r.isTrialActive <==> row.trialStartAt.Some? && !row.hasCompletedTrial && r.daysLeft > 0
  {
    var daysLeft :=
      if row.trialStartAt.Some? && !row.hasCompletedTrial then
        Max(0, TrialDays - ElapsedDays(now - row.trialStartAt.value))
      else 0;
    TrialStatus(true, TrialDays, row.trialStartAt, daysLeft,
                row.trialStartAt.Some? && !row.hasCompletedTrial && daysLeft > 0,
                row.hasCompletedTrial)
  }

  function Max(a: int, b: int): (m: int)
    ensures m >= a && m >= b && (m == a || m == b)
  {
    if a >= b then a else b
  }

  /** A whole number of days elapses before `d` whole days exactly when
      less than `d` days' worth of milliseconds have passed. */
  lemma ElapsedBelow(ms: int, d: int)
    ensures ElapsedDays(ms) < d <==> ms < d * MsPerDay
  {
    var q := ms / MsPerDay;
    assert ms == q * MsPerDay + ms % MsPerDay;
    if q < d {
      assert q * MsPerDay <= (d - 1) * MsPerDay;
    } else {
      assert q * MsPerDay >= d * MsPerDay;
    }
  }

  /** A trial is active exactly while fewer than 14 days have passed since
      its start (and it is not completed). */
  lemma TrialActiveIffWithinFourteenDays(row: TrialRow, now: int)
    requires row.trialStartAt.Some?
    ensures ComputeStatus(row, now).isTrialActive <==>
      !row.hasCompletedTrial && now < row.trialStartAt.value + TrialDays * MsPerDay
  {
    ElapsedBelow(now - row.trialStartAt.value, TrialDays);
  }

  /** A completed trial shows no days left and is not active. */
  lemma CompletedTrialStatus(start: Option<int>, now: int)
    ensures var r := ComputeStatus(TrialRow(start, true), now);
      r.daysLeft == 0 && !r.isTrialActive && r.hasCompletedTrial
  {
  }

  /** The Stripe subscription fields the routes read; times in seconds. */
  datatype StripeSubscription = StripeSubscription(
    id: string,
    status: string,
    trialStart: Option<int>,
    trialEnd: Option<int>,
    priceIds: seq<string>)

  /** `subscription.trial_end ? ... : null`: a missing end and an end of 0
      both count as no end. */
  function TrialEndMs(s: StripeSubscription): (r: Option<int>)
    ensures r.Some? <==> s.trialEnd.Some? && s.trialEnd.value != 0
    ensures r.Some? ==> r.value == s.trialEnd.value * 1000
  {
    if s.trialEnd.Some? && s.trialEnd.value != 0 then Some(s.trialEnd.value * 1000) else None
  }

  /** The same conversion for `trial_start`. */
  function TrialStartMs(s: StripeSubscription): Option<int> {
    if s.trialStart.Some? && s.trialStart.value != 0 then Some(s.trialStart.value * 1000) else None
  }

  predicate CompletedStatus(status: string) {
    status == "active" || status == "past_due" || status == "canceled"
  }

  /** `computeStatusFromStripe`: the start is taken to be 14 days before
      Stripe's trial end; days count down only while Stripe says
      `trialing`. */
  function ComputeStatusFromStripe(s: StripeSubscription, now: int): (r: TrialStatus)
    ensures r.success && r.trialDays == TrialDays
    ensures TrialEndMs(s).Some? <==> r.trialStartAt.Some?
    ensures r.trialStartAt.Some? ==> r.trialStartAt.value == TrialEndMs(s).value - TrialDays * MsPerDay
    ensures r.daysLeft >= 0
    ensures r.daysLeft > 0 ==> s.status == "trialing"
    ensures r.isTrialActive <==> r.daysLeft > 0
    ensures r.hasCompletedTrial <==> CompletedStatus(s.status)
  {
    var trialEnd := TrialEndMs(s);
    var trialStart := if trialEnd.Some? then Some(trialEnd.value - TrialDays * MsPerDay) else None;
    var daysLeft :=
      if trialEnd.Some? && s.status == "trialing" then Max(0, TrialDays - ElapsedDays(now - trialStart.value))
      else 0;
    TrialStatus(true, TrialDays, trialStart, daysLeft, daysLeft > 0, CompletedStatus(s.status))
  }

  /** A Stripe trial is active exactly while it is `trialing` and its end
      lies in the future. */
  lemma StripeTrialActiveIffBeforeEnd(s: StripeSubscription, now: int)
    requires TrialEndMs(s).Some?
    ensures ComputeStatusFromStripe(s, now).isTrialActive <==>
      s.status == "trialing" && now < TrialEndMs(s).value
  {
    ElapsedBelow(now - (TrialEndMs(s).value - TrialDays * MsPerDay), TrialDays);
  }

  // ---------------------------------------------------------------------
  // Routes
  // ---------------------------------------------------------------------

  /** A reply: the HTTP status and either a status body or an error. */
  datatype Reply = StatusReply(status: TrialStatus) | ErrorReply(code: int, error: string)

  /** The upsert into the trials table a route performs. */
  datatype TrialUpsert = TrialUpsert(
    userId: string, subscriptionId: string, trialStartAt: Option<int>, hasCompletedTrial: bool, trialEndAt: Option<int>)

  /** The Stripe calls of `/trial/start`; any of them may throw with a
      message. */
  datatype Stripe = Stripe(
    retrieve: string -> Result<StripeSubscription, string>,
    customerFor: (string, Option<string>, Option<string>) -> Result<string, string>,
    list: string -> Result<seq<StripeSubscription>, string>,
    create: string -> Result<StripeSubscription, string>)

  /** The route's user id: `(requireAuth && user?.sub) || undefined`. */
  function RouteUserId(requireAuth: bool, user: Option<JwtPayload>): (r: Option<string>)
    ensures r.Some? <==> requireAuth && user.Some? && user.value.sub != ""
    ensures r.Some? ==> r.value == user.value.sub
  {
    if requireAuth && user.Some? && user.value.sub != "" then Some(user.value.sub) else None
  }

  /** The catch block: the error's message, or `Server error`. */
  function ServerError(message: string): (r: Reply)
    ensures r.ErrorReply? && r.code == 500
  {
    ErrorReply(500, if message != "" then message else "Server error")
  }

  /** A stored Stripe subscription id the routes act on: present and, as
      JavaScript tests it, not the empty string. */
  predicate StripeIdSet(id: Option<string>) {
    id.Some? && id.value != ""
  }

  /** A subscription that counts as the user's running trial. */
  predicate IsRunningTrial(s: StripeSubscription, priceId: string) {
    (s.status == "trialing" || s.status == "active") && priceId in s.priceIds
  }

  /** The first running trial in Stripe's list. */
  function FindRunningTrial(subs: seq<StripeSubscription>, priceId: string): (r: Option<nat>)
    ensures r.None? <==> forall i :: 0 <= i < |subs| ==> !IsRunningTrial(subs[i], priceId)
    ensures r.Some? ==> r.value < |subs| && IsRunningTrial(subs[r.value], priceId)
                        && forall i :: 0 <= i < r.value ==> !IsRunningTrial(subs[i], priceId)
    decreases |subs|
  {
    if |subs| == 0 then None
    else if IsRunningTrial(subs[0], priceId) then Some(0)
    else
      var r := FindRunningTrial(subs[1..], priceId);
      if r.None? then None else Some(r.value + 1)
  }

  /** The status reply and the upsert for a subscription Stripe already
      has. */
  function FromSubscription(userId: string, s: StripeSubscription, now: int): (TrialStatus, TrialUpsert) {
    var status := ComputeStatusFromStripe(s, now);
    (status, TrialUpsert(userId, s.id, status.trialStartAt, status.hasCompletedTrial, TrialEndMs(s)))
  }

  /** Writing the row before replying: `upsert` is the repository's answer,
      and a failed write ends in the catch block with nothing written. */
  function ReplyAfterUpsert(status: TrialStatus, up: TrialUpsert, upsert: TrialUpsert -> Result<(), string>): (r: (Reply, Option<TrialUpsert>))
    ensures upsert(up).Ok? ==> r == (StatusReply(status), Some(up))
    ensures upsert(up).Err? ==> r == (ServerError(upsert(up).error), None)
  {
    match upsert(up)
    case Err(m) => (ServerError(m), None)
    case Ok(_) => (StatusReply(status), Some(up))
  }

  /** `/trial/start`. `existing` is the answer of the trials-table read:
      its row, or the message it throws with. */
  function TrialStart(requireAuth: bool, user: Option<JwtPayload>, stripe: Option<Stripe>, priceId: string,
                      existing: Result<Option<UserTrial>, string>, now: int,
                      upsert: TrialUpsert -> Result<(), string>): (r: (Reply, Option<TrialUpsert>))
    ensures RouteUserId(requireAuth, user).None? ==> r == (ErrorReply(401, "Unauthorized"), None)
    ensures RouteUserId(requireAuth, user).Some? && stripe.None? ==> r == (ErrorReply(500, "Stripe not configured"), None)
    ensures RouteUserId(requireAuth, user).Some? && stripe.Some? && existing.Err? ==>
      r == (ServerError(existing.error), None)
    ensures RouteUserId(requireAuth, user).Some? && stripe.Some? && existing.Ok? && existing.value.Some?
            && StripeIdSet(existing.value.value.stripeSubscriptionId) ==>
      match stripe.value.retrieve(existing.value.value.stripeSubscriptionId.value)
      case Err(m) => r == (ServerError(m), None)
      case Ok(sub) => r == ReplyAfterUpsert(FromSubscription(RouteUserId(requireAuth, user).value, sub, now).0,
                                            FromSubscription(RouteUserId(requireAuth, user).value, sub, now).1, upsert)
    ensures RouteUserId(requireAuth, user).Some? && stripe.Some? && existing.Ok? && existing.value.Some?
            && !StripeIdSet(existing.value.value.stripeSubscriptionId) && existing.value.value.hasCompletedTrial ==>
      r == (StatusReply(ComputeStatus(RowOf(existing.value.value), now)), None)
    ensures r.1.Some? ==> r.0.StatusReply? && RouteUserId(requireAuth, user) == Some(r.1.value.userId)
    ensures r.1.Some? ==> upsert(r.1.value).Ok?
  {
    var userSub := RouteUserId(requireAuth, user);
    if userSub.None? then (ErrorReply(401, "Unauthorized"), None)
    else if stripe.None? then (ErrorReply(500, "Stripe not configured"), None)
    else if existing.Err? then (ServerError(existing.error), None)
    else
      var u := userSub.value;
      var st := stripe.value;
      var row := existing.value;
      if row.Some? && StripeIdSet(row.value.stripeSubscriptionId) then
        match st.retrieve(row.value.stripeSubscriptionId.value)
        case Err(m) => (ServerError(m), None)
        case Ok(s) =>
          var (status, up) := FromSubscription(u, s, now);
          ReplyAfterUpsert(status, up, upsert)
      else if row.Some? && row.value.hasCompletedTrial then
        (StatusReply(ComputeStatus(RowOf(row.value), now)), None)
      else
        var info := if user.Some? then GetUserInfoFromJwt(user.value) else UserInfo("", "");
        var email := if info.email != "" then Some(info.email) else None;
        var name := if info.name != "" then Some(info.name) else None;
        match st.customerFor(u, email, name)
        case Err(m) => (ServerError(m), None)
        case Ok(customer) =>
          match st.list(customer)
          case Err(m) => (ServerError(m), None)
          case Ok(subs) =>
            var running := FindRunningTrial(subs, priceId);
            if running.Some? then
              var (status, up) := FromSubscription(u, subs[running.value], now);
              ReplyAfterUpsert(status, up, upsert)
            else
              match st.create(customer)
              case Err(m) => (ServerError(m), None)
              case Ok(s) =>
                ReplyAfterUpsert(ComputeStatusFromStripe(s, now), TrialUpsert(u, s.id, TrialStartMs(s), false, TrialEndMs(s)), upsert)
  }

  /** A user with a running trial subscription gets that subscription's
      status, and no second subscription is created. */
  lemma RunningTrialIsReused(requireAuth: bool, user: Option<JwtPayload>, st: Stripe, priceId: string,
                             existing: Result<Option<UserTrial>, string>, now: int, upsert: TrialUpsert -> Result<(), string>,
                             customer: string, subs: seq<StripeSubscription>, k: nat)
    requires RouteUserId(requireAuth, user).Some?
    requires existing.Ok?
    requires existing.value.None?
             || (!StripeIdSet(existing.value.value.stripeSubscriptionId) && !existing.value.value.hasCompletedTrial)
    requires st.customerFor(user.value.sub,
               if GetUserInfoFromJwt(user.value).email != "" then Some(GetUserInfoFromJwt(user.value).email) else None,
               if GetUserInfoFromJwt(user.value).name != "" then Some(GetUserInfoFromJwt(user.value).name) else None) == Ok(customer)
    requires st.list(customer) == Ok(subs)
    requires k < |subs| && IsRunningTrial(subs[k], priceId)
    ensures var r := TrialStart(requireAuth, user, Some(st), priceId, existing, now, upsert);
      r.1.Some? ==> r.0.StatusReply? && exists j :: 0 <= j <= k && r.1.value.subscriptionId == subs[j].id
    ensures var r := TrialStart(requireAuth, user, Some(st), priceId, existing, now, upsert);
      r.1.None? ==> r.0.ErrorReply? && r.0.code == 500
    ensures (forall up :: upsert(up).Ok?) ==> TrialStart(requireAuth, user, Some(st), priceId, existing, now, upsert).1.Some?
  {
    var running := FindRunningTrial(subs, priceId);
    assert running.Some?;
  }

  /** `/trial/complete`: the row after `completeTrial`, as a status.
      `failure` is the message the repository throws, if it does; then the
      table is left as it was and the catch block answers. */
  function TrialComplete(requireAuth: bool, user: Option<JwtPayload>, trials: map<string, UserTrial>, now: int,
                         failure: Option<string>): (r: (Reply, map<string, UserTrial>))
    ensures RouteUserId(requireAuth, user).None? ==> r == (ErrorReply(401, "Unauthorized"), trials)
    ensures RouteUserId(requireAuth, user).Some? && failure.Some? ==> r == (ServerError(failure.value), trials)
    ensures RouteUserId(requireAuth, user).Some? && failure.None? ==> r.0.StatusReply?
    ensures r.0.StatusReply? ==> r.0.status.hasCompletedTrial && !r.0.status.isTrialActive && r.0.status.daysLeft == 0
  {
    var userSub := RouteUserId(requireAuth, user);
    if userSub.None? then (ErrorReply(401, "Unauthorized"), trials)
    else if failure.Some? then (ServerError(failure.value), trials)
    else
      var (rows, row) := CompleteTrialSpec(trials, userSub.value, now);
      (StatusReply(ComputeStatus(RowOf(row), now)), rows)
  }
}
