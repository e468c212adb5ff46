/** The billing routes: the subscription/trial status the app shows, the
    cancel decision, and the page that sends the browser back to the app.
    Stripe, the table reads and the clock are parameters. */
module Billing {
  import opened Common
  import opened SupabaseJwt
  import opened ServerRepo
  import Trial

  const MsPerDay := 24 * 60 * 60 * 1000

  /** `Math.ceil(ms / MS_PER_DAY)`. */
  function CeilDays(ms: int): (d: int)
    ensures (d - 1) * MsPerDay < ms <= d * MsPerDay
  {
    -((-ms) / MsPerDay)
  }

  // ---------------------------------------------------------------------
  // Deep-link page
  // ---------------------------------------------------------------------

  /** `targetUrl.replace(/"/g, '&quot;')`. */
  function EscapeQuotes(s: string): (r: string)
    ensures '"' !in r
    ensures '"' !in s ==> r == s
    ensures |r| == |s| + 5 * Count(s, (c: char) => c == '"')
    decreases |s|
  {
    if |s| == 0 then ""
    else (if s[0] == '"' then "&quot;" else [s[0]]) + EscapeQuotes(s[1..])
  }

  const PageHead := "<!doctype html><html><head><meta charset=\"utf-8\"><title>Returning to Ito\U{E2}\U{20AC}\U{A6}</title></head><body>\n  <p>If you are not redirected automatically, click below:</p>\n  <a href=\""
  const Quote := "\""
  const PageMiddle := Quote + ">Return to Ito</a>\n  <script>window.location = \""
  const PageTail := "\";</script>\n  </body></html>"

  /** `renderDeepLinkHtml`: the page with the escaped link in the anchor
      and in the redirect script. */
  function RenderDeepLinkHtml(targetUrl: string): string {
    var escaped := EscapeQuotes(targetUrl);
    PageHead + escaped + PageMiddle + escaped + PageTail
  }

  /** A quote-free middle followed by a quote is closed exactly there. */
  lemma QuoteClosesAfter(a: string, e: string, b: string)
    requires '"' !in e && b != [] && b[0] == '"'
    ensures |a| + |e| < |a + e + b| && (a + e + b)[|a| + |e|] == '"'
    ensures forall i :: |a| <= i < |a| + |e| ==> (a + e + b)[i] != '"'
  {
    var h := a + e + b;
    forall i | |a| <= i < |a| + |e|
      ensures h[i] != '"'
    {
      assert h[i] == e[i - |a|];
    }
  }

  lemma Regroup(a: string, e: string, m: string, t: string)
    ensures a + e + m + e + t == a + e + (m + e + t)
  {
  }

  /** Whatever the link holds, the anchor's `href` attribute is closed by
      the page's own quote, right after the escaped link: the link cannot
      end the attribute early. */
  lemma HrefAttributeIsClosedByThePage(targetUrl: string)
    ensures var html := RenderDeepLinkHtml(targetUrl);
      var start := |PageHead|;
      var close := start + |EscapeQuotes(targetUrl)|;
      && close < |html| && html[close] == '"'
      && forall i :: start <= i < close ==> html[i] != '"'
  {
    var e := EscapeQuotes(targetUrl);
    var rest := PageMiddle + e + PageTail;
    assert rest[0] == '"';
    Regroup(PageHead, e, PageMiddle, PageTail);
    QuoteClosesAfter(PageHead, e, rest);
  }

  // ---------------------------------------------------------------------
  // /billing/status
  // ---------------------------------------------------------------------

  datatype ProStatus = ActivePro | FreeTrial | NoPlan

  /** The `trial` block of the reply. */
  datatype TrialBlock = TrialBlock(
    trialDays: int, trialStartAt: Option<int>, daysLeft: int, isTrialActive: bool, hasCompletedTrial: bool)

  /** The subscription fields of the reply, present for paying users. */
  datatype SubscriptionInfo = SubscriptionInfo(
    subscriptionStartAt: Option<int>, subscriptionEndAt: Option<int>, isScheduledForCancellation: bool)

  datatype StatusReply =
    | Status(proStatus: ProStatus, subscription: Option<SubscriptionInfo>, trial: TrialBlock)
    | Unauthorized
    | ServerFailure(error: string)

  /** The length of the trial: the whole days between its start and end,
      rounded up, or 14 when either is unknown. */
  function TrialLength(trial: Option<UserTrial>): (d: int)
    ensures trial.None? || trial.value.trialStartAt.None? || trial.value.trialEndAt.None? ==> d == 14
    ensures trial.Some? && trial.value.trialStartAt.Some? && trial.value.trialEndAt.Some? ==>
      d == CeilDays(trial.value.trialEndAt.value - trial.value.trialStartAt.value)
  {
    if trial.Some? && trial.value.trialStartAt.Some? && trial.value.trialEndAt.Some? then
      CeilDays(trial.value.trialEndAt.value - trial.value.trialStartAt.value)
    else 14
  }

  function StartOf(trial: Option<UserTrial>): Option<int> {
    if trial.Some? then trial.value.trialStartAt else None
  }

  function EndOf(trial: Option<UserTrial>): Option<int> {
    if trial.Some? then trial.value.trialEndAt else None
  }

  predicate Completed(trial: Option<UserTrial>) {
    trial.Some? && trial.value.hasCompletedTrial
  }

  /** The `/billing/status` derivation from the user's subscription and
      trial rows. */
  function StatusFromRows(sub: Option<UserSubscription>, trial: Option<UserTrial>, now: int): (r: StatusReply)
    ensures r.Status?
    ensures sub.Some? ==>
      && r.proStatus == ActivePro
      && r.trial == TrialBlock(TrialLength(trial), StartOf(trial), 0, false, true)
      && r.subscription.Some?
      && (r.subscription.value.isScheduledForCancellation <==>
            sub.value.subscriptionEndAt.Some? && sub.value.subscriptionEndAt.value > now)
    ensures sub.None? ==>
      && r.subscription.None?
      && (r.trial.isTrialActive <==> EndOf(trial).Some? && now < EndOf(trial).value && !Completed(trial))
      && (r.trial.isTrialActive ==> r.trial.daysLeft == CeilDays(EndOf(trial).value - now) >= 1)
      && (!r.trial.isTrialActive ==> r.trial.daysLeft == 0)
      && (r.proStatus == FreeTrial <==> r.trial.isTrialActive)
      && (r.proStatus != FreeTrial ==> r.proStatus == NoPlan)
      && r.trial.hasCompletedTrial == Completed(trial)
  {
    var trialDays := TrialLength(trial);
    var trialStartAt := StartOf(trial);
    if sub.Some? then
      var endAt := sub.value.subscriptionEndAt;
      var scheduled := endAt.Some? && endAt.value > now;
      Status(ActivePro, Some(SubscriptionInfo(sub.value.subscriptionStartAt, endAt, scheduled)),
             TrialBlock(trialDays, trialStartAt, 0, false, true))
    else
      var trialEndAt := EndOf(trial);
      var isTrialActive := trialEndAt.Some? && now < trialEndAt.value && !Completed(trial);
      var daysLeft := if isTrialActive then Trial.Max(0, CeilDays(trialEndAt.value - now)) else 0;
      Status(if isTrialActive then FreeTrial else NoPlan, None,
             TrialBlock(trialDays, trialStartAt, daysLeft, isTrialActive, Completed(trial)))
  }

  /** `/billing/status`. `sub` and `trial` are the answers of the two table
      reads, a row or the message the read throws with; a throwing read
      ends the route in its catch block. */
  function BillingStatus(freeMode: bool, requireAuth: bool, user: Option<JwtPayload>,
                         sub: Result<Option<UserSubscription>, string>, trial: Result<Option<UserTrial>, string>,
                         now: int): (r: StatusReply)
    ensures freeMode ==> r == Status(ActivePro, None, TrialBlock(0, None, 0, false, true))
    ensures !freeMode && Trial.RouteUserId(requireAuth, user).None? ==> r == Unauthorized
    ensures !freeMode && Trial.RouteUserId(requireAuth, user).Some? && sub.Err? ==>
      r == ServerFailure(FailureMessage(sub.error))
    ensures !freeMode && Trial.RouteUserId(requireAuth, user).Some? && sub.Ok? && trial.Err? ==>
      r == ServerFailure(FailureMessage(trial.error))
    ensures !freeMode && Trial.RouteUserId(requireAuth, user).Some? && sub.Ok? && trial.Ok? ==>
      r == StatusFromRows(sub.value, trial.value, now)
    ensures r.ServerFailure? ==> r.error != ""
  {
    if freeMode then Status(ActivePro, None, TrialBlock(0, None, 0, false, true))
    else if Trial.RouteUserId(requireAuth, user).None? then Unauthorized
    else if sub.Err? then ServerFailure(FailureMessage(sub.error))
    else if trial.Err? then ServerFailure(FailureMessage(trial.error))
    else StatusFromRows(sub.value, trial.value, now)
  }

  /** A Stripe-synced fourteen-day trial reports 14 trial days, and on its
      first day 14 days left. */
  lemma FourteenDayTrialOnItsFirstDay(t: UserTrial, now: int)
    requires t.trialStartAt.Some? && t.trialEndAt == Some(t.trialStartAt.value + 14 * MsPerDay)
    requires !t.hasCompletedTrial && t.trialStartAt.value <= now < t.trialStartAt.value + MsPerDay
    ensures var r := BillingStatus(false, true, Some(JwtPayload("u", None, None, "", 0, 0)), Ok(None), Ok(Some(t)), now);
      r.Status? && r.proStatus == FreeTrial && r.trial.trialDays == 14 && r.trial.daysLeft == 14
  {
    var d := CeilDays(14 * MsPerDay);
    assert (d - 1) * MsPerDay < 14 * MsPerDay <= d * MsPerDay;
    var left := CeilDays(t.trialEndAt.value - now);
    assert (left - 1) * MsPerDay < t.trialEndAt.value - now <= left * MsPerDay;
  }

  // ---------------------------------------------------------------------
  // /billing/cancel
  // ---------------------------------------------------------------------

  /** What the cancel route does to Stripe and the tables, in order. */
  datatype CancelAction =
    | ScheduleCancellation(subscriptionId: string)
    | SetSubscriptionEnd(userId: string, endAt: Option<int>)
    | CancelStripeTrial(subscriptionId: string)
    | CompleteTrial(userId: string)

  datatype CancelReply = CancelOk | CancelFailed(code: int, error: string) | NothingToCancel

  /** The error text of a failed cancel: the thrown message, or a generic
      one when that message is empty. */
  function FailureMessage(m: string): (r: string)
    ensures r != "" && (m != "" ==> r == m)
    ensures m == "" ==> r == "Server error"
  {
    if m != "" then m else "Server error"
  }

  /** `/billing/cancel`: a paid subscription with a Stripe id is scheduled
      to end at the period end Stripe reports (`cancel_at`, seconds; 0
      means none); otherwise an uncompleted trial is cancelled in Stripe
      (when it has a subscription there) and completed; otherwise there is
      nothing to cancel. `sub` and `trial` are the answers of the two table
      reads, `scheduleCancel` is Stripe's update call, `cancelTrial` its
      cancel call, and `write` the tables' answer to a `SetSubscriptionEnd`
      or `CompleteTrial` write. Anything that throws ends the route with
      500. The actions are the Stripe calls and table writes attempted, in
      order. */
  function Cancel(freeMode: bool, requireAuth: bool, user: Option<JwtPayload>,
                  sub: Result<Option<UserSubscription>, string>, trial: Result<Option<UserTrial>, string>,
                  scheduleCancel: string -> Result<Option<int>, string>,
                  cancelTrial: string -> Result<(), string>,
                  write: CancelAction -> Result<(), string>): (r: (CancelReply, seq<CancelAction>))
    ensures freeMode ==> r == (CancelOk, [])
    ensures !freeMode && Trial.RouteUserId(requireAuth, user).None? ==> r == (CancelFailed(401, "Unauthorized"), [])
    ensures !freeMode && Trial.RouteUserId(requireAuth, user).Some? && sub.Err? ==>
      r == (CancelFailed(500, FailureMessage(sub.error)), [])
    ensures !freeMode && Trial.RouteUserId(requireAuth, user).Some? && PaidCancellable(sub) ==>
      var u := Trial.RouteUserId(requireAuth, user).value;
      var id := sub.value.value.stripeSubscriptionId.value;
      match scheduleCancel(id)
      case Ok(cancelAt) =>
        var end := SetSubscriptionEnd(u, if cancelAt.Some? && cancelAt.value != 0 then Some(cancelAt.value * 1000) else None);
        r == (Written(write(end)), [ScheduleCancellation(id), end])
      case Err(m) => r == (CancelFailed(500, FailureMessage(m)), [ScheduleCancellation(id)])
    ensures !freeMode && Trial.RouteUserId(requireAuth, user).Some? && sub.Ok? && !PaidCancellable(sub)
            && trial.Err? ==>
      r == (CancelFailed(500, FailureMessage(trial.error)), [])
    ensures !freeMode && Trial.RouteUserId(requireAuth, user).Some? && sub.Ok? && !PaidCancellable(sub)
            && OpenTrial(trial) ==>
      var complete := CompleteTrial(Trial.RouteUserId(requireAuth, user).value);
      var tid := trial.value.value.stripeSubscriptionId;
      if !Trial.StripeIdSet(tid) then r == (Written(write(complete)), [complete])
      else match cancelTrial(tid.value)
        case Ok(_) => r == (Written(write(complete)), [CancelStripeTrial(tid.value), complete])
        case Err(m) => r == (CancelFailed(500, FailureMessage(m)), [CancelStripeTrial(tid.value)])
    ensures !freeMode && Trial.RouteUserId(requireAuth, user).Some? && sub.Ok? && !PaidCancellable(sub) ==>
      (r.0 == NothingToCancel <==> trial.Ok? && !OpenTrial(trial))
    ensures r.0 == NothingToCancel ==> r.1 == []
    ensures forall a :: a in r.1 && a.CompleteTrial? ==> OpenTrial(trial)
  {
    if freeMode then (CancelOk, [])
    else
      var userSub := Trial.RouteUserId(requireAuth, user);
      if userSub.None? then (CancelFailed(401, "Unauthorized"), [])
      else if sub.Err? then (CancelFailed(500, FailureMessage(sub.error)), [])
      else
        var u := userSub.value;
        if PaidCancellable(sub) then
          var id := sub.value.value.stripeSubscriptionId.value;
          match scheduleCancel(id)
          case Err(m) => (CancelFailed(500, FailureMessage(m)), [ScheduleCancellation(id)])
          case Ok(cancelAt) =>
            var periodEnd := if cancelAt.Some? && cancelAt.value != 0 then Some(cancelAt.value * 1000) else None;
            var end := SetSubscriptionEnd(u, periodEnd);
            (Written(write(end)), [ScheduleCancellation(id), end])
        else if trial.Err? then (CancelFailed(500, FailureMessage(trial.error)), [])
        else if OpenTrial(trial) then
          var complete := CompleteTrial(u);
          var tid := trial.value.value.stripeSubscriptionId;
          if !Trial.StripeIdSet(tid) then (Written(write(complete)), [complete])
          else
            match cancelTrial(tid.value)
            case Err(m) => (CancelFailed(500, FailureMessage(m)), [CancelStripeTrial(tid.value)])
            case Ok(_) => (Written(write(complete)), [CancelStripeTrial(tid.value), complete])
        else (NothingToCancel, [])
  }

  /** A subscription the cancel route schedules in Stripe: read, present,
      and carrying a Stripe id. */
  predicate PaidCancellable(sub: Result<Option<UserSubscription>, string>) {
    sub.Ok? && sub.value.Some? && Trial.StripeIdSet(sub.value.value.stripeSubscriptionId)
  }

  /** A trial the cancel route ends: read, present and not completed. */
  predicate OpenTrial(trial: Result<Option<UserTrial>, string>) {
    trial.Ok? && trial.value.Some? && !trial.value.value.hasCompletedTrial
  }

  /** The reply after the route's last table write. */
  function Written(w: Result<(), string>): (r: CancelReply)
    ensures r == CancelOk <==> w.Ok?
    ensures w.Err? ==> r == CancelFailed(500, FailureMessage(w.error))
  {
    match w
    case Ok(_) => CancelOk
    case Err(m) => CancelFailed(500, FailureMessage(m))
  }

  /** Outside free mode, a cancel that succeeds has written either the
      subscription's end or the trial's completion, and one that fails has
      written neither. */
  lemma CancelOutcomes(requireAuth: bool, user: Option<JwtPayload>,
                       sub: Result<Option<UserSubscription>, string>, trial: Result<Option<UserTrial>, string>,
                       scheduleCancel: string -> Result<Option<int>, string>,
                       cancelTrial: string -> Result<(), string>,
                       write: CancelAction -> Result<(), string>)
    ensures var r := Cancel(false, requireAuth, user, sub, trial, scheduleCancel, cancelTrial, write);
      r.0 == CancelOk ==> exists a :: a in r.1 && (a.SetSubscriptionEnd? || a.CompleteTrial?) && write(a).Ok?
    ensures var r := Cancel(false, requireAuth, user, sub, trial, scheduleCancel, cancelTrial, write);
      r.0.CancelFailed? ==> forall a :: a in r.1 && (a.SetSubscriptionEnd? || a.CompleteTrial?) ==> write(a).Err?
  {
    var r := Cancel(false, requireAuth, user, sub, trial, scheduleCancel, cancelTrial, write);
    if r.0 == CancelOk {
      assert r.1[|r.1| - 1] in r.1;
    }
  }

  /** When Stripe accepts the scheduled cancellation but recording its end
      date fails, the route answers 500 although the Stripe subscription is
      already set to end. */
  lemma ScheduledButNotRecorded(requireAuth: bool, user: Option<JwtPayload>,
                                sub: Result<Option<UserSubscription>, string>, trial: Result<Option<UserTrial>, string>,
                                scheduleCancel: string -> Result<Option<int>, string>,
                                cancelTrial: string -> Result<(), string>,
                                write: CancelAction -> Result<(), string>)
    requires Trial.RouteUserId(requireAuth, user).Some? && PaidCancellable(sub)
    requires scheduleCancel(sub.value.value.stripeSubscriptionId.value).Ok?
    requires forall a: CancelAction :: a.SetSubscriptionEnd? ==> write(a).Err?
    ensures var r := Cancel(false, requireAuth, user, sub, trial, scheduleCancel, cancelTrial, write);
      r.0.CancelFailed? && r.0.code == 500 && ScheduleCancellation(sub.value.value.stripeSubscriptionId.value) in r.1
  {
    var r := Cancel(false, requireAuth, user, sub, trial, scheduleCancel, cancelTrial, write);
    assert r.1[0] == ScheduleCancellation(sub.value.value.stripeSubscriptionId.value);
  }

  /** A subscription row without a Stripe id still shows the user as a
      paying customer, but cancelling finds nothing to cancel when the
      trial is completed. */
  lemma SubscriptionWithoutStripeIdCannotBeCancelled(user: JwtPayload, s: UserSubscription, t: UserTrial, now: int,
                                                      scheduleCancel: string -> Result<Option<int>, string>,
                                                      cancelTrial: string -> Result<(), string>,
                                                      write: CancelAction -> Result<(), string>)
    requires user.sub != "" && !Trial.StripeIdSet(s.stripeSubscriptionId) && t.hasCompletedTrial
    ensures BillingStatus(false, true, Some(user), Ok(Some(s)), Ok(Some(t)), now).proStatus == ActivePro
    ensures Cancel(false, true, Some(user), Ok(Some(s)), Ok(Some(t)), scheduleCancel, cancelTrial, write).0 == NothingToCancel
  {
  }
}
