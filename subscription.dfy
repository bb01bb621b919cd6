/** The subscription page: the monthly catalog quota bar, the plan cards and
    their buttons, and the checkout and cancel actions. */
module Subscription {
  import opened Wrappers
  import opened Types
  import Platform

  datatype Subscription = Subscription(plan: SubscriptionPlan, catalogsLimit: int, catalogsUsedThisMonth: int)

  /** A JavaScript number as the percentage expression can produce it:
      `x / 0` is an infinity, `0 / 0` is NaN. */
  datatype Percent = Finite(value: real) | PosInfinity | NegInfinity | NaN

  /** A limit of -1 means no limit. */
  const UNLIMITED: int := -1

  /** `usagePercentage`: no subscription, or no limit, reads as 0; otherwise
      the share of the limit used this month, times 100. */
  function UsagePercentage(sub: Option<Subscription>): (p: Percent)
    ensures sub.None? || sub.value.catalogsLimit == -1 ==> p == Finite(0.0)
    ensures sub.Some? && sub.value.catalogsLimit != -1 && sub.value.catalogsLimit != 0 ==>
              p.Finite? && p.value * sub.value.catalogsLimit as real == sub.value.catalogsUsedThisMonth as real * 100.0
  {
    if sub.None? || sub.value.catalogsLimit == UNLIMITED then Finite(0.0)
    else
      var used, limit := sub.value.catalogsUsedThisMonth, sub.value.catalogsLimit;
      if limit == 0 then
        (if used > 0 then PosInfinity else if used < 0 then NegInfinity else NaN)
      else Finite(used as real / limit as real * 100.0)
  }

  /** `usagePercentage >= 80`; NaN compares false. */
  predicate AtLeastEighty(p: Percent)
  {
    match p
    case Finite(x) => x >= 80.0
    case PosInfinity => true
    case NegInfinity => false
    case NaN => false
  }

  /** The limit as the page writes it. */
  datatype LimitDisplay = Unlimited | Count(limit: int)

  function ShowLimit(limit: int): (d: LimitDisplay)
    ensures d == Unlimited <==> limit == -1
    ensures d.Count? ==> d.limit == limit
  {
    if limit == UNLIMITED then Unlimited else Count(limit)
  }

  /** The usage bar is drawn for a subscription with a limit. */
  predicate ShowsUsageBar(sub: Option<Subscription>)
  {
    sub.Some? && sub.value.catalogsLimit != UNLIMITED
  }

  /** The near-limit warning sits under the bar. */
  predicate ShowsNearLimitWarning(sub: Option<Subscription>)
  {
    ShowsUsageBar(sub) && AtLeastEighty(UsagePercentage(sub))
  }

  /** For a positive limit the warning appears exactly when at least 80% of
      it is used, an integer comparison; without a limit it never appears. */
  lemma NearLimitIsEightyPercent(sub: Subscription)
    ensures sub.catalogsLimit > 0 ==>
              (ShowsNearLimitWarning(Some(sub)) <==> sub.catalogsUsedThisMonth * 100 >= 80 * sub.catalogsLimit)
    ensures sub.catalogsLimit == -1 ==> !ShowsNearLimitWarning(Some(sub))
  {
    if sub.catalogsLimit > 0 {
      var used, limit := sub.catalogsUsedThisMonth as real, sub.catalogsLimit as real;
      var p := UsagePercentage(Some(sub)).value;
      assert p * limit == used * 100.0;
      assert (p - 80.0) * limit == used * 100.0 - 80.0 * limit;
      ScaleKeepsSign(p - 80.0, limit);
    }
  }

  /** Multiplying by a positive factor keeps the sign. */
  lemma ScaleKeepsSign(x: real, c: real)
    requires c > 0.0
    ensures x >= 0.0 <==> x * c >= 0.0
  {
    if x < 0.0 {
      assert x * c == -((-x) * c);
    }
  }

  /** The cancel button is offered on any plan but the trial. */
  predicate ShowsCancel(sub: Subscription)
  {
    sub.plan != Trial
  }

  /** The identifier a plan card sends to checkout. */
  function PlanId(p: SubscriptionPlan): string
  {
    match p
    case Trial => "trial"
    case Pro => "pro"
    case Enterprise => "enterprise"
  }

  /** The footer button of a plan card. */
  datatype PlanButton = CurrentPlan | Subscribe(disabled: bool, processing: bool)

  /** The trial and pro cards' button: 'Plano Atual', disabled, on the
      current plan's card; elsewhere a subscribe button, disabled while any
      checkout is pending and spinning on the card whose checkout it is. */
  function CardButton(sub: Option<Subscription>, card: SubscriptionPlan, checkoutLoading: Option<string>): (b: PlanButton)
    requires card == Trial || card == Pro
    ensures b == CurrentPlan <==> sub.Some? && sub.value.plan == card
    ensures b.Subscribe? ==> (b.disabled <==> checkoutLoading.Some?)
    ensures b.Subscribe? ==> (b.processing <==> checkoutLoading == Some(PlanId(card)))
  {
    if sub.Some? && sub.value.plan == card then CurrentPlan
    else Subscribe(checkoutLoading != None, checkoutLoading == Some(PlanId(card)))
  }

  /** What each plan may do on the page: a trial can upgrade to Pro but
      not cancel; Pro can cancel and its card is the current one; an
      Enterprise plan can cancel and sees both cards as subscribe buttons. */
  lemma PlanGating(sub: Subscription, checkoutLoading: Option<string>)
    ensures sub.plan == Trial ==>
              && !ShowsCancel(sub)
              && CardButton(Some(sub), Trial, checkoutLoading) == CurrentPlan
              && CardButton(Some(sub), Pro, checkoutLoading).Subscribe?
    ensures sub.plan == Pro ==>
              && ShowsCancel(sub)
              && CardButton(Some(sub), Pro, checkoutLoading) == CurrentPlan
              && CardButton(Some(sub), Trial, checkoutLoading).Subscribe?
    ensures sub.plan == Enterprise ==>
              && ShowsCancel(sub)
              && CardButton(Some(sub), Trial, checkoutLoading).Subscribe?
              && CardButton(Some(sub), Pro, checkoutLoading).Subscribe?
  {
  }

  datatype CheckoutRequest = CheckoutRequest(planId: string, successUrl: string, cancelUrl: string)

  class SubscriptionPage {
    const origin: string
    var checkoutLoading: Option<string>
    var checkouts: seq<CheckoutRequest>
    var cancellations: nat
    var reloads: nat
    var toasts: seq<Platform.Toast>
    var redirects: seq<string>

    constructor (origin: string)
      ensures this.origin == origin && checkoutLoading == None
      ensures checkouts == [] && cancellations == 0 && reloads == 0 && toasts == [] && redirects == []
    {
      this.origin := origin;
      checkoutLoading := None;
      checkouts := [];
      cancellations := 0;
      reloads := 0;
      toasts := [];
      redirects := [];
    }

    /** `handleSubscribe(planId)`, with `response` the checkout URL or the
        failure: the page leaves for the checkout URL and keeps the plan
        marked as pending; a failure reports it and clears the mark. */
    method HandleSubscribe(planId: string, response: Result<string, Thrown>)
      modifies this
      ensures checkouts == old(checkouts) +
                [CheckoutRequest(planId, origin + "/subscription/success", origin + "/subscription")]
      ensures response.Success? ==>
                checkoutLoading == Some(planId) && redirects == old(redirects) + [response.value] && toasts == old(toasts)
      ensures response.Failure? ==>
                && checkoutLoading == None && redirects == old(redirects)
                && toasts == old(toasts) + [Platform.ToastError("Erro ao criar checkout")]
      ensures cancellations == old(cancellations) && reloads == old(reloads)
    {
      checkoutLoading := Some(planId);
      checkouts := checkouts + [CheckoutRequest(planId, origin + "/subscription/success", origin + "/subscription")];
      if response.Success? {
        redirects := redirects + [response.value];
      } else {
        toasts := toasts + [Platform.ToastError("Erro ao criar checkout")];
        checkoutLoading := None;
      }
    }

    /** `handleCancelSubscription`: nothing without confirmation; a
        successful cancel is announced and the data reloaded. */
    method HandleCancelSubscription(confirmed: bool, succeeds: bool)
      modifies this
      ensures !confirmed ==> unchanged(this)
      ensures confirmed ==> cancellations == old(cancellations) + 1
      ensures confirmed && succeeds ==>
                reloads == old(reloads) + 1 &&
                toasts == old(toasts) + [Platform.ToastSuccess("Assinatura cancelada com sucesso")]
      ensures confirmed && !succeeds ==>
                reloads == old(reloads) && toasts == old(toasts) + [Platform.ToastError("Erro ao cancelar assinatura")]
      ensures checkoutLoading == old(checkoutLoading) && checkouts == old(checkouts) && redirects == old(redirects)
    {
      if !confirmed {
        return;
      }
      cancellations := cancellations + 1;
      if succeeds {
        toasts := toasts + [Platform.ToastSuccess("Assinatura cancelada com sucesso")];
        reloads := reloads + 1;
      } else {
        toasts := toasts + [Platform.ToastError("Erro ao cancelar assinatura")];
      }
    }
  }

  /** A trial user who starts a Pro checkout: while it is pending (and after
      the page has left for the checkout URL) the Pro button spins and is
      disabled; after a failed checkout it is enabled again. */
  method ProCheckoutGating(origin: string, limit: int, used: int, url: string)
    returns (afterSuccess: PlanButton, afterFailure: PlanButton)
    ensures afterSuccess == Subscribe(true, true)
    ensures afterFailure == Subscribe(false, false)
  {
    var sub := Some(Subscription(Trial, limit, used));
    var page := new SubscriptionPage(origin);
    page.HandleSubscribe("pro", Success(url));
    afterSuccess := CardButton(sub, Pro, page.checkoutLoading);
    var other := new SubscriptionPage(origin);
    other.HandleSubscribe("pro", Failure(OtherValue));
    afterFailure := CardButton(sub, Pro, other.checkoutLoading);
  }
}
