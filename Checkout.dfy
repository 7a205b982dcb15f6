/** The checkout payment page's gate and handlers: whether payment may start,
    the promo revalidation effect and the "apply promo" button, and the payment
    sequence audit → lead → invoice → redirect. The external calls
    (`validatePromoCode`, the audit insert, `saveOrderLead`,
    `createXenditInvoice`) are parameters: a function for the validator, an
    outcome for each of the others. */
module Checkout {
  import opened Text
  import opened Pricing

  // ---------------------------------------------------------------------
  // Readiness gate

  /** The order-context fields the gate reads; `None` is `null`/missing. */
  datatype OrderState = OrderState(
    domain: Option<string>,
    selectedTemplateId: Option<string>,
    selectedPackageId: Option<string>,
    subscriptionYears: Option<int>,
    email: Option<string>,
    acceptedTerms: bool)

  /** A truthy string: present and non-empty. */
  predicate Present(s: Option<string>) {
    s.Some? && s.value != ""
  }

  /** `state.selectedPackageId ?? pricing.defaultPackageId ?? null`: only a
      missing selection falls back to the default. */
  function EffectivePackageId(selected: Option<string>, defaultId: Option<string>): (id: Option<string>)
    ensures selected.Some? ==> id == selected
    ensures selected.None? ==> id == defaultId
  {
    if selected.Some? then selected else defaultId
  }

  /** `canComplete`: every required field is filled in at once. */
  function CanComplete(st: OrderState, defaultPackageId: Option<string>): (ok: bool)
    ensures ok ==> Present(st.domain) && Present(st.selectedTemplateId)
    ensures ok ==> Present(EffectivePackageId(st.selectedPackageId, defaultPackageId))
    ensures ok ==> YearsSet(st.subscriptionYears) && st.acceptedTerms
    ensures ok ==> Trim(st.email.GetOr("")) != ""
    ensures (Present(st.domain) && Present(st.selectedTemplateId)
             && Present(EffectivePackageId(st.selectedPackageId, defaultPackageId))
             && YearsSet(st.subscriptionYears) && Trim(st.email.GetOr("")) != ""
             && st.acceptedTerms) ==> ok
  {
    var email := Trim(st.email.GetOr(""));
    var packageId := EffectivePackageId(st.selectedPackageId, defaultPackageId);
    st.domain.Some? && st.domain.value != ""
      && st.selectedTemplateId.Some? && st.selectedTemplateId.value != ""
      && packageId.Some? && packageId.value != ""
      && YearsSet(st.subscriptionYears)
      && email != ""
      && st.acceptedTerms
  }

  /** A blank selected package id is not replaced by the default, so it blocks
      checkout even when a default package exists. */
  lemma BlankSelectionHidesDefault(st: OrderState, defaultPackageId: Option<string>)
    requires st.selectedPackageId == Some("")
    ensures !CanComplete(st, defaultPackageId)
  {
  }

  /** An e-mail made only of whitespace blocks checkout. */
  lemma BlankEmailBlocks(st: OrderState, defaultPackageId: Option<string>)
    requires st.email.Some? && forall i :: 0 <= i < |st.email.value| ==> IsSpace(st.email.value[i])
    ensures !CanComplete(st, defaultPackageId)
  {
  }

  // ---------------------------------------------------------------------
  // Promo validation

  /** What `validatePromoCode(code, baseTotal)` returns. */
  datatype PromoValidation =
    | PromoRejected
    | PromoAccepted(id: string, code: string, promoName: string, discountUsd: Num)

  /** The applied promo a validation result leads to. */
  function PromoFrom(v: PromoValidation): (p: Option<AppliedPromo>)
    ensures p.None? <==> v.PromoRejected?
    ensures p.Some? ==> p.value == AppliedPromo(v.id, v.code, v.promoName, v.discountUsd)
  {
    match v
    case PromoRejected => None
    case PromoAccepted(id, code, name, d) => Some(AppliedPromo(id, code, name, d))
  }

  // ---------------------------------------------------------------------
  // Payment sequence

  /** How an awaited step ended; a failure carries the error's `message`. */
  datatype StepOutcome = Done | Failed(message: Option<string>)

  /** What `createXenditInvoice` returned or threw. */
  datatype InvoiceOutcome =
    | InvoiceCreated(orderDbId: Option<string>, invoiceUrl: string)
    | InvoiceFailed(message: Option<string>)

  /** The external effects of a payment attempt, in the order they happen. */
  datatype Effect = WriteAudit | SaveLead(amount: int) | CreateInvoice(amount: int) | Redirect(url: string)

  /** The toasts the handlers raise (their translated texts are left out). A
      `PaymentFailed` without a description shows the "try again" text. */
  datatype Notice =
    | PromoCleared
    | UnableToApplyPromo
    | InvalidPromo
    | PromoApplied(promoName: string, discountUsd: Num)
    | TotalNotAvailable
    | PaymentFailed(description: Option<string>)
    | CompleteOrderFirst

  /** The effects of `startXenditInvoice` for a given charged total. The audit
      outcome is not read: `logOrderAudit` swallows its own failure. */
  function InvoiceEffects(total: Option<int>, audit: StepOutcome, lead: StepOutcome, invoice: InvoiceOutcome): seq<Effect> {
    if total.None? then []
    else
      [WriteAudit, SaveLead(total.value)]
      + if lead.Failed? then []
        else [CreateInvoice(total.value)]
             + if invoice.InvoiceCreated? then [Redirect(invoice.invoiceUrl)] else []
  }

  /** The toast `startXenditInvoice` raises, if any. */
  function InvoiceNotice(total: Option<int>, lead: StepOutcome, invoice: InvoiceOutcome): Option<Notice> {
    if total.None? then Some(TotalNotAvailable)
    else if lead.Failed? then Some(PaymentFailed(lead.message))
    else if invoice.InvoiceFailed? then Some(PaymentFailed(invoice.message))
    else None
  }

  /** The effects of `onConfirm`: nothing unless the gate passes. */
  function ConfirmEffects(canComplete: bool, total: Option<int>, audit: StepOutcome, lead: StepOutcome, invoice: InvoiceOutcome): seq<Effect> {
    if !canComplete then [] else InvoiceEffects(total, audit, lead, invoice)
  }

  predicate Persists(e: Effect) {
    e.SaveLead? || e.CreateInvoice?
  }

  /** An incomplete order or an unpriced total never reaches the lead store or
      the payment gateway. */
  lemma GateBlocksPersistence(canComplete: bool, total: Option<int>, audit: StepOutcome, lead: StepOutcome, invoice: InvoiceOutcome)
    requires !canComplete || total.None?
    ensures forall i :: 0 <= i < |ConfirmEffects(canComplete, total, audit, lead, invoice)| ==>
      !Persists(ConfirmEffects(canComplete, total, audit, lead, invoice)[i])
  {
  }

  /** On the page, `onConfirm` is given `CanComplete` of the order state and
      the `FinalTotal` of the pricing inputs. A lead is saved or an invoice
      requested only for a complete order whose years are set and whose
      duration price resolves, and always for exactly the final total. */
  lemma PagePersistsOnlyWhenPriced(st: OrderState, defaultPackageId: Option<string>,
                                   p: PricingInputs, computeDiscountedTotal: (int, int, int) -> int,
                                   audit: StepOutcome, lead: StepOutcome, invoice: InvoiceOutcome, i: int)
    requires var es := ConfirmEffects(CanComplete(st, defaultPackageId), FinalTotal(p, computeDiscountedTotal), audit, lead, invoice);
             0 <= i < |es| && Persists(es[i])
    ensures CanComplete(st, defaultPackageId)
    ensures YearsSet(p.years) && DurationPriceOf(p, computeDiscountedTotal).Some?
    ensures var es := ConfirmEffects(CanComplete(st, defaultPackageId), FinalTotal(p, computeDiscountedTotal), audit, lead, invoice);
            es[i].amount == FinalTotal(p, computeDiscountedTotal).value
  {
    var canComplete, total := CanComplete(st, defaultPackageId), FinalTotal(p, computeDiscountedTotal);
    if !canComplete || total.None? {
      GateBlocksPersistence(canComplete, total, audit, lead, invoice);
    }
    FinalTotalResolved(p, computeDiscountedTotal);
  }

  /** A failing audit write changes nothing that follows it: `logOrderAudit`
      catches every error of its own, so `InvoiceEffects` deliberately never
      reads the audit outcome. */
  lemma AuditFailureSwallowed(total: Option<int>, audit: StepOutcome, lead: StepOutcome, invoice: InvoiceOutcome)
    ensures InvoiceEffects(total, audit, lead, invoice) == InvoiceEffects(total, Done, lead, invoice)
  {
  }

  /** The invoice is requested only after the lead was saved, for the same
      amount, and the browser is sent only to the URL of a created invoice. */
  lemma InvoiceFollowsSavedLead(total: Option<int>, audit: StepOutcome, lead: StepOutcome, invoice: InvoiceOutcome, i: int)
    requires 0 <= i < |InvoiceEffects(total, audit, lead, invoice)|
    requires InvoiceEffects(total, audit, lead, invoice)[i].CreateInvoice?
    ensures lead.Done? && total.Some? && i == 2
    ensures InvoiceEffects(total, audit, lead, invoice)[..2] == [WriteAudit, SaveLead(total.value)]
    ensures InvoiceEffects(total, audit, lead, invoice)[i] == CreateInvoice(total.value)
  {
  }

  /** A failed lead save stops the sequence: no invoice, no redirect. */
  lemma LeadFailureStops(total: Option<int>, audit: StepOutcome, message: Option<string>, invoice: InvoiceOutcome)
    requires total.Some?
    ensures InvoiceEffects(total, audit, Failed(message), invoice) == [WriteAudit, SaveLead(total.value)]
    ensures InvoiceNotice(total, Failed(message), invoice) == Some(PaymentFailed(message))
  {
  }

  // ---------------------------------------------------------------------
  // The page's state

  /** The payment page's state as its handlers change it. */
  class CheckoutSession {
    /** The promo text field (`promo`). */
    var promoInput: string
    /** The order context's `promoCode` and `appliedPromo`. */
    var promoCode: string
    var appliedPromo: Option<AppliedPromo>
    /** The pending revalidation timer: the code and the base total it was
        scheduled for. */
    var scheduledValidation: Option<(string, int)>
    /** `paying`, and the amount of the invoice in flight while it is
        raised (the total `startXenditInvoice` read when it began). */
    var paying: bool
    var inFlight: Option<int>
    var confirmOpen: bool
    var lastOrderId: Option<string>
    /** The external effects so far, and the toasts shown so far. */
    var effects: seq<Effect>
    var notices: seq<Notice>

    /** The page opens with the context's promo code in the text field. */
    constructor (contextPromoCode: string, contextPromo: Option<AppliedPromo>)
      ensures promoInput == contextPromoCode && promoCode == contextPromoCode
      ensures appliedPromo == contextPromo && scheduledValidation == None
      ensures !paying && inFlight == None && !confirmOpen && lastOrderId == None
      ensures effects == [] && notices == []
    {
      promoInput := contextPromoCode;
      promoCode := contextPromoCode;
      appliedPromo := contextPromo;
      scheduledValidation := None;
      paying := false;
      inFlight := None;
      confirmOpen := false;
      lastOrderId := None;
      effects := [];
      notices := [];
    }

    /** `onPromoChange`. */
    method EditPromo(text: string)
      modifies this`promoInput
      ensures promoInput == text
    {
      promoInput := text;
    }

    /** The promo effect, run whenever the text or the base total changes;
        the page passes `BaseTotalOf` of its pricing inputs as `baseTotal`.
        Its cleanup first cancels the timer of the previous run. An empty code
        or an unpriced order clears the applied promo; otherwise a
        revalidation against the current base total is scheduled and the
        applied promo is left as it was until that timer fires. */
    method PromoEffect(baseTotal: Option<int>)
      modifies this`promoCode, this`appliedPromo, this`scheduledValidation
      ensures promoCode == Trim(promoInput)
      ensures (promoCode == "" || baseTotal.None?) ==>
        appliedPromo == None && scheduledValidation == None
      ensures (promoCode != "" && baseTotal.Some?) ==>
        appliedPromo == old(appliedPromo) && scheduledValidation == Some((promoCode, baseTotal.value))
    {
      scheduledValidation := None;
      var code := Trim(promoInput);
      if code != promoCode {
        promoCode := code;
      }
      if code == "" || baseTotal.None? {
        appliedPromo := None;
        return;
      }
      scheduledValidation := Some((code, baseTotal.value));
    }

    /** The revalidation timer fires: the applied promo becomes whatever the
        validator says for the code and the total it was scheduled with. */
    method PromoTimerFires(validate: (string, int) -> PromoValidation)
      requires scheduledValidation.Some?
      modifies this`appliedPromo, this`scheduledValidation
      ensures scheduledValidation == None
      ensures appliedPromo == PromoFrom(validate(old(scheduledValidation).value.0, old(scheduledValidation).value.1))
    {
      var (code, base) := scheduledValidation.value;
      scheduledValidation := None;
      var res := validate(code, base);
      if res.PromoRejected? {
        appliedPromo := None;
        return;
      }
      appliedPromo := Some(AppliedPromo(res.id, res.code, res.promoName, res.discountUsd));
    }

    /** `onApplyPromo`, given `BaseTotalOf` of the pricing inputs as
        `baseTotal`. The promo is set only from a successful validation of
        the trimmed code against the current base total; every other path
        clears it. */
    method ApplyPromo(baseTotal: Option<int>, validate: (string, int) -> PromoValidation)
      modifies this`promoCode, this`appliedPromo, this`notices
      ensures promoCode == Trim(promoInput)
      ensures promoCode == "" ==> appliedPromo == None && notices == old(notices) + [PromoCleared]
      ensures promoCode != "" && baseTotal.None? ==>
        appliedPromo == None && notices == old(notices) + [UnableToApplyPromo]
      ensures promoCode != "" && baseTotal.Some? ==>
        appliedPromo == PromoFrom(validate(promoCode, baseTotal.value))
      ensures promoCode != "" && baseTotal.Some? && validate(promoCode, baseTotal.value).PromoRejected? ==>
        notices == old(notices) + [InvalidPromo]
      ensures promoCode != "" && baseTotal.Some? && validate(promoCode, baseTotal.value).PromoAccepted? ==>
        notices == old(notices) + [PromoApplied(validate(promoCode, baseTotal.value).promoName,
                                                validate(promoCode, baseTotal.value).discountUsd)]
    {
      var code := Trim(promoInput);
      promoCode := code;
      if code == "" {
        appliedPromo := None;
        notices := notices + [PromoCleared];
        return;
      }
      if baseTotal.None? {
        appliedPromo := None;
        notices := notices + [UnableToApplyPromo];
        return;
      }
      var res := validate(code, baseTotal.value);
      if res.PromoRejected? {
        appliedPromo := None;
        notices := notices + [InvalidPromo];
        return;
      }
      appliedPromo := Some(AppliedPromo(res.id, res.code, res.promoName, res.discountUsd));
      notices := notices + [PromoApplied(res.promoName, res.discountUsd)];
    }

    /** The dialog's `onOpenChange`: ignored while a payment is in flight,
        otherwise the dialog opens or closes as asked. */
    method OpenChange(o: bool)
      modifies this`confirmOpen
      ensures confirmOpen == if old(paying) then old(confirmOpen) else o
    {
      if paying {
        return;
      }
      confirmOpen := o;
    }

    /** The synchronous start of `startXenditInvoice`, up to its first
        `await`: with no total a toast and nothing else; otherwise `paying`
        is raised and the amount is held for the steps that follow. */
    method BeginInvoice(total: Option<int>)
      modifies this`paying, this`inFlight, this`notices
      ensures total.None? ==> notices == old(notices) + [TotalNotAvailable]
      ensures total.None? ==> paying == old(paying) && inFlight == old(inFlight)
      ensures total.Some? ==> paying && inFlight == total && notices == old(notices)
    {
      if total.None? {
        notices := notices + [TotalNotAvailable];
        return;
      }
      paying := true;
      inFlight := total;
    }

    /** The awaited part of `startXenditInvoice`, from the audit write to
        the `finally`: audit (its failure swallowed), then the lead (its
        failure stops the sequence), then the invoice, then the redirect;
        `paying` and the dialog are lowered in every case. */
    method SettleInvoice(audit: StepOutcome, lead: StepOutcome, invoice: InvoiceOutcome)
      requires paying && inFlight.Some?
      modifies this`paying, this`inFlight, this`confirmOpen, this`lastOrderId, this`effects, this`notices
      ensures effects == old(effects) + InvoiceEffects(old(inFlight), audit, lead, invoice)
      ensures var n := InvoiceNotice(old(inFlight), lead, invoice);
              notices == old(notices) + (if n.Some? then [n.value] else [])
      ensures !paying && !confirmOpen && inFlight == None
      ensures var created := lead.Done? && invoice.InvoiceCreated? && Present(invoice.orderDbId);
              lastOrderId == if created then invoice.orderDbId else old(lastOrderId)
    {
      var amount := inFlight.value;
      // The audit write catches its own errors.
      effects := effects + [WriteAudit];
      effects := effects + [SaveLead(amount)];
      if lead.Failed? {
        notices := notices + [PaymentFailed(lead.message)];
      } else {
        effects := effects + [CreateInvoice(amount)];
        match invoice {
          case InvoiceFailed(message) =>
            notices := notices + [PaymentFailed(message)];
          case InvoiceCreated(orderDbId, url) =>
            if orderDbId.Some? && orderDbId.value != "" {
              lastOrderId := orderDbId;
            }
            effects := effects + [Redirect(url)];
        }
      }
      paying := false;
      inFlight := None;
      confirmOpen := false;
    }

    /** `startXenditInvoice` run to its end: `BeginInvoice`, then, when a
        total existed, `SettleInvoice`. */
    method StartInvoice(total: Option<int>, audit: StepOutcome, lead: StepOutcome, invoice: InvoiceOutcome)
      modifies this`paying, this`inFlight, this`confirmOpen, this`lastOrderId, this`effects, this`notices
      ensures effects == old(effects) + InvoiceEffects(total, audit, lead, invoice)
      ensures var n := InvoiceNotice(total, lead, invoice);
              notices == old(notices) + (if n.Some? then [n.value] else [])
      ensures total.None? ==> paying == old(paying) && confirmOpen == old(confirmOpen)
      ensures total.None? ==> inFlight == old(inFlight)
      ensures total.Some? ==> !paying && !confirmOpen && inFlight == None
      ensures var created := total.Some? && lead.Done? && invoice.InvoiceCreated? && Present(invoice.orderDbId);
              lastOrderId == if created then invoice.orderDbId else old(lastOrderId)
    {
      BeginInvoice(total);
      if total.Some? {
        SettleInvoice(audit, lead, invoice);
      }
    }

    /** `onConfirm`: an incomplete order closes the dialog with a prompt and
        starts nothing; a complete one starts the payment sequence. The page
        passes `CanComplete` of its order state as `canComplete` and
        `FinalTotal` of its pricing inputs as `total`
        (`PagePersistsOnlyWhenPriced`). */
    method Confirm(canComplete: bool, total: Option<int>, audit: StepOutcome, lead: StepOutcome, invoice: InvoiceOutcome)
      modifies this`paying, this`inFlight, this`confirmOpen, this`lastOrderId, this`effects, this`notices
      ensures effects == old(effects) + ConfirmEffects(canComplete, total, audit, lead, invoice)
      ensures !canComplete ==> notices == old(notices) + [CompleteOrderFirst] && !confirmOpen
      ensures !canComplete ==> paying == old(paying) && lastOrderId == old(lastOrderId)
      ensures !canComplete ==> inFlight == old(inFlight)
      ensures canComplete ==> var n := InvoiceNotice(total, lead, invoice);
              notices == old(notices) + (if n.Some? then [n.value] else [])
      ensures canComplete && total.None? ==> paying == old(paying) && confirmOpen == old(confirmOpen)
      ensures canComplete && total.None? ==> inFlight == old(inFlight)
      ensures canComplete && total.Some? ==> !paying && !confirmOpen && inFlight == None
      ensures canComplete ==>
              var created := total.Some? && lead.Done? && invoice.InvoiceCreated? && Present(invoice.orderDbId);
              lastOrderId == if created then invoice.orderDbId else old(lastOrderId)
    {
      if !canComplete {
        notices := notices + [CompleteOrderFirst];
        confirmOpen := false;
        return;
      }
      StartInvoice(total, audit, lead, invoice);
    }
  }
}
