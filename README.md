# Checkout, domain suggestions and order back end — a Dafny model

This project models the order flow of a website-ordering application:

- **Payment page** (`Payment.tsx`).
  - Pricing memos: package classification, the months → discount table, the duration price, the add-on multiplier, the base total and the totals after the promo.
  - The readiness gate `canComplete`.
  - Its handlers: the promo revalidation effect, "apply promo", the confirm dialog's open-change guard, and the audit → lead → invoice → redirect payment sequence, with `paying` raised while it is in flight.
- **Domain-suggestion hook** (`useDomainSuggestions.ts`): keyword normalisation, candidate building, the per-candidate `try`/`catch`, the merge of the results, and the hook's state (loading flag, error, items, debounce timer).
- **`whoapi-check` edge function**: domain normalisation, the stored-key lookup, the `Authorization` header, the upstream error message, the availability classifier and the order of the handler's early returns.
- **`order-payment-provider` edge function**: whether the Xendit secret is a plain key, and the provider decision.
- **Lead-detail dialog**:
  - the full name;
  - the add-on lines, built by two loops;
  - which detail rows are shown.

Modules:

| file | content |
|---|---|
| `Text.dfy` | `Option`, and the ASCII string operations the code uses: `trim`, `toLowerCase`, the `/\s+/` replacements, `includes`, `split(c)[0]`, prefix removal, `join` and decimal printing |
| `Json.dfy` | a JSON value, with `?.`, `??`, `\|\|`, truthiness and `String(v)` |
| `Pricing.dfy` | the pricing memos |
| `Checkout.dfy` | the gate, and the page's handlers as a class `CheckoutSession` |
| `DomainSuggestions.dfy` | the hook, its pure parts, and a class `SuggestionsHook` for its state |
| `Backend.dfy` | what both edge functions share: the environment, a secret-row lookup, column text |
| `WhoapiCheck.dfy`, `PaymentProvider.dfy` | the two edge functions, each as a pure function of its inputs |
| `LeadDetail.dfy` | the dialog's non-visual rules |

## Imported code, I/O and numbers

- **Imported functions.** `validatePromoCode` and `computeDiscountedTotal` are imported and their code is not part of this model. They are function-typed parameters.
- **External effects.** The outcome of the audit insert, of `saveOrderLead` and of `createXenditInvoice` is a parameter. Each effect is recorded in an explicit effect trace.
- **Edge functions.** Each reads the environment, one `integration_secrets` row, the request body and the upstream reply. All of these are parameters of a pure handler function.
- **Numbers.** JavaScript numbers are whole numbers, or "not finite" where `Number.isFinite` is tested.

## Behaviour worth knowing

- **`normalizeKeyword` is not idempotent** (`src/hooks/useDomainSuggestions.ts:21-30`).
  - `buildCandidates` normalises its argument a second time, and for some queries the second pass changes it.
  - `NormalizeKeywordNotIdempotent` proves this. `"http:/ /" + rest` first becomes `"http://" + rest`, and that then becomes `rest`.
  - `NonEmptyKeywordWithoutCandidates` shows that the non-empty keyword `"http://"`, from the query `"http:/ //"`, produces no candidates.
- **The promo effect keeps the applied promo while a revalidation is pending** (`src/pages/order/Payment.tsx:131-155`). It only clears the applied promo when the code is empty or there is no base total.
- **The two edge functions apply different readiness rules to their secret rows** (`supabase/functions/whoapi-check/index.ts:26-35`, `supabase/functions/order-payment-provider/index.ts:10-20`). They read different rows: provider `whoapi` and provider `xendit`, both named `api_key`. Given one and the same row value, the rules can disagree. The domain check accepts any non-blank ciphertext as its key (`WhoapiKeyIgnoresIv`). The payment-provider check also demands `iv = "plain"` (`PlainMarkerOnlyHere`).

## Model

| member | source | states |
|---|---|---|
| Pricing.NumberOr0 | src/pages/order/Payment.tsx:86-87 | `Number(x ?? 0)`: a missing value is 0, a present one is kept |
| Pricing.YearsSet | src/pages/order/Payment.tsx:98 | a subscription length is truthy: present and non-zero; used by `DurationPrice`, `BaseTotal` and `CanComplete` |
| Pricing.CanonicalPackageName | src/pages/order/Payment.tsx:22 | a null name gives the empty text |
| Pricing.CanonicalPackageNameIsCanonical | src/pages/order/Payment.tsx:22 | the lowercased, collapsed and trimmed name has no capitals, only single blanks as whitespace, and no blank at either end |
| Pricing.CollapsedLowerIsBlankSeparated | src/pages/order/Payment.tsx:22 | lowercasing then collapsing whitespace leaves no capital and no two blanks in a row |
| Pricing.TrimBlankSeparated | src/pages/order/Payment.tsx:22 | trimming a blank-separated text leaves no blank at either end |
| Pricing.SliceBlankSeparated | src/pages/order/Payment.tsx:22 | any slice of a blank-separated text is blank-separated |
| Pricing.ContainsEmptyText | src/pages/order/Payment.tsx:23 | the empty text contains only the empty marker, so a null name matches no marker |
| Pricing.IsMonthlyPackageName | src/pages/order/Payment.tsx:21-24 | a null name is not monthly |
| Pricing.IsMonthlyIgnoresCase | src/pages/order/Payment.tsx:21-24 | the classification is the same for a name and its lowercase form |
| Pricing.IsMonthlyIgnoresSpacing | src/pages/order/Payment.tsx:21-24 | the classification is the same for a name and the name with every whitespace run collapsed to one blank |
| Pricing.CollapseFixes | src/pages/order/Payment.tsx:22 | collapsing whitespace leaves a blank-separated text unchanged |
| Pricing.CanonicalFixed | src/pages/order/Payment.tsx:22 | a canonical name is its own canonical form |
| Pricing.MonthlyOfCanonical | src/pages/order/Payment.tsx:21-24 | on a canonical name, monthly iff it contains "full digital marketing", "blog + social media" or "blog+social media" |
| Pricing.MarkerInsideIsMonthly | src/pages/order/Payment.tsx:21-24 | a canonical name with any of the three markers anywhere inside it is monthly |
| Pricing.MarkerIsMonthly | src/pages/order/Payment.tsx:21-24 | each of the three markers is itself a monthly name |
| Pricing.ContainsInSuffix | src/pages/order/Payment.tsx:23 | `includes` finds a pattern that occurs in a suffix |
| Text.CollapseSpacesIdempotent | src/pages/order/Payment.tsx:22 | collapsing whitespace twice is collapsing it once |
| Text.CollapseSpacesToLower | src/pages/order/Payment.tsx:22 | lowercasing and collapsing whitespace commute |
| Pricing.ToLowerIdempotent | src/pages/order/Payment.tsx:22 | lowercasing twice is lowercasing once |
| Pricing.DiscountTable | src/pages/order/Payment.tsx:82-91 | every key of the table is a positive month count |
| Pricing.RowCounts | src/pages/order/Payment.tsx:85-88 | a row counts unless `is_active` is `false`, and only with a finite positive month count; its meaning is stated by `DiscountTableKeys` |
| Pricing.BuildDiscountTable | src/pages/order/Payment.tsx:82-91 | the loop over the rows builds exactly the table of the rows |
| Pricing.DiscountTableKeys | src/pages/order/Payment.tsx:84-89 | a month count is a key iff some row that is not explicitly inactive, with a finite positive month count, carries it |
| Pricing.DiscountTableLastWins | src/pages/order/Payment.tsx:89 | the last counting row with a month count decides its percent |
| Pricing.DiscountFor | src/pages/order/Payment.tsx:104 | the table's percent for the month count, or 0 when it is absent |
| Pricing.FirstPlanIndex | src/pages/order/Payment.tsx:108 | `find`: the first plan with the selected years, and none before it; none when no plan matches |
| Pricing.FlatPrice | src/pages/order/Payment.tsx:108-110 | the flat price exists iff the first matching plan has a finite positive `price_usd`, and then equals it |
| Pricing.DurationPrice | src/pages/order/Payment.tsx:97-111 | no years gives none. Monthly: none unless the monthly base is finite and positive, otherwise `computeDiscountedTotal` of base, years×12 months and the table's percent. Flat: the flat price |
| Pricing.AddOnsMultiplier | src/pages/order/Payment.tsx:94 | years×12 for a monthly package with years set, else 1 |
| Pricing.BaseTotal | src/pages/order/Payment.tsx:113-117 | none iff the years are unset or there is no duration price; otherwise the duration price plus the add-ons |
| Pricing.PromoDiscount | src/pages/order/Payment.tsx:121-122 | never negative; positive iff a promo with a finite positive discount is applied, and then equal to it |
| Pricing.TotalAfterPromoUsd | src/pages/order/Payment.tsx:119-124 | none iff the base is none; otherwise never negative, at least base − discount, and either 0 or exactly base − discount |
| Pricing.TotalAfterPromoIdr | src/pages/order/Payment.tsx:126-129 | none iff the total is none; never negative; a non-negative whole total is unchanged |
| Pricing.FinalTotalResolved | src/pages/order/Payment.tsx:113-129 | the charged amount is none iff the years are unset or there is no duration price |
| Pricing.FinalTotalIsClampedDifference | src/pages/order/Payment.tsx:119-129 | the charged amount is max(0, base − discount), so it is 0 whenever the discount reaches the base |
| Pricing.TotalMonotoneInDiscount | src/pages/order/Payment.tsx:119-129 | a larger discount never raises the charged amount |
| Pricing.EffectiveAddOnsTotal | src/pages/order/Payment.tsx:95 | the add-on total times the multiplier of the classified package and the selected years |
| Pricing.DurationPriceOf | src/pages/order/Payment.tsx:97-111 | the duration price for the page's inputs: the package classification, the table built from the duration rows, and the plans |
| Pricing.BaseTotalOf | src/pages/order/Payment.tsx:113-117 | the base total for the page's inputs; its meaning is stated by `BaseTotal` and `FinalTotalResolved` |
| Pricing.FinalTotal | src/pages/order/Payment.tsx:113-129 | the charged amount, the chain base → after promo → rounded; its meaning is stated by `FinalTotalResolved` and `FinalTotalIsClampedDifference` |
| Pricing.FlatPlanMissing | src/pages/order/Payment.tsx:108-110 | with plans only for one and two years, three years has no price and no total |
| Checkout.EffectivePackageId | src/pages/order/Payment.tsx:39 | `??` falls back to the default only when the selection is missing, not when it is blank |
| Checkout.CanComplete | src/pages/order/Payment.tsx:157-167 | true iff the domain, template id, effective package id, years and trimmed e-mail are all truthy and the terms are accepted |
| Checkout.BlankSelectionHidesDefault | src/pages/order/Payment.tsx:157-167 | a blank selected package id blocks checkout even when a default exists |
| Checkout.BlankEmailBlocks | src/pages/order/Payment.tsx:157-167 | an all-whitespace e-mail blocks checkout |
| Checkout.PromoFrom | src/pages/order/Payment.tsx:142-151 | a rejected validation gives no promo; an accepted one gives the promo built from its fields |
| Checkout.InvoiceEffects | src/pages/order/Payment.tsx:206-236 | the effect trace of one payment attempt; its meaning is stated by `AuditFailureSwallowed`, `InvoiceFollowsSavedLead` and `LeadFailureStops` |
| Checkout.InvoiceNotice | src/pages/order/Payment.tsx:207-232 | the toast of one payment attempt: no total, a failed lead save or a failed invoice, with the error's message |
| Checkout.ConfirmEffects | src/pages/order/Payment.tsx:347-353 | nothing unless the gate passes; its meaning is stated by `GateBlocksPersistence` |
| Checkout.PagePersistsOnlyWhenPriced | src/pages/order/Payment.tsx:157-236 | with the page's own gate and final total fed in, a lead save or invoice request happens only for a complete order whose years are set and whose duration price resolves, and always for the final total |
| Checkout.GateBlocksPersistence | src/pages/order/Payment.tsx:347-353 | a false gate or a missing total never reaches `saveOrderLead` or `createXenditInvoice` |
| Checkout.Persists | src/pages/order/Payment.tsx:215-217 | an effect that writes an order: a lead save or an invoice request; used by `GateBlocksPersistence` and `PagePersistsOnlyWhenPriced` |
| Checkout.AuditFailureSwallowed | src/pages/order/Payment.tsx:169-204 | a failing audit write changes none of the effects that follow |
| Checkout.InvoiceFollowsSavedLead | src/pages/order/Payment.tsx:214-218 | the invoice is created only as the third effect, after the audit and a successful lead save, for the same amount |
| Checkout.LeadFailureStops | src/pages/order/Payment.tsx:214-231 | a failed lead save ends the effects after the save and shows its message |
| Checkout.CheckoutSession.constructor | src/pages/order/Payment.tsx:49-52 | the text field starts as the context's promo code; not paying, dialog closed, no order id |
| Checkout.CheckoutSession.EditPromo | src/pages/order/Payment.tsx:263 | the text field takes the typed text |
| Checkout.CheckoutSession.PromoEffect | src/pages/order/Payment.tsx:131-155 | the code becomes the trimmed text. An empty code or a missing base total clears the promo and schedules nothing. Otherwise a revalidation for (code, base total) is scheduled and the promo is left as it was |
| Checkout.CheckoutSession.PromoTimerFires | src/pages/order/Payment.tsx:140-152 | the applied promo becomes the validator's verdict for the scheduled code and total |
| Checkout.CheckoutSession.ApplyPromo | src/pages/order/Payment.tsx:265-293 | the promo is cleared, with the matching toast, for an empty code, a missing base total or a rejection. It is set only from an accepted validation of (trimmed code, current base total) |
| Checkout.CheckoutSession.OpenChange | src/pages/order/Payment.tsx:337-340 | while paying the dialog's open state is unchanged; otherwise it becomes the requested one |
| Checkout.CheckoutSession.BeginInvoice | src/pages/order/Payment.tsx:206-212 | with no total a "total not available" toast and nothing else; otherwise `paying` is raised and the total is held for the steps after it |
| Checkout.CheckoutSession.SettleInvoice | src/pages/order/Payment.tsx:213-235 | while paying: the invoice trace for the held total, at most one failure toast, the order id taken only from a created invoice that has one, and `paying` and the dialog lowered in every case |
| Checkout.CheckoutSession.StartInvoice | src/pages/order/Payment.tsx:206-236 | `BeginInvoice` then, when a total existed, `SettleInvoice`: the effects are the invoice trace. Exactly one toast is shown on failure. `paying` and the dialog are reset whenever a total existed. The order id is taken only from a created invoice that has one |
| Checkout.CheckoutSession.Confirm | src/pages/order/Payment.tsx:347-354 | an incomplete order shows the prompt, closes the dialog and starts nothing. A complete one runs the payment sequence: its effects and toast, `paying` and the dialog reset whenever a total existed, and the order id taken only from a created invoice that has one |
| DomainSuggestions.NormalizeKeyword | src/hooks/useDomainSuggestions.ts:21-30 | the keyword is the cleaned query up to its first `.` |
| DomainSuggestions.CleanQuery | src/hooks/useDomainSuggestions.ts:22-27 | trimmed, lowercased, without a leading scheme or one trailing `/`, without whitespace; its meaning is stated by `CleanQueryIsClean` and `CleanedQuery` |
| DomainSuggestions.CleanQueryIsClean | src/hooks/useDomainSuggestions.ts:22-27 | the cleaned query has no whitespace and no capitals |
| DomainSuggestions.KeywordIsCleanPrefix | src/hooks/useDomainSuggestions.ts:28-29 | the keyword is a prefix of the cleaned query, has no `.`, no whitespace and no capitals, and is followed by the `.` that cut it |
| DomainSuggestions.KeywordOfDotless | src/hooks/useDomainSuggestions.ts:29 | without a `.` the keyword is the whole cleaned query |
| DomainSuggestions.BlankQueryGivesEmptyKeyword | src/hooks/useDomainSuggestions.ts:22-28 | an empty or all-whitespace query gives "" |
| DomainSuggestions.NormalizeKeywordNotIdempotent | src/hooks/useDomainSuggestions.ts:21-33 | normalising twice differs from normalising once for `"http:/ /" + rest` |
| DomainSuggestions.KeywordOfSpacedScheme | src/hooks/useDomainSuggestions.ts:22-29 | `"http:/ /" + rest` normalises to `"http://" + rest` |
| DomainSuggestions.KeywordOfScheme | src/hooks/useDomainSuggestions.ts:22-29 | `"http://" + rest` normalises to `rest` |
| DomainSuggestions.CleanSpacedScheme | src/hooks/useDomainSuggestions.ts:22-27 | the blank inside `"http:/ /…"` is removed after the scheme test, so the scheme survives |
| DomainSuggestions.CleanScheme | src/hooks/useDomainSuggestions.ts:22-27 | a leading `http://` is removed |
| DomainSuggestions.CleanedQuery | src/hooks/useDomainSuggestions.ts:22-27 | for a query already trimmed and lowercase, cleaning is scheme removal, then dropping one trailing `/`, then removing whitespace |
| DomainSuggestions.NoSchemeAfterSpace | src/hooks/useDomainSuggestions.ts:25 | a query spelled `"http:/ …"` does not start with a scheme |
| DomainSuggestions.BuildCandidates | src/hooks/useDomainSuggestions.ts:32-36 | at most 10 candidates, each the normalised keyword followed by the favourite TLD at its position |
| DomainSuggestions.CandidatesOfKeyword | src/hooks/useDomainSuggestions.ts:32-36 | an empty keyword gives none; a keyword k gives exactly [k.com, k.id, k.co.id] |
| DomainSuggestions.NonEmptyKeywordWithoutCandidates | src/hooks/useDomainSuggestions.ts:21-36 | the query `"http:/ //"` has the non-empty keyword `"http://"`, which yields no candidates |
| DomainSuggestions.KeywordOfSpacedSlashes | src/hooks/useDomainSuggestions.ts:22-29 | `"http:/ //"` normalises to `"http://"` |
| DomainSuggestions.KeywordOfBareScheme | src/hooks/useDomainSuggestions.ts:22-28 | `"http://"` normalises to "" |
| DomainSuggestions.StatusFromResult | src/hooks/useDomainSuggestions.ts:93-102 | exactly "available" and "unavailable" map to themselves; everything else is unknown |
| DomainSuggestions.CheckCandidate | src/hooks/useDomainSuggestions.ts:63-91 | a response becomes its lowercased status (`"unknown"` when missing) without error. A failure becomes an `"error"` result that always carries a message: a response body's non-empty `error`, else the error's message; a thrown error's message, else "Failed" |
| DomainSuggestions.CheckAll | src/hooks/useDomainSuggestions.ts:61-92 | one result per candidate, in candidate order, so no failure aborts the batch |
| DomainSuggestions.ToItem | src/hooks/useDomainSuggestions.ts:104-111 | price and currency are null; never premium or blocked |
| DomainSuggestions.Items | src/hooks/useDomainSuggestions.ts:104-111 | no more items than results, all with null price and currency, never premium or blocked |
| DomainSuggestions.ItemsAppend | src/hooks/useDomainSuggestions.ts:104-111 | filtering keeps order: the items of two result lists in a row are their items in a row |
| DomainSuggestions.ItemsEmptyIffAllFailed | src/hooks/useDomainSuggestions.ts:104-116 | there are no items iff every check failed |
| DomainSuggestions.FirstError | src/hooks/useDomainSuggestions.ts:114 | `find`: the first error result, none before it; none when there is no error |
| DomainSuggestions.ItemsOfOne | src/hooks/useDomainSuggestions.ts:104-111 | a single result gives one item when it succeeded and none when it failed |
| DomainSuggestions.MergeError | src/hooks/useDomainSuggestions.ts:113-120 | the hook's error after a batch; its meaning is stated by `MergeErrorIffAllFailed` |
| DomainSuggestions.MergeErrorIffAllFailed | src/hooks/useDomainSuggestions.ts:113-121 | the error is set iff every check failed. It is then the first failure's message, or "Gagal cek domain" when there is no result or the first one has no message, and the items are empty. Otherwise it is null and there are items |
| DomainSuggestions.ErrorStatusFromDataIsDropped | src/hooks/useDomainSuggestions.ts:72-120 | a successful call whose status reads "Error" counts as a failure without message, giving the default merge error |
| DomainSuggestions.SuggestionsHook.constructor | src/hooks/useDomainSuggestions.ts:39-40 | idle state and no timer |
| DomainSuggestions.SuggestionsHook.QueryChanged | src/hooks/useDomainSuggestions.ts:42-58 | the old timer is cancelled. A disabled hook changes nothing else. An empty keyword resets to idle. Otherwise a check of the keyword is scheduled and the state is kept |
| DomainSuggestions.SuggestionsHook.TimerFires | src/hooks/useDomainSuggestions.ts:52-60 | the batch is the candidates of the keyword. An empty batch resets to idle. Otherwise loading is set, the error is cleared and the items are kept |
| DomainSuggestions.SuggestionsHook.Settle | src/hooks/useDomainSuggestions.ts:104-121 | loading ends. The items are the successful results in order. The error is the merged error, set iff all failed |
| Backend.ColumnText | supabase/functions/whoapi-check/index.ts:34 | `String(v ?? "")`: a nullish value is "", a string is itself |
| Backend.SecretText | supabase/functions/order-payment-provider/index.ts:19 | the trimmed ciphertext starts and ends with a non-blank, or is empty |
| Backend.EnvMissing | supabase/functions/whoapi-check/index.ts:41-43 | `!supabaseUrl \|\| !serviceRoleKey`: either variable unset or empty; used by both handlers' 500 response |
| WhoapiCheck.HostOfIsClean | supabase/functions/whoapi-check/index.ts:20-22 | after removing the scheme and `www.` and cutting at the first `/`, there is no `/`, and no capital is introduced |
| WhoapiCheck.NormalizeDomain | supabase/functions/whoapi-check/index.ts:16-24 | trim, lowercase, drop the scheme and `www.`, cut at the first `/`, remove whitespace; its meaning is stated by `NormalizeDomainIsClean` |
| WhoapiCheck.HostOf | supabase/functions/whoapi-check/index.ts:20-22 | the host part; its meaning is stated by `HostOfIsClean` |
| WhoapiCheck.RequestedDomain | supabase/functions/whoapi-check/index.ts:59-60 | the normalised `String(body.domain ?? "")`; its meaning is stated by `AcceptedDomainIsClean` |
| WhoapiCheck.DomainRejected | supabase/functions/whoapi-check/index.ts:60-66 | empty or without a `.`; its role is stated by `CheckDomain` |
| WhoapiCheck.AvailableRaw | supabase/functions/whoapi-check/index.ts:97-98 | the first non-nullish of `available`, `availability`, `is_available` and `data.available`; used by `Respond` and `NullishFieldsAreUnknown` |
| WhoapiCheck.RegisteredRaw | supabase/functions/whoapi-check/index.ts:99 | `registered`, else `data.registered`; used by `Respond` and `NullishFieldsAreUnknown` |
| WhoapiCheck.NormalizeDomainIsClean | supabase/functions/whoapi-check/index.ts:16-24 | the normalised domain has no `/`, no whitespace and no capitals |
| WhoapiCheck.AcceptedDomainIsClean | supabase/functions/whoapi-check/index.ts:60-66 | an accepted domain contains a `.` and no `/`, whitespace or capital |
| WhoapiCheck.WhoapiKey | supabase/functions/whoapi-check/index.ts:26-35 | a failed lookup is an error. No row gives no key. A row gives its trimmed ciphertext as the key exactly when that is non-blank, and no key otherwise |
| WhoapiCheck.WhoapiKeyIgnoresIv | supabase/functions/whoapi-check/index.ts:26-35 | the key of a row is the same whatever its `iv` holds, and a non-blank ciphertext is always the key |
| WhoapiCheck.AuthToken | supabase/functions/whoapi-check/index.ts:68 | the header always starts with `token=` in some case, and is the key or `TOKEN=` + key |
| WhoapiCheck.HasTokenPrefix | supabase/functions/whoapi-check/index.ts:68 | `/^token=/i`: the first six characters spell `token=` in any case; its meaning is stated by `AuthTokenIdempotent` |
| WhoapiCheck.AuthTokenIdempotent | supabase/functions/whoapi-check/index.ts:68 | the header is unchanged iff the key already starts with `token=` in any case, so it is never prefixed twice |
| WhoapiCheck.BodyMessage | supabase/functions/whoapi-check/index.ts:84 | a truthy message needs a truthy body, and a truthy `error` wins |
| WhoapiCheck.UpstreamErrorMessage | supabase/functions/whoapi-check/index.ts:83-89 | 401 and 403 give the fixed token text. Otherwise the body's first truthy `error`/`message`/`detail` as a string, else "WhoisJSON request failed (status)" |
| WhoapiCheck.Ok | supabase/functions/whoapi-check/index.ts:82 | `resp.ok`: a status from 200 to 299 |
| WhoapiCheck.Classify | supabase/functions/whoapi-check/index.ts:101-113 | an availability value saying either way decides. Otherwise the registered value decides ("yes"/"true" unavailable, "no"/"false" available). Otherwise unknown |
| WhoapiCheck.SaysAvailable | supabase/functions/whoapi-check/index.ts:105 | the value is `true`, or a string reading "true" or "available" in any case; used by `Classify` and `AvailabilityIsConsistent` |
| WhoapiCheck.SaysUnavailable | supabase/functions/whoapi-check/index.ts:107 | the value is `false`, or a string reading "false", "unavailable" or "taken" in any case; used by `Classify` and `AvailabilityIsConsistent` |
| WhoapiCheck.AvailabilityTakesPrecedence | supabase/functions/whoapi-check/index.ts:104-108 | when the availability value decides, the registered value is irrelevant |
| WhoapiCheck.AvailabilityIsConsistent | supabase/functions/whoapi-check/index.ts:105-107 | no value says both available and unavailable |
| WhoapiCheck.NullishFieldsAreUnknown | supabase/functions/whoapi-check/index.ts:97-113 | any body in which `available`, `availability`, `is_available`, `registered`, `data.available` and `data.registered` are all `undefined` or `null` is unknown |
| WhoapiCheck.EmptyBodyIsUnknown | supabase/functions/whoapi-check/index.ts:97-113 | the empty object and a `null` body are unknown |
| WhoapiCheck.Handle | supabase/functions/whoapi-check/index.ts:37-48 | preflight iff the method is OPTIONS; a missing environment value is a 500 before anything else |
| WhoapiCheck.CheckDomain | supabase/functions/whoapi-check/index.ts:60-79 | a 400 "domain is required" iff the domain is empty or has no `.`; otherwise the response to the service's answer for (domain, header) |
| WhoapiCheck.Respond | supabase/functions/whoapi-check/index.ts:80-123 | a thrown fetch is a 500. A failed status passes through with its message and body. A good reply echoes the domain and body, with the classified status and the lowercased registered string |
| WhoapiCheck.KeyCheckedBeforeBody | supabase/functions/whoapi-check/index.ts:51-57 | after the environment check, a failed lookup is a 500 with its message and a missing key is a 412 |
| WhoapiCheck.BodyCheckedBeforeDomain | supabase/functions/whoapi-check/index.ts:59-66 | with a key, an unparsable body is a 500; a parsed one goes to the domain check with the trimmed key |
| WhoapiCheck.UpstreamOnlyForValidRequests | supabase/functions/whoapi-check/index.ts:38-79 | the upstream service cannot affect the response unless every earlier check passed |
| PaymentProvider.HasPlainSecret | supabase/functions/order-payment-provider/index.ts:10-20 | a failed lookup is an error with its message; ready iff a row exists with `iv` exactly "plain" and a non-blank ciphertext |
| PaymentProvider.Handle | supabase/functions/order-payment-provider/index.ts:22-45 | preflight "ok" iff OPTIONS; a missing environment value is a 500; a success always has `ok: true` and names Xendit iff `providers.xendit` |
| PaymentProvider.ProviderFollowsSecret | supabase/functions/order-payment-provider/index.ts:37-45 | a lookup error is a 500 with its message. No row gives no provider. Otherwise Xendit is named and flagged iff the secret is a plain non-blank key |
| PaymentProvider.EnvCheckedBeforeSecret | supabase/functions/order-payment-provider/index.ts:26-37 | with the environment missing, the secret does not matter |
| PaymentProvider.PlainMarkerOnlyHere | supabase/functions/order-payment-provider/index.ts:19 | on one and the same row value, a non-blank key without `iv = "plain"` passes the domain check's key rule but fails the payment provider's readiness rule |
| LeadDetail.Present | src/pages/dashboard/super-admin/follow-up/LeadDetailDialog.tsx:65 | `filter(Boolean)` keeps no empty value, keeps every present non-empty value, and adds none |
| LeadDetail.PresentAppend | src/pages/dashboard/super-admin/follow-up/LeadDetailDialog.tsx:65 | filtering keeps order: the values kept from two lists in a row are those kept from each, in a row |
| LeadDetail.PresentOfOne | src/pages/dashboard/super-admin/follow-up/LeadDetailDialog.tsx:65 | one value is kept exactly when it is present and non-empty |
| LeadDetail.FullName | src/pages/dashboard/super-admin/follow-up/LeadDetailDialog.tsx:65 | the full name is never empty |
| LeadDetail.FullNameCases | src/pages/dashboard/super-admin/follow-up/LeadDetailDialog.tsx:65 | both names are joined by one blank, a single present name stands alone, and "—" stands in when neither is present |
| LeadDetail.Label | src/pages/dashboard/super-admin/follow-up/LeadDetailDialog.tsx:70-75 | the configured label unless it is missing or empty, then the key |
| LeadDetail.Shown | src/pages/dashboard/super-admin/follow-up/LeadDetailDialog.tsx:68-74 | a quantity add-on is listed when its count is positive, a subscription add-on when it is on; used by `LineFromEntry` and `LinesLength` |
| LeadDetail.LineOf | src/pages/dashboard/super-admin/follow-up/LeadDetailDialog.tsx:69-75 | `label: count` for a quantity, the bare label for a subscription; its use is stated by `LineAtPosition` |
| LeadDetail.Entries | src/pages/dashboard/super-admin/follow-up/LeadDetailDialog.tsx:67-77 | the quantity entries, then the subscription entries, each only when its record is present |
| LeadDetail.BuildAddOnParts | src/pages/dashboard/super-admin/follow-up/LeadDetailDialog.tsx:67-77 | the two push loops build exactly the lines of the shown entries, counts first, in entry order |
| LeadDetail.QuantityLinesFirst | src/pages/dashboard/super-admin/follow-up/LeadDetailDialog.tsx:67-77 | every count line (`label: count`, count > 0) comes before every flag line (the label, flag set) |
| LeadDetail.LinesLength | src/pages/dashboard/super-admin/follow-up/LeadDetailDialog.tsx:67-77 | one line per shown entry |
| LeadDetail.LineAtPosition | src/pages/dashboard/super-admin/follow-up/LeadDetailDialog.tsx:67-77 | a shown entry's line sits at the number of shown entries before it |
| LeadDetail.LineFromEntry | src/pages/dashboard/super-admin/follow-up/LeadDetailDialog.tsx:67-77 | every line is the line of a shown entry, at that position |
| LeadDetail.CountShownGrows | src/pages/dashboard/super-admin/follow-up/LeadDetailDialog.tsx:67-77 | a shown entry moves every later line one position on |
| LeadDetail.Lines | src/pages/dashboard/super-admin/follow-up/LeadDetailDialog.tsx:67-77 | the lines of the shown entries in entry order; its meaning is stated by `LinesLength`, `LineAtPosition` and `LineFromEntry` |
| LeadDetail.AddOnParts | src/pages/dashboard/super-admin/follow-up/LeadDetailDialog.tsx:67-77 | the counts' lines, then the flags' lines; its meaning is stated by `QuantityLinesFirst` and `BuildAddOnParts` |
| LeadDetail.RowShown | src/pages/dashboard/super-admin/follow-up/LeadDetailDialog.tsx:43 | the `Row` rule: hidden when the value is falsy or "—"; used by `ShownRows` |
| LeadDetail.ShownRows | src/pages/dashboard/super-admin/follow-up/LeadDetailDialog.tsx:42-43 | every rendered row has a truthy value other than "—" |
| LeadDetail.ShownRowsKeeps | src/pages/dashboard/super-admin/follow-up/LeadDetailDialog.tsx:43 | a row with a truthy value other than "—" is rendered |
| LeadDetail.ShownRowsKeepsOnly | src/pages/dashboard/super-admin/follow-up/LeadDetailDialog.tsx:43 | every rendered row is one of the candidates |
| LeadDetail.Duration | src/pages/dashboard/super-admin/follow-up/LeadDetailDialog.tsx:97 | `"<years> tahun"` for a truthy length, otherwise no value |
| LeadDetail.Candidates | src/pages/dashboard/super-admin/follow-up/LeadDetailDialog.tsx:89-111 | the fourteen rows in the dialog's order, with their values before `Row` hides any; used by `DetailRows` |
| LeadDetail.DetailRows | src/pages/dashboard/super-admin/follow-up/LeadDetailDialog.tsx:63-112 | a null lead renders nothing; every rendered row passes the visibility rule |
| LeadDetail.AddOnRowShown | src/pages/dashboard/super-admin/follow-up/LeadDetailDialog.tsx:102-111 | the add-on row, with every line, is shown iff there are add-on lines |
| LeadDetail.NameRowShown | src/pages/dashboard/super-admin/follow-up/LeadDetailDialog.tsx:90 | the name row is shown iff the full name is not "—" |
| Json.Field | supabase/functions/whoapi-check/index.ts:60 | `j?.key`: only objects have fields; on an object, a key is found iff some entry has it, and the value is that of its last entry, as after `JSON.parse` |
| Json.LastValue | supabase/functions/whoapi-check/index.ts:60 | a key has a value iff some entry carries it; the value is that of an entry with the key after which no entry carries it |
| Json.FieldOf | supabase/functions/whoapi-check/index.ts:98-99 | `o?.key` where `o` may itself be `undefined` |
| Json.Coalesce | supabase/functions/whoapi-check/index.ts:98-99 | `a ?? b`: `a` unless it is `undefined` or `null`, else `b` |
| Json.LowerString | supabase/functions/whoapi-check/index.ts:101-102 | `typeof v === "string" ? v.toLowerCase() : null`: a string value lowercased, and nothing for any other value |
| Json.Truthy | supabase/functions/whoapi-check/index.ts:84 | JavaScript truthiness: `undefined`, `null`, `false`, 0 and "" are falsy; used by `Or` and `BodyMessage` |
| Json.Or | supabase/functions/whoapi-check/index.ts:84 | `a \|\| b`: `a` when truthy, else `b` |
| Json.JsString | supabase/functions/whoapi-check/index.ts:88 | `String(v)`: a string is itself |

## Left out

- **Rendering.** React rendering, JSX, toasts' translated texts, dialogs and navigation are left out. Toasts are a `Notice` trace; the redirect and the invoice are `Effect`s.
- **Gateway lookup.** The payment page's gateway lookup (`Payment.tsx:54-80`) and loading screen are left out. The edge function it calls is modelled instead.
- **Timers and concurrency.** Real debounce (`setTimeout`, 450 ms), timer cancellation and `Promise.all` concurrency are left out. A pending timer is a field holding what it will check. A batch settles as one step over its responses in candidate order.
- **Promo validation that throws.** `validatePromoCode` throwing is left out, and so is an in-flight validation that is not cancelled when the code changes. The validator is a total function.
- **Hook's outer catch.** The outer `catch` of the domain hook (`useDomainSuggestions.ts:122-124`) is left out. The fan-out cannot throw once each candidate catches its own error.
- **Audit payload.** The audit-log payload and the contents of the saved lead are left out. Only the order of the steps and their failure rules are kept.
- **Numbers.** Floating point and NaN are left out: amounts are whole numbers, `Math.round` is the identity on them, and `toFixed` is not modelled. The upstream `status` is a whole number.
- **Locale formatting.** `formatIdr`, `toLocaleString` and `formatDate` depend on the locale. They are function parameters of `LeadDetail.DetailRows`.
- **Unicode.** Unicode whitespace and case mapping are left out. Both are ASCII: `\s` is space, tab, line feed, carriage return, vertical tab and form feed.
- **`Object.entries` order.** Integer-like keys are listed first in ascending order, and this is not modelled. Add-on records are given as entry sequences in `Object.entries` order.
- **`typeof … === "object"`.** The test is modelled as "the record is present"; records are never arrays. Add-on counts are whole numbers.
- **Supabase client and CORS.** The Supabase client, `createClient`, CORS headers and `Deno.serve` are left out. The shape of the thrown lookup error is also left out: a failed lookup carries the message the handler's `catch` reports.
- **Request body.** `req.json()` failing is an `Unparsable` body carrying its message. A reply body that is not JSON is `null`, as `resp.json().catch(() => null)` gives.
- **Disabled buttons.** The `disabled={paying}` and `applyingDisabled={paying}` props are left out: they belong to the rendering. `Confirm` and `ApplyPromo` do not test `paying` themselves. The payment window itself is kept: `BeginInvoice` raises `paying`, `OpenChange` is ignored while it is raised, and `SettleInvoice` lowers it.
- Checkout.CheckoutSession.Confirm: it runs `startXenditInvoice` to its end in one call, through `StartInvoice`. A caller that needs the window between `setPaying(true)` and the `finally` uses `BeginInvoice` and `SettleInvoice` in turn.
- DomainSuggestions.CheckCandidate: a domain-check `status` that is present but not a string (a number, a boolean) is not representable, since the answer's `status` is an optional string. `String(...)` of such a value is therefore not modelled.
- PaymentProvider.Handle: the CORS headers of the preflight response are not modelled; only its `"ok"` text is.
- DomainSuggestions.Items: its own contract only bounds the items and fixes their price, currency and status range. That they are exactly the non-error results in order follows from `ItemsOfOne` and `ItemsAppend`.
