# Billing and tenant-app backend, modelled in Dafny

This project models the backend of a SaaS starter. The backend keeps users, plans, subscriptions, tenant apps and auth accounts in a transactional document store. It mirrors a Stripe catalogue into its `plans` table.

The model covers the handlers of `convex/stripe.ts` and `convex/app.ts` and the record shapes of `convex/schema.ts`:

- `wrappers.dfy`: `Option`, `Result` and the errors the handlers throw.
- `schema.dfy`: the currency, interval, plan-key and app-status enumerations, the price matrix, and the document records.
- `store.dfy`: the store.
  - `Store.Db` is a class with one map per table, the scheduler's job log and the id counter.
  - `Tables` is its value snapshot.
  - The consistency invariant says every id is below the counter and no user has two subscriptions.
  - It also models `.unique()` (no match, one, or several, which throws) and `.first()` (the earliest-created match).
- `app.ts` in `app.dfy`: the user, plan and app handlers.
- `stripe.ts` is split in two.
  - `catalog.dfy` holds the pure part of the catalogue sync: filtering recurring prices, filling the price matrix, classifying the plan key and deciding each upsert.
  - `stripe.dfy` holds the billing handlers.

How the handlers are stated:

- Each mutation is a module-level method that takes the store `db: Db` and modifies it. Its contract says it leaves exactly the outcome that a value-level function (`...Outcome`) gives. The properties are stated on that function.
- A failing mutation returns `Err` and leaves the store as it was, because a mutation is one transaction. When the source writes before it throws (the deletion in `PREAUTH_replaceSubscription`, the account deletions in `deleteCurrentUserAccount`), the method rolls back explicitly.
- An action is a sequence of separate mutations. It is modelled by composing their outcomes, so a later failure does not undo an earlier write.
- Results of the Stripe SDK, `Math.random`, `Date.now`, the storage URL and the authenticated user id are parameters.

Two points of JavaScript semantics are modelled explicitly:

- Truthiness: an empty `customerId`, price `stripeId` or checkout URL counts as absent.
- Assigning `priceMap[interval][currency]` throws for an interval other than month or year. A currency outside the schema makes the later write fail validation.

## Model

| member | source | states |
|---|---|---|
| Schema.ParseCurrency | convex/schema.ts:5-15 | the currency validator accepts exactly the literals "usd", "eur", "vnd" and yields the currency named by the input |
| Schema.ParseInterval | convex/schema.ts:18-25 | the interval validator accepts exactly "month" and "year" |
| Schema.ParsePlanKey | convex/schema.ts:28-38 | the plan-key validator accepts exactly "free", "pro" and "business" |
| Schema.EnumNamesRoundTrip | convex/schema.ts:5-38 | every enumeration value, written as its literal, is read back as itself |
| Schema.EnumNamesDistinct | convex/schema.ts:5-38 | the literals of each enumeration are pairwise distinct |
| Schema.Prices.Set | convex/schema.ts:46-50 | setting one currency's optional price changes that entry and no other |
| Schema.PriceMatrix.Set | convex/schema.ts:75-78 | a plan's prices always have a month and a year entry; setting one (interval, currency) cell leaves every other cell unchanged |
| Store.Db.constructor | convex/schema.ts:52-109 | the store starts with empty tables and satisfies its consistency invariant |
| Store.Db.Rollback | convex/stripe.ts:191-198 | aborting a mutation restores every table to the state at its start |
| Store.Least | convex/app.ts:132-135 | the chosen id is a member of the matches and no larger than any of them |
| Store.Unique | convex/stripe.ts:146-149 | `.unique()` finds nothing exactly for no match, the one document exactly for one match, and throws exactly for several |
| Store.First | convex/app.ts:132-135 | `.first()` finds nothing only for no match and otherwise the earliest-created match |
| Store.UserLookupNeverMany | convex/stripe.ts:146-152 | under the one-subscription-per-user invariant the `userId` lookup never throws |
| App.AvatarUrl | convex/app.ts:29-34 | the avatar is the storage URL when an `imageId` is set, otherwise `image`, and never the empty string |
| App.GetCurrentUser | convex/app.ts:9-44 | nothing when unauthenticated or when the user is missing; throws when the user has several subscriptions; attaches the subscription with `planKey` = the plan's key exactly when both the subscription and its plan exist |
| App.CurrentUserNeverThrows | convex/app.ts:16-25 | in a consistent store the query never throws and returns a user exactly when the document exists |
| App.UpdateUsernameOutcome | convex/app.ts:46-57 | sets only the caller's username; no change when unauthenticated; the patch fails on a missing user |
| App.UpdateUsername | convex/app.ts:46-57 | the mutation leaves exactly that outcome and keeps the store consistent |
| App.CompleteOnboardingOutcome | convex/app.ts:59-86 | for an existing user, sets the username and schedules customer creation exactly when the user has no customer id; otherwise changes nothing |
| App.CompleteOnboarding | convex/app.ts:59-86 | the mutation leaves exactly that outcome |
| App.UpdateUserImageOutcome | convex/app.ts:99-110 | sets only the caller's `imageId`; never fails |
| App.UpdateUserImage | convex/app.ts:99-110 | the mutation leaves exactly that outcome |
| App.RemoveUserImageOutcome | convex/app.ts:112-121 | clears only the caller's `imageId` and `image`, after which the user has no avatar |
| App.RemoveUserImage | convex/app.ts:112-121 | the mutation leaves exactly that outcome |
| App.GetActivePlans | convex/app.ts:123-144 | nothing when unauthenticated; fails with "Plan not found" exactly when a free or a pro plan is missing; otherwise, for a signed-in caller, always returns the earliest free plan and the earliest pro plan |
| App.DeleteCurrentUserAccountOutcome | convex/app.ts:148-186 | removes the user, the user's subscription (scheduling its cancellation only if one existed) and the user's "resend-otp" and "github" accounts, and nothing else; fails for a missing user, for a user with several subscriptions or for a provider with several accounts, with the store unchanged |
| App.DeleteAccountFailsOnlyOnDuplicateAccounts | convex/app.ts:155-184 | in a consistent store, deleting an existing user fails exactly when a provider has several accounts for that user |
| App.DeleteCurrentUserAccount | convex/app.ts:148-186 | the mutation leaves exactly that outcome, rolling back the deletions when a provider lookup throws |
| App.RemoveAuthAccounts | convex/app.ts:173-184 | the loop over providers deletes each provider's one account, succeeds exactly when no provider has several accounts, and rolls back otherwise |
| App.GetUserApps | convex/app.ts:189-201 | exactly the caller's apps, unchanged; none when unauthenticated |
| App.ApiKey | convex/app.ts:215 | the generated key starts with "sk_" followed by the two random parts |
| App.CreateAppOutcome | convex/app.ts:203-230 | fails "User not found" exactly when unauthenticated; otherwise inserts one fresh app owned by the caller, active, with `createdAt` = `updatedAt` = now and an "sk_" key, and returns its id |
| App.CreateApp | convex/app.ts:203-230 | the mutation leaves exactly that outcome |
| App.AppGuard | convex/app.ts:240-248 | "User not found" when unauthenticated, "App not found or unauthorized" for a missing or foreign app, nothing exactly when the caller owns the app |
| App.PatchApp | convex/app.ts:250-255 | only the supplied name, description and status change, plus `updatedAt`; owner, key and `createdAt` stay |
| App.UpdateAppOutcome | convex/app.ts:232-257 | succeeds exactly for the owner and then writes only the patched app; otherwise fails with the guard's error and changes nothing |
| App.UpdateApp | convex/app.ts:232-257 | the mutation leaves exactly that outcome |
| App.DeleteAppOutcome | convex/app.ts:259-276 | succeeds exactly for the owner and removes only that app; otherwise changes nothing |
| App.DeleteApp | convex/app.ts:259-276 | the mutation leaves exactly that outcome |
| App.RegenerateApiKeyOutcome | convex/app.ts:278-302 | succeeds exactly for the owner, changes only `apiKey` and `updatedAt`, and returns the new "sk_" key |
| App.RegenerateApiKey | convex/app.ts:278-302 | the mutation leaves exactly that outcome |
| App.OnlyOwnerChangesApp | convex/app.ts:245-248 | for anyone but the owner, updating, deleting and re-keying an app change nothing (also lines 269-272, 288-291) |
| Stripe.UpdateCustomerIdOutcome | convex/stripe.ts:46-54 | sets only the user's `customerId`; fails on a missing user |
| Stripe.UpdateCustomerId | convex/stripe.ts:46-54 | the mutation leaves exactly that outcome |
| Stripe.GetUserById | convex/stripe.ts:56-63 | the user document exactly when it exists; after `PREAUTH_updateCustomerId` it reads back the patched document (see `Stripe.CustomerIdReadBack`) |
| Stripe.CustomerIdReadBack | convex/stripe.ts:46-63 | after the customer id of an existing user is patched, reading that user gives the patched document, and reading any other id gives what it gave before |
| Stripe.GetUserByCustomerId | convex/stripe.ts:99-130 | "something went wrong" when no user has the customer id, when that user has no subscription, or when the subscription's plan is missing; throws on several users or subscriptions; succeeds exactly when there is one user, one subscription and its plan, returning them joined with the plan key |
| Stripe.RecordOf | convex/stripe.ts:153-164 | the inserted record carries every argument, with `stripeSubscriptionId` stored as `stripeId` |
| Stripe.CreateSubscriptionOutcome | convex/stripe.ts:132-166 | succeeds exactly when the user has no subscription and then inserts one record at a fresh id; fails "Subscription already exists" when the user has one, and the lookup throws when the user has several, with the store unchanged; keeps at most one subscription per user |
| Stripe.CreateSubscription | convex/stripe.ts:132-166 | the mutation leaves exactly that outcome |
| Stripe.ReplacementOf | convex/stripe.ts:199-210 | the replacement record carries the user, the found plan, the Stripe id and every input field |
| Stripe.ReplaceSubscriptionOutcome | convex/stripe.ts:168-212 | succeeds exactly when the user has one subscription and one plan has the Stripe id; otherwise fails with the store unchanged; on success the old subscription is replaced by exactly one record on that plan, and nothing else changes |
| Stripe.ReplaceSubscription | convex/stripe.ts:168-212 | the mutation leaves exactly that outcome, undoing its deletion when the plan lookup fails |
| Stripe.DeleteSubscriptionOutcome | convex/stripe.ts:214-228 | succeeds exactly when one subscription has the Stripe id, and then removes exactly that record and leaves all others unchanged; fails when none has it, and the lookup throws when several have it, with nothing removed |
| Stripe.DeleteSubscription | convex/stripe.ts:214-228 | the mutation leaves exactly that outcome |
| Stripe.GetDefaultPlan | convex/stripe.ts:90-97 | the one free plan; nothing when there is none; throws when there are several |
| Stripe.FreeSubscriptionArgs | convex/stripe.ts:260-271 | the arguments recorded for the free subscription: the user, the free plan, the currency, interval "year" and the created subscription's fields |
| Stripe.CreateFreeStripeSubscriptionOutcome | convex/stripe.ts:233-278 | succeeds exactly when there is one free plan whose yearly cell for the currency holds a price with a non-empty `stripeId`, Stripe created a subscription, the user has no subscription yet and the user document exists; on success it records a yearly subscription on the free plan and then sets the user's `customerId`; every failure except the final missing-user patch happens before any write and leaves the store unchanged |
| Stripe.CreateFreeStripeSubscription | convex/stripe.ts:233-278 | the action leaves exactly that outcome |
| Stripe.FreeSubscriptionSurvivesFailedCustomerUpdate | convex/stripe.ts:260-276 | the two mutations are not atomic: when the user document is missing the action fails, yet the subscription stays recorded |
| Stripe.CreateStripeCustomerOutcome | convex/stripe.ts:65-88 | refused when the user is missing, already has a customer id, or no customer was created; otherwise it is the free-subscription action |
| Stripe.CreateStripeCustomer | convex/stripe.ts:65-88 | the action leaves exactly that outcome |
| Stripe.CustomerCreationNotRepeated | convex/stripe.ts:74-75 | after a successful customer creation, another one for the same user is refused and changes nothing |
| Stripe.GetCurrentUserSubscription | convex/stripe.ts:280-308 | succeeds exactly when the caller is authenticated and has one subscription (its plan may be missing); "something went wrong" when unauthenticated or without a subscription, and throws on several; returns the subscription, its plan and the requested plan |
| Stripe.CheckoutDecision | convex/stripe.ts:321-340 | an error without a user or customer id, without a subscription, or without a current plan; no checkout when the current plan is not free; otherwise the non-empty `stripeId` of the new plan's exact (interval, currency) cell, with an error when it is absent |
| Stripe.CheckoutOnlyFromFreePlan | convex/stripe.ts:330-340 | for a consistent store and a subscribed customer, the decision is exactly: no checkout on a paid plan, an error on a missing plan, and otherwise the cell's price id or an error |
| Stripe.CreateSubscriptionCheckout | convex/stripe.ts:313-356 | the decision's error or no-checkout passes through; for a chosen price the result is the session URL, with "" read as none, and an error when no session was created |
| Stripe.FindPlanByStripeId | convex/stripe.ts:402-410 | the one plan with that Stripe product id; nothing when there is none; throws on several |
| Stripe.InsertPlanOutcome | convex/stripe.ts:412-429 | inserts one plan at a fresh id; fails validation exactly when the prices carry an unknown currency |
| Stripe.InsertPlan | convex/stripe.ts:412-429 | the mutation leaves exactly that outcome |
| Stripe.UpdatePlanByStripeIdOutcome | convex/stripe.ts:431-444 | a no-op when no plan has the Stripe id; the lookup throws when several plans have it; the write fails schema validation when the prices carry a foreign currency; otherwise patches key, name, description and prices of the one plan, keeping its Stripe id; every failure leaves the store unchanged |
| Stripe.UpdatePlanByStripeId | convex/stripe.ts:431-444 | the mutation leaves exactly that outcome |
| Stripe.SyncStripeProductsToConvex | convex/stripe.ts:449-519 | the product loop leaves exactly the store and result that `Catalog.SyncAll` describes |
| Catalog.RecurringPricesOf | convex/stripe.ts:458-460 | keeps exactly the recurring prices of the product; a single price is kept exactly when it is one of them |
| Catalog.RecurringPricesOfAppend | convex/stripe.ts:458-460 | the filter keeps the listing's order: filtering a concatenation concatenates the filtered parts |
| Catalog.SkipIffNoRecurringPrice | convex/stripe.ts:458-463 | a product is skipped exactly when it has no recurring price |
| Catalog.FillOne | convex/stripe.ts:471-479 | a price fails the fill exactly when its interval is not month or year |
| Catalog.Fill | convex/stripe.ts:466-479 | the loop stops at the first throwing price, and the only error it throws is the interval TypeError; a recorded foreign currency stays recorded |
| Catalog.BuildPriceMap | convex/stripe.ts:466-479 | the in-place loop over the product's prices computes exactly `Catalog.Fill` |
| Catalog.FillFailsIffBadInterval | convex/stripe.ts:471-475 | the fill throws exactly when some price lacks a month or year interval |
| Catalog.LastIn | convex/stripe.ts:471-478 | a price landing in the cell at a position after which no price lands in it, or none when no price lands in it |
| Catalog.FillCell | convex/stripe.ts:471-478 | each cell holds the id and amount of the last matching price, with amount 0 for a null `unit_amount`; other cells keep their value |
| Catalog.FillForeign | convex/stripe.ts:473-475 | the map carries a key the schema rejects exactly when some price's currency is outside the enumeration |
| Catalog.LowerChar | convex/stripe.ts:482 | lower-casing maps each ASCII capital to its small letter and leaves every other character |
| Catalog.ToLower | convex/stripe.ts:482 | lower-casing keeps the length and lowers each character |
| Catalog.ToLowerIdempotent | convex/stripe.ts:482 | lower-casing twice equals lower-casing once |
| Catalog.FirstCharMissing | convex/stripe.ts:482-484 | a name without the first letter of a word does not include the word |
| Catalog.Contains | convex/stripe.ts:482-484 | `includes` holds for the empty pattern and never for a pattern longer than the string |
| Catalog.ClassifyKey | convex/stripe.ts:482-486 | pro exactly when the lower-cased name includes "pro"; free exactly when it includes "free" but not "pro"; business otherwise |
| Catalog.ClassifyIgnoresCase | convex/stripe.ts:482-486 | the key does not depend on letter case |
| Catalog.ClassifyFree | convex/stripe.ts:482-486 | "Free" is classified free |
| Catalog.ClassifyPro | convex/stripe.ts:482-486 | "Pro Monthly" is classified pro |
| Catalog.ClassifyBusiness | convex/stripe.ts:482-486 | "Business" is classified business |
| Catalog.ClassifyProWins | convex/stripe.ts:482-486 | "Free PRO" is classified pro: "pro" wins over "free" |
| Catalog.DescriptionOrEmpty | convex/stripe.ts:501 | a present description is written as it is, and a non-empty written description was present (also line 511) |
| Catalog.UpsertPlan | convex/stripe.ts:489-514 | a filled product aborts exactly when several plans carry its id or a price has a foreign currency; it is inserted exactly when no plan carries its id, and otherwise patches the one plan that does, always with the product's id |
| Catalog.UpsertOf | convex/stripe.ts:456-514 | an iteration is skipped exactly when the product has no recurring price; it aborts only on a bad interval, a duplicated plan or a foreign currency; a written plan is the product's, with the filled price matrix |
| Catalog.ApplyUpsert | convex/stripe.ts:494-514 | an iteration writes only the plans table and the counter: a patch rewrites the one plan at its id, an insert adds it at the next id, and a skip or abort writes nothing |
| Catalog.UpsertPlanLeavesOne | convex/stripe.ts:489-514 | the written plan is the product's, and exactly one plan carries the product id afterwards |
| Catalog.UpsertLeavesOnePlan | convex/stripe.ts:489-514 | after a written iteration exactly one plan carries the product id, holding its key, name, description (default "") and prices; an existing plan is patched, and one is inserted only when none existed |
| Catalog.UpsertKeepsConsistent | convex/stripe.ts:489-514 | every iteration keeps the store consistent |
| Catalog.UpsertKeepsDistinct | convex/stripe.ts:489-514 | every iteration keeps the plans' Stripe ids distinct |
| Catalog.UpsertIdempotent | convex/stripe.ts:489-514 | a second iteration for the same product and catalogue writes nothing and aborts exactly when the first did |
| Catalog.UpsertSeesOnlyItsPlans | convex/stripe.ts:489-492 | an iteration depends on the plans table only through the plans carrying its product id |
| Catalog.WriteElsewhereKeepsIndex | convex/stripe.ts:489-514 | writing another product's plan leaves this product's index entry unchanged |
| Catalog.StepKeepsSynced | convex/stripe.ts:489-514 | an iteration for one product leaves every other product in sync |
| Catalog.RunKeepsSynced | convex/stripe.ts:456-515 | a run over other products keeps a product in sync |
| Catalog.RunSyncsAll | convex/stripe.ts:456-515 | after a completed run every product of the catalogue is in sync |
| Catalog.SyncedRunChangesNothing | convex/stripe.ts:456-515 | a run over products that are all in sync writes nothing and completes |
| Catalog.SyncAll | convex/stripe.ts:456-515 | the loop writes only the plans table and the id counter, never lowers the counter, and fails only on a bad interval, a duplicated plan or a foreign currency |
| Catalog.SyncAllKeepsDistinct | convex/stripe.ts:456-515 | the sync writes only plans and the id counter, keeps the store consistent and never creates two plans for one product |
| Catalog.SyncIdempotent | convex/stripe.ts:456-515 | syncing again with the same catalogue after a completed sync changes nothing |

## Left out

- The Stripe SDK calls are not modelled: `customers.create`, `subscriptions.create`, `checkout.sessions.create`, and `products.list` and `prices.list`. Their results are parameters. A failed customer creation, a missing subscription and a missing session are `None`.
- `createCustomerPortal`, `cancelCurrentUserSubscriptions` and `generateUploadUrl` only wrap platform or Stripe calls. The cancellation is recorded as a job appended to the scheduler log. Scheduler timing is not modelled.
- `Math.random().toString(36).substring(2, 15)` and `Date.now()` are parameters. Only the "sk_" prefix and where the values are stored are modelled.
- `storage.getUrl` is a parameter.
- Auth provider wiring (convex/auth.ts) is not modelled: the authenticated user id is a parameter. `authAccounts` documents keep only `userId` and `provider`.
- `console.log` and `console.error` are not modelled.
- The frontend pages are not modelled, nor is the type declaration `convex-helpers.d.ts`.
- No currency fallback (primary, then USD, EUR, VND) exists in the handlers: the checkout and free-plan lookups read the exact cell, and the model does the same.
- The two queries of `createSubscriptionCheckout` are read off one snapshot. Between them the real action could see a concurrent change.
- Interleaving of concurrent actions is not modelled: each action's mutations run in sequence, with no other handler between them. `syncStripeProductsToConvex` runs its per-product query and mutation as separate transactions, so two syncs at once could both miss a plan and both insert one; `Catalog.SyncAllKeepsDistinct` and `Catalog.SyncIdempotent` hold for a sync that runs alone. Likewise `completeOnboarding` called twice queues two `createStripeCustomer` jobs, and `Stripe.CustomerCreationNotRepeated` holds when those jobs run one after the other, not when both pass the `customerId` test at once.
- `Promise.all` and `asyncMap` run their lookups concurrently. The model runs them in order. Because the lookups only read, and the account deletions touch distinct documents, the final store is the same.
- Document ids are natural numbers drawn from a counter in creation order. `.first()` picks the least. `v.number()` fields are integers; floating point is not modelled.
- `toLowerCase` is modelled on ASCII letters only.
- `getUserApps` returns a map of the caller's apps. The order of the collected list is not modelled.
- Schema validation is modelled only where a handler can violate it: the catalogue sync writing a price map with a currency key outside the schema fails. `v.any()` arguments are otherwise assumed to be well-formed plans.
- `updateUserImage` and `removeUserImage` do not await their patch. The model applies the patch when the user exists, and surfaces no error when it is missing.
- Stripe.CheckoutDecision: the avatar URL argument of the embedded user lookup is fixed to none, because the decision does not read it.
- Catalog.SyncIdempotent: it assumes the products in one listing have distinct ids, as product ids are unique.
