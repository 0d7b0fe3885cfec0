# Dice Roll funnel, modelled in Dafny

This project models the core of the Dice Roll promotion. It has two parts.

The backend is an Express server. It runs a per-session funnel:

- `/api/send-otp` checks the form, looks the customer up in Shopify (or creates them), picks the next "credited-*" loyalty tag and texts a 4-digit OTP.
- `/api/verify-otp` checks that OTP: it must exist, be at most ten minutes old, match, and it can be used once.
- `/api/roll-dice` draws a weighted face and builds the discount code. It finds the player by a fast SHA-256 identifier, or failing that by a legacy bcrypt scan over players with the same name, and upgrades the record it finds. It logs and back-fills the funnel events. It then merges the chosen tag into the Shopify customer and pays a wallet credit through Flits, subject to a one-hour cool-down.
- Two Shopify webhooks mark discount codes as used and mirror customer tags.

Also in the model:

- the admin funnel-stats pagination;
- the Shopify discount service;
- the three Mongoose schemas.

The client prototype is a React reducer with two modals: the phone-number step and the OTP step.

Layout:

- **Schemas.** `UserModel`, `FunnelEventModel` and `CustomerTagModel` are datatypes. Validation and defaults are explicit. Unique indexes are collection invariants.
- **Pure rules.** `Text`, `Otp`, `WeightedDice`, `CustomerTags`, `PhoneFormat`, `FunnelStats`, `ShopifyService`, `RollRules`, `PlayerLookup` and `DiscountWebhook` are functions with lemmas.
- **Handlers.** `Handlers` states each handler as a function from the state before (the collections, the log of outgoing requests and the session) to the state after and the reply. `HandlerProperties` proves what each handler promises.
- **Imperative side.** `SessionStore.Session` and `Backend.Server` are classes whose methods change fields step by step, as the routes do. Each method is proved equal to its handler function.
- **Client.** `GameContext` is the reducer. `PhoneNumberModal.Modal` and `OtpVerificationModal.Modal` are the two components' handlers, as classes. The OTP buffer is a four-slot array.

Everything external is a parameter:

- SHA-256 is a function `string -> string`, and `bcrypt.compare` is a predicate on two strings. The fresh bcrypt hash of the mobile is an input.
- `Math.random()` is a real in [0, 1), and the clock is an integer of milliseconds.
- The Shopify customer search and create, and the tag GET and PUT, are inputs giving their outcome.
- The SMS gateway's outcome is ignored, as the handler ignores it. The Flits POST is an input saying whether it succeeded.
- `makeRequest` in the discount service is a function from request to response.

Requests sent out are recorded in the server state as logs, for example `customersCreated`, `smsSent`, `tagWrites` and `credits`.

Where the code and its documentation differ, the model follows the code:

- The Shopify discount service is never constructed, so every roll takes the local fallback code.
- The shipped weight table makes every face a 6, worth 100%. The service's own table gives face 6 only 50%.
- The `discount_used` event stores the player's mobile hash in its `mobile` field.
- Repeated tags inside one webhook payload are kept.
- send-otp does not clear `verified`.

## Model

| member | source | states |
|---|---|---|
| UserModel.NewUser | backend/models/User.js:4-65 | a new player is accepted exactly when the hash, name and code are non-empty and the face lies in 1..6; the record holds the given hash, identifier, name, code, face and OTP and roll times; the defaults are no Shopify ids, not a Shopify code, not redeemed, played now; a failure lists exactly the paths whose validator fails |
| UserModel.Insert | backend/models/User.js:5-9 | saving a new player fails exactly when its mobile hash is already taken; success appends it and keeps the collection valid |
| UserModel.SaveExisting | backend/models/User.js:4-65 | saving a changed record succeeds exactly when it stays valid and its hash clashes with no other record; it replaces only that record |
| FunnelEventModel.ParseEventType | backend/models/FunnelEvent.js:6-16 | the enum validator accepts a string only as the stored name of the stage it returns |
| FunnelEventModel.ParseEventTypeExact | backend/models/FunnelEvent.js:6-16 | the five stage names are accepted, each as its own stage, and no other string is |
| FunnelEventModel.NewFunnelEvent | backend/models/FunnelEvent.js:3-20 | an event is created exactly when the mobile is non-empty and the type names a stage; the timestamp defaults to now, and `userId` to none until a back-fill |
| CustomerTagModel.NewCustomerTag | backend/models/CustomerTag.js:3-17 | a mirror is created exactly when the customer id is non-empty; the tags default to empty and the phone to none |
| CustomerTagModel.FindCustomer | backend/models/CustomerTag.js:4-8 | the lookup returns the first mirror with that customer id, or none when no mirror has it |
| Otp.GenerateOtp | backend/server.js:158-160 | the OTP is four decimal digits without a leading zero, the rendering of a number in 1000..9999 |
| Otp.ValidEmailMatchesPattern | backend/server.js:357-360 | the single-scan check accepts exactly the strings made of three non-empty runs without blanks or '@', the first two split by '@' and the last two by a '.' |
| WeightedDice.WeightedDiceResult | backend/server.js:194-224 | the loops return the table's draw, and with a non-empty table the face is one of the table's faces |
| WeightedDice.GetWeightedDiceResult | backend/server.js:194-224 | with the shipped table every draw returns 6 |
| WeightedDice.SelectIsFirstBucket | backend/server.js:207-215 | the search returns the face of the first bucket whose running weight reaches the random value, so a tie on a boundary goes to the earlier bucket |
| WeightedDice.SelectFallback | backend/server.js:217-222 | when no bucket reaches the random value the fallback face 6 is returned |
| WeightedDice.DrawHitsConfiguredFace | backend/server.js:194-224 | with a non-empty table the random value never exceeds the total, so the drawn face is always a configured one |
| WeightedDice.ShippedTableAlwaysSix | backend/server.js:196-198 | the shipped table {6: 100} draws a 6 for every random value |
| CustomerTags.ParsedTagsAreClean | backend/server.js:368-377 | every tag parsed from a tag string is non-empty, without commas and without surrounding blanks |
| CustomerTags.JoinedTagsReadBack | backend/server.js:305-311 | clean tags joined by ", " parse back to the same non-empty tags, in order |
| CustomerTags.NextTagLadder | backend/server.js:378-416 | the four flags and the guarded `if` chain pick the rung of the tag set: no credited tag gives "credited-once", once gives "credited-twice", twice gives "credited-thrice", thrice gives redeemed and no tag; a customer with empty raw tags gets nothing |
| CustomerTags.NextTagIsNew | backend/server.js:378-416 | the chosen tag is never one the customer already has; a chosen tag means not redeemed before; "redeemed before" holds exactly when the non-empty raw tags include "credited-thrice" |
| CustomerTags.Dedup | backend/server.js:310-311 | building a `Set` and listing it gives no duplicates and the same members |
| CustomerTags.DedupKeepsPrefix | backend/server.js:310 | appending new values never disturbs the order of those already collected |
| CustomerTags.MergeKeepsEveryTag | backend/server.js:305-311 | the merge keeps every existing tag, in order and ahead of the new ones; nothing is duplicated; every merged value is an existing or a new tag |
| CustomerTags.MergedTagsReadBack | backend/server.js:305-311 | adding one clean tag and reading the written string back gives the old tags, deduplicated, followed by that tag unless it was already there |
| CustomerTags.LadderAdvances | backend/server.js:378-416 | writing the chosen tag and reading the customer back at the next visit moves the customer exactly one rung up the ladder |
| CustomerTags.TagSetAfterWrite | backend/server.js:305-311 | writing a clean lower-case tag adds exactly that tag to the customer's lower-cased tag set |
| CustomerTags.ExtractCustomerId | backend/server.js:1139-1142 | the id is either kept or replaced by the non-empty run of digits after a trailing "Customer/" |
| CustomerTags.ExtractFromGlobalId | backend/server.js:1139-1142 | a global id ending in "Customer/" and digits yields exactly those digits |
| CustomerTags.NotRecorded | backend/server.js:1169 | the tags kept are exactly the payload tags not yet recorded |
| CustomerTags.AppendKeepsRecorded | backend/server.js:1166-1172 | recorded tags stay in place and in order; every payload tag ends up recorded; nothing else is added; with distinct inputs the result has no duplicates |
| CustomerTags.RepeatedPayloadTagKept | backend/server.js:1169-1171 | a tag repeated inside one payload is appended twice, because duplicates are checked only against the recorded tags |
| PhoneFormat.FormatPhone | backend/server.js:259-262 | as written, the formatted phone always starts with "+91" |
| PhoneFormat.FormatPhoneDropsLeading91 | backend/server.js:259-262 | as written, a national number not starting with 91 gets "+91" in front, while one starting with 91 loses those two digits |
| PhoneFormat.FormatPhoneCounterexample | backend/server.js:259-262 | the national number 9123456789 is sent as "+9123456789" instead of "+919123456789" |
| PhoneFormat.FormatPhoneIntended | backend/server.js:259-262 | the corrected formatting always starts with "+91" |
| PhoneFormat.FormatPhoneIntendedKeepsNumber | backend/server.js:259-262 | a national number written bare, with "91" or with "+91" always becomes "+91" followed by that number |
| PhoneFormat.FormatPhoneIntendedIdempotent | backend/server.js:259-262 | formatting twice is formatting once |
| FunnelStats.CheckQuery | backend/server.js:910-924 | the query passes exactly when both dates are non-empty and the event type is a known stage name; the stage passed on is the one named |
| FunnelStats.ParsedOr | backend/server.js:926-927 | `parseInt(s) \|\| d` is never 0 unless the default is |
| FunnelStats.PaginateBounds | backend/server.js:926-959 | the page is at least 1; the page size lies in [1, 200]; skip counts the events on the earlier pages and is never negative; there is at least one page; hasPrev holds exactly when page is not 1 |
| FunnelStats.HasNextIffEventsRemain | backend/server.js:950-958 | there is a next page exactly when the events up to and including this page do not cover the total; no events give one empty page; otherwise the page count is the least that holds them all |
| FunnelStats.CeilDivBounds | backend/server.js:950 | `Math.ceil(a / b)` is the least number of pages of size b holding a events |
| FunnelStats.ZeroLimitMeansDefault | backend/server.js:927-928 | a limit of "0" is read as the default 50, not as 1 |
| FunnelStats.PageOf | backend/server.js:944 | the listed events are the ones after the skip, at most one page of them, in order |
| ShopifyService.PercentageTableShape | backend/shopifyService.js:69-78 | the service's table covers exactly faces 1 to 6, increases with the face, and gives face 6 only 50 percent |
| ShopifyService.GeneratedCodeEncodesPercentage | backend/shopifyService.js:80-82 | the code is "DICE", the percentage and "_" followed by the timestamp, and the percentage can be parsed back from it |
| ShopifyService.PriceRuleIsSingleUsePercentage | backend/shopifyService.js:32-45 | the price rule takes off exactly "-" followed by the percentage, as a percentage value, on all line items, usable once |
| ShopifyService.CreateDiceRollDiscount | backend/shopifyService.js:68-102 | the same code titles the price rule and names the discount code; on success the result carries the returned code and ids and the store's discount URL; a failure of either request becomes the single error "Failed to create discount code in Shopify" |
| ShopifyService.CheckDiscountCode | backend/shopifyService.js:105-115 | a 404 gives no code, any other failure is passed on, and a success gives the looked-up code |
| ShopifyService.DeleteDiscount | backend/shopifyService.js:118-126 | the result is true exactly when the DELETE succeeded; it never fails |
| ShopifyService.CreateDiscountWithExpiry | backend/shopifyService.js:129-177 | the price rule ends at the given expiry and is titled with the player's name; on success the result carries the returned code, the price-rule and discount-code ids, the store's discount URL and the expiry; failures become the single Shopify error |
| SessionStore.VerifyStepOutcomes | backend/server.js:476-514 | the checks run in order: no player means "session expired"; no OTP means "expired"; an age over ten minutes means "expired" and deletes the OTP; a wrong code is refused and the OTP kept; the right code verifies, stamps the entry time and deletes the OTP |
| SessionStore.OtpIsSingleUse | backend/server.js:508-511 | once an OTP has verified a session, presenting any code again gives "OTP expired" |
| SessionStore.OtpLifetimeBoundary | backend/server.js:492-496 | a code entered exactly ten minutes after issue still verifies, and one millisecond later it has expired |
| SessionStore.VerifyStepKeepsConsistent | backend/server.js:476-514 | every outcome of verify-otp leaves the session consistent |
| SessionStore.IssueKeepsConsistent | backend/server.js:430-435 | stamping a player and an OTP keeps the session consistent |
| SessionStore.ReissueKeepsVerified | backend/server.js:430-435 | send-otp does not clear `verified`: a session verified before stays verified, now for the new player |
| SessionStore.Session.IssueOtp | backend/server.js:430-435 | the method stores the player, the OTP, both times and the eligibility, exactly as `Issue` describes, and keeps the session consistent |
| SessionStore.Session.Verify | backend/server.js:476-514 | the early-return checks leave the session and the outcome that `VerifyStep` gives |
| SessionStore.Session.Destroy | backend/server.js:690 | after the roll the session is empty |
| PlayerLookup.FirstWithIdentifier | backend/server.js:582 | the fast lookup returns the first record carrying the identifier, or none when no record does |
| PlayerLookup.SameName | backend/server.js:586 | the candidates are exactly the records with that name, in collection order |
| PlayerLookup.FirstLegacyMatch | backend/server.js:585-598 | the legacy match is the first same-name record whose hash the mobile matches, or none when no such record exists |
| PlayerLookup.LegacyScan | backend/server.js:586-598 | the loop with its `break` settles on exactly the first legacy match |
| PlayerLookup.LookupPlayer | backend/server.js:581-599 | the fast identifier wins whenever it finds a record; the legacy scan is used only on a miss; a miss means neither finds anything |
| PlayerLookup.UpsertEffect | backend/server.js:599-630 | a player found neither way gets exactly one new record, appended, never credited; a found record keeps its hash, name, market-place flag and credit history, takes the roll's code, face and times, and gains the identifier when the legacy scan found it; no other record changes |
| PlayerLookup.UpsertOfFoundSucceeds | backend/server.js:615-629 | on a valid collection, saving a found record always succeeds |
| PlayerLookup.UpsertThenFastLookup | backend/server.js:581-630 | after a save the player's record is the first with the identifier, so the next roll finds it without the legacy scan |
| RollRules.FallbackDiscount | backend/server.js:566-577 | a local discount exists exactly for faces 1 to 6; it has no Shopify ids and no URL |
| RollRules.FallbackDiscountShape | backend/server.js:139-146 | the code is "DICE", the face's table percentage, "_" and the mobile; the percentage is that of the table, 100 for face 6 |
| RollRules.BackfillEffect | backend/server.js:641 | every event of that mobile points at the player and carries the name; every other event is unchanged; the order is kept |
| RollRules.BackfillIdempotent | backend/server.js:641 | back-filling twice with the same player is back-filling once |
| RollRules.StampCredit | backend/server.js:680 | the stamp goes on the first record carrying the identifier and nowhere else; with no such record nothing changes |
| RollRules.CreditCooldownBoundary | backend/server.js:649-660 | the cool-down is strict: a credit less than one hour old blocks, one exactly an hour old does not |
| RollRules.CreditDueCases | backend/server.js:653-660 | a player never credited and not at the top of the ladder is due; a redeemed player never is |
| RollRules.StampCreditKeepsCollection | backend/server.js:680 | stamping keeps the collection valid and the identifier on the same record |
| RollRules.NoSecondCreditWithinHour | backend/server.js:643-684 | once the stamp is written, no credit is due for that identifier during the following hour |
| DiscountWebhook.FirstWithCode | backend/server.js:1101 | the lookup returns the first player holding the code, or none when no player does |
| DiscountWebhook.UseCodesCounts | backend/server.js:1096-1115 | the counter is the number of payload codes some player holds, with one event per count; each event names, by hash and code, the record it stamped; records change only in `discountUsedAt` |
| DiscountWebhook.NothingUpdatedIffNoHolder | backend/server.js:1116-1120 | the count is zero exactly when no payload code is held by any player |
| DiscountWebhook.UseCodesKeepsCollection | backend/server.js:1103-1104 | stamping usage keeps the collection valid |
| HandlerProperties.SendOtpRejects | backend/server.js:350-360 | a missing name, mobile or email gives the 400 "required" reply, and a malformed email the 400 "invalid" reply; both change nothing |
| HandlerProperties.SendOtpIssues | backend/server.js:362-452 | the OTP is sent exactly when the form is valid and the customer was found or created. Then the session holds the player and a 4-digit OTP, that OTP is texted to the mobile, and "entered" and "otp_sent" are logged. A found customer's session holds the tag and the redeemed flag the ladder picks from its tags; a created customer is posted with the as-written phone formatting, the given email and name, and its session has no tag, is not redeemed and is marked market-place |
| HandlerProperties.SendOtpCreatesShortenedPhone | backend/server.js:258-262 | a new customer with the mobile 9123456789 is created in Shopify with the phone "+9123456789", as the code formats it |
| HandlerProperties.SendOtpKeepsValid | backend/server.js:346-466 | send-otp keeps the collections valid and the session consistent |
| HandlerProperties.SendThenVerify | backend/server.js:346-527 | the texted code entered within ten minutes verifies the session, deletes the OTP and logs "otp_verified" after the other two events; a different code is refused and the session stays retryable |
| HandlerProperties.VerifyOtpKeepsValid | backend/server.js:468-527 | verify-otp keeps everything valid, logs one event exactly when it verifies, and never touches the players or the mirrors |
| HandlerProperties.RollNeedsVerification | backend/server.js:538-541 | the 401 reply is given exactly when the session is not verified; any failure leaves everything unchanged |
| HandlerProperties.RecordFacts | backend/server.js:549-641 | a recorded roll draws a 6, uses the local discount for it, saves at the lookup's position, and logs and back-fills the `dice_rolled` event, changing nothing else |
| HandlerProperties.RecordedPlayer | backend/server.js:581-641 | a recorded roll adds at most one record. The player's record becomes the first with the identifier and holds the code, the 6 and the roll time; no other record changes; exactly one event pointing at that record is logged; validity is kept |
| HandlerProperties.CreditStageEffect | backend/server.js:643-684 | the tag update is sent exactly when the session has a customer and the tags were read. The credit goes out at most once, exactly when the PUT also went through and the gate passes. The stamp is written only after a successful credit, and nothing else changes |
| HandlerProperties.RollReply | backend/server.js:691-699 | a successful reply carries the face, the local code, its percentage label and message, no URL and not a Shopify code; the session is then empty |
| HandlerProperties.RollWinsHundred | backend/server.js:549-699 | every successful roll is a 6 winning the local code "DICE100_" plus the mobile, "100%", with the 100% message |
| HandlerProperties.HundredPercentCode | backend/server.js:145 | face 6 gives the code "DICE100_" plus the mobile, the label "100%" and the 100% message |
| HandlerProperties.RollSavedUnlessHashTaken | backend/server.js:599-630 | a verified roll either succeeds or gives the 500 reply and changes nothing. On valid collections a returning player's roll always succeeds; a new player's roll succeeds exactly when the fresh hash is non-empty and not taken |
| HandlerProperties.RollRecordsPlayer | backend/server.js:581-684 | after a successful roll the player's record is found by the identifier and holds the code, the 6 and the roll time; other records are as before, apart from the Shopify stage; one `dice_rolled` event points at it |
| HandlerProperties.RollKeepsValid | backend/server.js:536-700 | roll-dice keeps the collections valid and the session consistent |
| HandlerProperties.RollCreditRule | backend/server.js:643-684 | the credit goes out at most once, exactly when there is a customer, the tags were read and updated, the player is not redeemed, and the player's own record, found either way, holds no stamp under an hour old |
| HandlerProperties.RollStampsCredit | backend/server.js:660-680 | after a roll whose credit succeeded, the player's record carries the roll's time as its last credit |
| HandlerProperties.CooldownAcrossRolls | backend/server.js:643-684 | after a credited roll, no roll for the same mobile within the hour pays a credit, in any new session |
| HandlerProperties.DiscountUsedReplies | backend/server.js:1082-1121 | a missing or empty code list gives 400, and a list with no held code gives 404; otherwise the reply counts the held codes; validity is kept |
| HandlerProperties.CustomerTagAddedMirrors | backend/server.js:1129-1180 | a missing id or tag list gives 400. Otherwise the customer has exactly one mirror holding every payload tag: the existing mirror keeps its tags as a prefix, or one mirror is added; validity is kept |
| Backend.Server.SendOtp | backend/server.js:346-466 | the route's early returns and branches produce the state, session and reply that `Handlers.SendOtp` gives, keeping everything valid |
| Backend.Server.Issue | backend/server.js:427-452 | the end of send-otp stores the OTP, texts it and logs both events, as `Handlers.Issued` describes |
| Backend.Server.VerifyOtp | backend/server.js:468-527 | the route produces what `Handlers.VerifyOtp` gives, keeping everything valid |
| Backend.Server.RollDice | backend/server.js:536-700 | the route produces what `Handlers.RollDice` gives, keeping everything valid |
| Backend.Server.SaveRoll | backend/server.js:549-641 | the draw, the lookup loop and the save produce what `Handlers.Record` gives, or change nothing when the save fails |
| Backend.Server.CreditStep | backend/server.js:643-684 | the tag write, the gate, the credit and the stamp produce what `Handlers.CreditStage` gives |
| Backend.Server.DiscountUsedWebhook | backend/server.js:1082-1121 | the loop with its `continue`s and its counter produces what `Handlers.DiscountUsedWebhook` gives, keeping everything valid |
| Backend.Server.CustomerTagWebhook | backend/server.js:1129-1180 | the update or insertion of the mirror produces what `Handlers.CustomerTagWebhook` gives, keeping everything valid |
| GameContext.InitialStateShape | project/src/context/GameContext.tsx:26-34 | the game starts on the landing step, unverified, with nothing entered, no coupon won and none collected |
| GameContext.SettersChangeOnlyTheirField | project/src/context/GameContext.tsx:36-58 | each field changes only through its own setter, a reset, or (for the two coupon fields) ADD_COUPON; each setter writes its payload into its field |
| GameContext.AddCouponPrepends | project/src/context/GameContext.tsx:48-53 | ADD_COUPON makes the coupon the won one and puts it in front of the collection; the old list becomes the tail |
| GameContext.ResetKeepsCoupons | project/src/context/GameContext.tsx:54-55 | a reset returns to the initial state except for the collected coupons, which it keeps; resetting twice is resetting once |
| GameContext.UnknownIsIgnored | project/src/context/GameContext.tsx:56-57 | an unknown action leaves the state unchanged |
| GameContext.CouponsNeverRemoved | project/src/context/GameContext.tsx:36-58 | after any run of actions, the coupons collected before are the tail of the collection, behind exactly one coupon per ADD_COUPON |
| PhoneNumberModal.Digits | project/src/components/PhoneNumberModal.tsx:27 | stripping non-digits leaves only digits, and leaves an all-digit value unchanged |
| PhoneNumberModal.DigitsOfConcat | project/src/components/PhoneNumberModal.tsx:27 | the digits keep their order: the digits of two pieces are the first piece's digits followed by the second's |
| PhoneNumberModal.Sanitize | project/src/components/PhoneNumberModal.tsx:27 | the field holds the first ten digits of the input (all of them when there are fewer), in order |
| PhoneNumberModal.SanitizeIdempotent | project/src/components/PhoneNumberModal.tsx:27 | sanitising a sanitised value changes nothing |
| PhoneNumberModal.TypingOneCharacter | project/src/components/PhoneNumberModal.tsx:26-30 | typing a digit into a field under ten digits appends it; any other keystroke leaves the field as it was |
| PhoneNumberModal.SanitizedAccepted | project/src/components/PhoneNumberModal.tsx:16-27 | the field passes the ten-digit check exactly when the typed text holds at least ten digits |
| PhoneNumberModal.Modal.HandleNext | project/src/components/PhoneNumberModal.tsx:14-24 | anything but ten digits shows the error and leaves the game state alone; ten digits clear the error, store the phone and move to the OTP step |
| PhoneNumberModal.Modal.HandlePhoneChange | project/src/components/PhoneNumberModal.tsx:26-30 | the field takes the sanitised value, any error is cleared, and the game state is untouched |
| PhoneNumberModal.Modal.HandleClose | project/src/components/PhoneNumberModal.tsx:10-12 | closing moves the game to the landing step and changes nothing else |
| OtpVerificationModal.LastChar | project/src/components/OtpVerificationModal.tsx:20 | a slot takes the value's last character, or nothing for an empty value |
| OtpVerificationModal.JoinedLength | project/src/components/OtpVerificationModal.tsx:43-48 | the joined code has four characters exactly when every slot is filled |
| OtpVerificationModal.MockOtpBuffer | project/src/components/OtpVerificationModal.tsx:51 | the mock code is accepted from one buffer only: the slots 1, 2, 3, 4 in that order |
| OtpVerificationModal.Modal.constructor | project/src/components/OtpVerificationModal.tsx:8-9 | the buffer starts as four empty slots, with no error |
| OtpVerificationModal.Modal.HandleOtpChange | project/src/components/OtpVerificationModal.tsx:16-29 | a value with a non-digit changes nothing. Otherwise a copy of the buffer gets the value's last character in the indexed slot, the other slots are unchanged, four slots remain, and any error is cleared |
| OtpVerificationModal.Modal.HandleStartGame | project/src/components/OtpVerificationModal.tsx:42-60 | an incomplete code shows the "complete 4-digit OTP" error; the buffer 1, 2, 3, 4 clears the error, marks the game verified and moves to the dice; any other complete code shows "Invalid OTP. Please try again." |
| OtpVerificationModal.Modal.HandleClose | project/src/components/OtpVerificationModal.tsx:12-14 | closing moves the game back to the phone-number step |

## Left out

- Express, CORS, sessions middleware, passport, admin login, socket.io broadcasts and all logging are framework plumbing. A handler's `io.emit` has no effect on the state modelled.
- The network is modelled by its outcomes only. This covers the SMS gateway, Shopify's REST calls (customer search and create, tag GET and PUT, price rules, discount codes), the Flits POST and the customer GET of the tag webhook. No request is sent and no timing is modelled.
- bcrypt and SHA-256 are opaque parameters. Their collision behaviour and cost are not modelled.
- `Math.random` is a real in [0, 1), not a floating-point number. The draw's arithmetic is exact rational arithmetic.
- Dates are integers of milliseconds. Time zones, `setHours`, `setDate` and ISO strings are not modelled, so the price rules' `starts_at` and `ends_at` are integers.
- Roll requests running at the same time, and Mongo's atomicity, are not modelled. Each handler runs alone on the collections.
- Mongoose's `strict` mode drops the `email` path that roll-dice assigns, so the player record has no email.
- The routes `/api/update-credit-time`, `/api/mark-discount-used`, `/api/discount-status/:code`, `/api/status` and `/api/health` are left out, as they are outside the funnel core. So are the admin stats and dashboard queries, the discount clean-up job and the dice-distribution test endpoint, which only reports float percentages.
- The funnel-stats aggregation (`$lookup`, `$facet`, sorting by timestamp) is left out. Its query checks and page arithmetic are modelled by `FunnelStats`, and `FunnelStats.PageOf` models the skip and limit.
- `ShopifyService.getDiscountUsage` is left out: nothing in the core calls it.
- JavaScript's `toLowerCase` is modelled on ASCII letters only; `\s` and `trim` use the full ECMAScript white-space and line-terminator set.
- Client rendering, animations and input focus handling are left out. So are the resend button and the other components.
- OtpVerificationModal.Modal.HandleOtpChange: requires an index in 0..3, because the component only renders four inputs; an index past the end, which would lengthen a JavaScript array, is not modelled.
- PlayerLookup.Upsert: the upsert and the collections are values (sequences), and a record's `_id` is its position; Mongo object identity and references are not modelled.

## Findings

| source | as written | input that shows it | evidently intended | confidence | as-written member | corrected member |
|---|---|---|---|---|---|---|
| backend/server.js:259-262 | a phone not starting with "+91" gets "+91" after any leading "91" or "+91" is removed, so a national number that itself starts with 91 loses its first two digits | the mobile "9123456789" is sent to Shopify as "+9123456789", 11 characters | prefix "+91" to the ten-digit national number, and remove only a country code already present | not executed | PhoneFormat.FormatPhoneCounterexample | PhoneFormat.FormatPhoneIntendedKeepsNumber |
