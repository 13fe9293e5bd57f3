# PFBOT conversation state machine

A Dafny model of the per-user conversation of the PFBOT shop bot
(`bot.py`). The bot keeps one aiogram FSM context per user: a current state
and a data dictionary. On top of that context it runs two form-like flows.

- The **delivery calculator** (`DeliveryCalc`) asks for a price in yuan, a
  weight, a carrier and an insurance answer. It then shows the total: a
  carrier surcharge, an optional 100-rouble insurance, and a 5% customs duty
  above the rouble value of 200 euros.
- The **ticket intake** (`Ticket`) asks for a photo, a name, a phone number,
  a carrier and an address. It then sends the photo with a caption to the
  administrator.

Every step handler first compares the text with "Отмена". Then it validates
its input, updates the data, and either moves on or re-prompts.

Modules:

- `Wrappers`: `Option`.
- `Text`: Python's whitespace, `str.strip()`, `str.split()` and `str.lower()`.
- `Numbers`: the decimal forms accepted by Python's `float()`.
- `Validators`: each step's input guard.
- `Pricing`: the calculator's arithmetic on exact reals. The two exchange-rate
  lookups become `Option<real>` parameters, with the code's fallbacks.
- `Conversation`: the FSM context as a `Session` class, with one method per
  handler and the session invariant `Valid()`.
- `Routing`: which handler a message reaches, following the registration order
  of the decorators.
- `Scenarios`: whole conversations of a new user, with each message passed to
  the handler it routes to.

Some behaviours of the code that are easy to miss; the model follows the
code in each:

- **Cancel at the photo step.** Every step handler clears the session on
  "Отмена" except the one for non-photo messages at the photo step
  (bot.py:199-204). That handler does not take the FSM context: it sends
  the cancel acknowledgment but leaves the state and the data as they were
  (`TicketPhotoInvalid`, `Scenarios.CancelAtPhotoStep`).
- **Worked example.** 100 yuan at 14.0 roubles, 2 kg, СДЭК and no insurance
  give (1400 + 1280) × 1.15 = 3082 roubles (`Pricing.WorkedExample`).
- **Non-text messages.** At the text-only steps a photo or a contact is not
  re-prompted. The handler calls `float`, `strip` or `lower` on `None`, which
  raises, so it ends without a reply and without a state change
  (`Outcome.Raised`). The calculator's carrier step is the exception: it
  compares `message.text` itself with the two carriers, and `None` is
  neither, so it re-prompts (bot.py:127-130, `Session.GetMethod`).
- **Menu buttons mid-flow.** "Калькулятор доставки" and "Создать тикет" only
  set the state and keep the data (bot.py:80-83, 178-181). Inside the
  calculator, "Создать тикет" is ordinary input for the current step
  (`Routing.TicketButtonRouting`).
- **Whitespace around numbers.** `float` skips less whitespace than
  `str.strip()`: the separators U+001C to U+001F count as whitespace for
  `strip()` but not for `float`. A price "\x1c5" is therefore re-prompted
  (`Numbers.SeparatorIsNotFloatSpace`).

## Model

| member | source | states |
|---|---|---|
| Text.IsSpace | bot.py:213 | the characters `str.isspace` holds true for, which `strip()` and `split()` remove: ASCII `\t\n\v\f\r`, U+001C to U+001F, space and the non-ASCII Unicode spaces |
| Text.Strip | bot.py:213 | `str.strip()` as used at bot.py:213, 243, 265 and 280: never longer than its input; its full characterisation is `Text.StripSpec` |
| Text.StripSpec | bot.py:213 | `strip()` leaves a contiguous infix: only whitespace is removed before and after it, it neither starts nor ends with whitespace, and it is empty exactly when the text is all whitespace |
| Text.StripUnpadded | bot.py:265 | a text that neither starts nor ends with whitespace is its own stripped form, so an exact carrier passes the ticket's stripped check |
| Text.StripIdempotent | bot.py:213 | stripping a stripped text changes nothing |
| Text.Words | bot.py:214 | `split()` yields non-empty words without whitespace, and none exactly when the text is all whitespace |
| Text.TwoWordsIff | bot.py:214 | `split()` has at least two words exactly when whitespace separates two non-whitespace characters |
| Text.Lower | bot.py:150 | `lower()` keeps the length and lower-cases character by character |
| Text.LowerIsYes | bot.py:150-154 | only the four letter-case spellings of "да" lower-case to "да" |
| Text.LowerIsNo | bot.py:150-156 | only the eight letter-case spellings of "нет" lower-case to "нет" |
| Numbers.ParseFloat | bot.py:92 | `float(text)` at the price and weight steps (also bot.py:108): `None` where Python raises `ValueError`; its partners are `ParseShowNat`, `NumeralsUseNumeralChars` and `SeparatorIsNotFloatSpace` |
| Numbers.FloatSpace | bot.py:92 | the whitespace `float` skips around a numeral: `str.isspace` less U+001C to U+001F |
| Numbers.FloatStrip | bot.py:92 | the whitespace `float` skips around a numeral, never more characters than the input |
| Numbers.FloatStripIsStrip | bot.py:92 | on a text without U+001C to U+001F, `float` skips exactly what `str.strip()` removes |
| Numbers.SeparatorIsNotFloatSpace | bot.py:92 | "\x1c5" strips to "5" but is not a number, since `float` does not skip U+001C |
| Numbers.ParseShowNat | bot.py:92 | every whole number written in decimal is accepted by `float` and parses to its own value |
| Numbers.NumeralsUseNumeralChars | bot.py:92 | whatever the modelled `float` accepts consists, once stripped, only of digits, points, signs and exponent letters |
| Validators.IsCarrier | bot.py:128 | the calculator's carrier check: the text is exactly "СДЭК" or exactly "Почта РФ" |
| Validators.NameAccepted | bot.py:213-214 | the ticket's name check: at least two words once stripped; characterised by `NameAcceptedIff` |
| Validators.NameAcceptedIff | bot.py:213-214 | a name is accepted exactly when, after stripping, whitespace separates two non-whitespace characters |
| Validators.AddressAccepted | bot.py:280-281 | the ticket's address check: something is left once stripped; characterised by `AddressAcceptedIff` |
| Validators.AddressAcceptedIff | bot.py:280-281 | an address is accepted exactly when it holds a non-whitespace character |
| Validators.PhoneAccepted | bot.py:243-244 | a typed phone is accepted when it has at least six characters once stripped; characterised by `PhoneAcceptedIff` |
| Validators.PhoneAcceptedIff | bot.py:243-244 | a typed phone is accepted exactly when its first and last non-whitespace characters are at least five positions apart |
| Validators.InsuranceChoice | bot.py:150-158 | the lower-cased answer read as yes ("да"), no ("нет") or neither; characterised by `InsuranceChoiceIff` |
| Validators.InsuranceChoiceIff | bot.py:150-158 | "yes" is chosen exactly for the 4 spellings of "да"; "no" exactly for the 8 spellings of "нет" |
| Validators.TicketCarrierAccepted | bot.py:265-266 | the ticket's carrier check: the stripped text is a carrier; compared with the calculator's by `TicketCarrierIsLenient` |
| Validators.TicketCarrierIsLenient | bot.py:265-266 | the ticket's carrier step accepts every text the calculator's exact check accepts, and also padded ones such as " СДЭК", which the calculator's exact comparison (bot.py:128) refuses |
| Pricing.YuanRate | bot.py:32-40 | the published yuan rate plus 1.3, or 13.8 when the lookup failed |
| Pricing.EuroRate | bot.py:42-50 | the published euro rate, or 100.0 when the lookup failed |
| Pricing.PriceRub | bot.py:94 | the price in roubles: yuan price times the yuan rate |
| Pricing.ShippingCost | bot.py:109 | 640 roubles per kilogram |
| Pricing.CarrierTotal | bot.py:133-134 | price plus shipping, times 1.15 for СДЭК and 1.10 otherwise; compared by `CdekNotCheaper` |
| Pricing.Insured | bot.py:154-155 | 100 roubles added when insured, nothing otherwise; compared by `InsuranceNotCheaper` |
| Pricing.Quote | bot.py:92-164 | the whole calculation from the four answers and the two lookups; the result of `Scenarios.CalculatorConversation`, checked by `WorkedExample` and `FallbackExample` |
| Pricing.ApplyDuty | bot.py:160-164 | duty is owed exactly when the total is strictly above euro × 200; it is then 5% of the total, which becomes total × 1.05; otherwise the total is unchanged |
| Pricing.NoDutyAtThreshold | bot.py:161-162 | a total equal to the threshold owes no duty |
| Pricing.ApplyDutyMonotone | bot.py:160-164 | with a non-negative euro rate, a larger total never ends cheaper after customs |
| Pricing.CdekNotCheaper | bot.py:133-164 | for a non-negative rouble sum and a non-negative euro rate, СДЭК is never cheaper than Почта РФ after insurance and duty |
| Pricing.InsuranceNotCheaper | bot.py:154-164 | with a non-negative euro rate, taking the insurance never lowers the final total |
| Pricing.WorkedExample | bot.py:94-162 | 100 yuan at a published 12.7, 2 kg, СДЭК, no insurance, euro at 100: 3082 roubles and no duty |
| Pricing.FallbackExample | bot.py:94-164 | with both lookups failing, 2000 yuan, 1 kg, Почта РФ and insurance give 31164, over the threshold, so 1558.2 duty and 32722.2 in total |
| Conversation.TicketCaption | bot.py:294-300 | the administrator's caption: a "Новый тикет:" header, then name, phone, carrier and address on their own labelled lines |
| Conversation.Consistent | bot.py:74-307 | the session invariant: with no state the data is empty, and each step holds the keys stored by the steps before it (at the insurance step `price_rub`, `shipping_cost` and `total`); kept by every handler (`Session.Valid`) |
| Conversation.QuoteReplies | bot.py:162-167 | the calculator's last reply shows the duty first when there is one, and always ends with the total |
| Conversation.IsCancel | bot.py:87 | the cancel check every step handler makes: the message is a text exactly equal to "Отмена" (also bot.py:103, 122, 145, 201, 208, 238, 260, 275) |
| Conversation.CancelIsNotANumber | bot.py:87-92 | "Отмена" is not a number |
| Conversation.AddressStepHasRequiredFields | bot.py:285-288 | at the address step the invariant plus the new address supply all five required fields |
| Conversation.Session.constructor | bot.py:17-18 | a user the storage has not seen has no state and no data, and satisfies the invariant |
| Conversation.Session.Clear | bot.py:88 | `state.clear()` leaves no state and empty data |
| Conversation.Session.UpdateData | bot.py:95 | `update_data` stores one key and changes nothing else |
| Conversation.Session.StartCalc | bot.py:80-83 | the calculator button moves to the price step and keeps the data |
| Conversation.Session.GetPrice | bot.py:85-99 | "Отмена" clears; a non-number re-prompts with nothing changed; a number stores price × yuan rate under `price_rub` and moves to the weight step; a non-text message raises; the invariant is kept |
| Conversation.Session.GetWeight | bot.py:101-118 | "Отмена" clears; a non-number re-prompts with nothing changed; a number stores weight × 640 under `shipping_cost` and moves to the carrier step; the invariant is kept |
| Conversation.Session.GetMethod | bot.py:120-141 | "Отмена" clears; any text but the two exact carriers re-prompts with nothing changed; a carrier stores (price_rub + shipping_cost) × 1.15 or × 1.10 under `total` and moves to the insurance step; under the invariant the `KeyError` path is never taken |
| Conversation.Session.GetInsurance | bot.py:143-168 | "Отмена" clears; an answer that is neither "да" nor "нет" (any case) re-prompts with nothing changed; otherwise the quote with the insurance and the duty is shown and the session is cleared; under the invariant the `KeyError` path is never taken |
| Conversation.Session.TicketStart | bot.py:178-181 | the ticket button moves to the photo step and keeps the data |
| Conversation.Session.TicketPhoto | bot.py:183-197 | a photo stores the file id of its largest size under `photo` and moves to the name step; a photo without sizes reports an error and changes nothing |
| Conversation.Session.TicketPhotoInvalid | bot.py:199-204 | a non-photo at the photo step only replies: the cancel acknowledgment for "Отмена", otherwise a request for a photo; the session is not touched |
| Conversation.Session.TicketName | bot.py:206-223 | "Отмена" clears; fewer than two words re-prompts with nothing changed; otherwise the stripped name is stored under `name` and the phone step begins |
| Conversation.Session.TicketPhoneContact | bot.py:225-234 | a shared contact is always accepted: its number is stored under `phone` and the carrier step begins |
| Conversation.Session.TicketPhoneText | bot.py:236-248 | "Отмена" clears; a typed number shorter than six characters once stripped re-prompts with nothing changed; otherwise the stripped number is stored and the carrier step begins |
| Conversation.Session.AskDeliveryMethod | bot.py:250-256 | the carrier prompt is sent and the carrier step begins, with the data kept |
| Conversation.Session.TicketMethod | bot.py:258-271 | "Отмена" clears; a text that is not a carrier once stripped re-prompts with nothing changed; otherwise the stripped carrier is stored under `method` and the address prompt names it |
| Conversation.Session.TicketAddress | bot.py:273-307 | "Отмена" clears; an empty stripped address re-prompts with nothing changed; otherwise the photo and caption go to the administrator and the session is cleared whether or not delivery succeeded; under the invariant the missing-data branch is never taken |
| Routing.Rank | bot.py:52-273 | the registration order of the handlers, `/start` first and the address step last |
| Routing.Accepts | bot.py:52-273 | each decorator's filters: the exact text for the menu handlers, the state (and for the photo handlers the content type) for the step handlers |
| Routing.Route | bot.py:52-273 | the handler chosen for a message always accepts it |
| Routing.RouteIsFirstMatch | bot.py:52-273 | whenever some handler accepts a message, a handler runs and it is registered no later than any accepting one; when none runs, none accepts |
| Routing.StepMessagesReachStepHandler | bot.py:85-273 | a message that is not a menu text reaches the current step's handler; with no state it reaches no handler |
| Routing.MenuButtonsWinEverywhere | bot.py:52-83 | "/start", "FAQ", "Контакты администратора" and "Калькулятор доставки" reach their own handler in every state |
| Routing.TicketButtonRouting | bot.py:85-181 | inside the calculator "Создать тикет" goes to the current step's handler; everywhere else it (re)starts the ticket |
| Routing.CancelReachesStepHandler | bot.py:85-278 | "Отмена" in any non-idle state reaches that step's handler; at the photo step this is the handler that does not clear |
| Scenarios.NumbersAreOrdinaryInput | bot.py:52-118 | a number is neither "Отмена" nor a menu text, so at the price and weight steps it is taken as input |
| Scenarios.AnswersAreOrdinaryInput | bot.py:143-158 | an insurance answer is neither "Отмена" nor a menu text |
| Scenarios.TicketCarriersAreOrdinaryInput | bot.py:258-269 | a carrier the ticket step accepts is neither "Отмена" nor a menu text |
| Scenarios.EnterAmounts | bot.py:85-118 | the price and weight steps with numbers store the rouble price and the shipping cost and reach the carrier step |
| Scenarios.QuoteSteps | bot.py:120-168 | the carrier and insurance steps with valid input show the quote computed from the stored amounts and clear the session |
| Scenarios.CalculatorConversation | bot.py:80-168 | a new user who answers the calculator's four questions validly receives the prompts, the yuan rate and then exactly `Pricing.Quote` of the answers, and ends with no state and no data |
| Scenarios.SendPhotoAndName | bot.py:183-223 | a photo and a valid name store the largest size and the stripped name and reach the phone step |
| Scenarios.OpenTicket | bot.py:178-223 | a new user who opens a ticket and sends a photo and a valid name is left at the phone step, holding exactly those two fields |
| Scenarios.ChooseDelivery | bot.py:225-271 | a valid phone (contact or typed) and carrier are stored and the address step is reached |
| Scenarios.CompleteTicket | bot.py:225-307 | from the phone step, valid answers send the stored photo and name with the new answers to the administrator and clear the session |
| Scenarios.TicketConversation | bot.py:178-307 | a new user who answers the ticket's five questions validly receives the five prompts, and the administrator is sent the largest photo size with a caption of the stripped answers; the session ends cleared whether or not delivery succeeds |
| Scenarios.CancelAtPhotoStep | bot.py:178-204 | "Отмена" at the photo step is acknowledged, but a photo sent afterwards is still taken as the ticket's photo |
| Scenarios.CancelAfterName | bot.py:206-241 | "Отмена" at the phone step clears the ticket's collected data |

## Left out

- The exchange-rate lookups over HTTP (bot.py:32-50) are not modelled as I/O. Each is an `Option<real>` parameter: `Some(rate)` when the feed answered, `None` when the request failed. The code's markup and fallbacks (+1.3, 13.8, 100.0) are applied in `Pricing.YuanRate` and `Pricing.EuroRate`.
- aiogram transport, polling, asyncio and the rendering of keyboards are not modelled. Keyboards are only the tags in `Conversation.Keyboard`.
- Floating point: amounts are exact reals. The two-decimal `round` in the shown amounts is not modelled; a reply carries the unrounded amount it shows, with the keyboard sent beside it.
- Numbers.ParseFloat: covers the whitespace `float` skips, signs, digits, a decimal point and an exponent. `float()` also accepts digit-group underscores, "inf", "nan" and non-ASCII decimal digits; none of these is modelled, so such inputs are re-prompted in the model.
- Numbers.ParseFloat: a numeral too large for a double, such as "1e400", is accepted by both Python and the model, but Python stores `inf` where the model keeps the exact value (here 10^400).
- Text.Lower: maps only A to Z (U+0041 to U+005A), А to Я (U+0410 to U+042F) and Ѐ to Џ (U+0400 to U+040F) to lower case. Every other character, for instance 'À' (U+00C0) or 'Ґ' (U+0490), is left as it is, whereas Python lower-cases it. Only Д, А, Н, Е and Т lower-case to the letters of "да" and "нет", so the answers accepted at bot.py:154-156 are still exactly Python's (`Validators.InsuranceChoiceIff`).
- The bodies of `/start`, FAQ and the administrator-contact handler (bot.py:52-71) are static replies without state. They appear only as routing targets.
- Failures of `message.answer` itself are not modelled. The failure of `bot.send_photo` is the `delivered` parameter of `TicketAddress`.
- The "Отмена" checks of `ticket_photo` and `ticket_phone_contact` (bot.py:185-188, 227-230) are not modelled. A photo or contact message has no text, so those checks can never fire.
- Conversation.Session.Valid: each message is assumed to be handled completely before the same user's next message reaches a handler; the model runs every handler as one uninterrupted method. The code does not guarantee this: the handlers suspend at `await message.answer(...)` between `update_data` and `set_state` (for instance bot.py:95-97 and 233-234 with 255-256), and the dispatcher at bot.py:18 is created without per-user event isolation. A shared contact followed quickly by "Отмена" can clear the session while the contact handler is suspended, after which it sets the carrier step on empty data. So `Valid()` being kept, and the claims that under it the `KeyError` paths and the missing-data branch (bot.py:288-291) are never taken, hold only under this assumption.
- Routing.RouteIsFirstMatch: first-match dispatch in registration order is aiogram's rule, not code in the file. It is an assumption of the model.
- There is no single dispatch method that routes a message and runs the handler. The `Scenarios` methods compose routing and handlers for the conversations they describe.
