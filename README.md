# WhatsApp ordering bot: the turn dispatcher

This project models the core of a multi-company WhatsApp ordering bot. Each
message that Twilio posts to `/whatsapp` is one *turn*. A turn goes through
these steps:

- It remembers the sender as the last customer.
- It loads the sender's session, with its state, cart, data bag and last order id.
- It imposes the company that the dashboard assigned to the number.
- It runs the first branch that matches, in this order:
  - human handoff;
  - admin commands;
  - menu, catalogue, cart and "agregar n";
  - the AI branch, limited by a daily quota;
  - the checkout questions (name, contact, "confirmar");
  - the default reply.

Two revisions are modelled side by side:

- `backend/index.js`, the current server. It adds operator notifications, the
  dashboard's `customer_company` assignments (`POST /api/assignments`),
  lowercased company ids and AI modes, and fallback pricing of unknown
  products.
- `index.js`, the earlier server. It has a stricter cart rendering and no
  way out of HUMAN. It also reserves "agregar".

The modules are:

- Shared data and the database connection:
  - `Tables`: the rows and the `Store` class whose fields are the tables.
  - `Strings`, `Options`: string helpers.
  - `Commands`: the reserved words, the admin gate, the admin-command
    regular expressions and target-number normalisation.
  - `Governor`: the daily AI quota.
  - `Cart`: the cart grouping and pricing behind `cartText` and `confirmar`.
  - `Webhook`: the request fields and the replies.
- One module per revision of the handler:
  - `Backend` models `backend/index.js`.
  - `Legacy` models `index.js`.

  Each step of the handler is a `method` on the `Store` that follows the
  JavaScript branch by branch. Its `ensures` ties the new store and the reply
  to a pure `...Effect` function of the old store.
- `BackendProps`, `BackendInvariants` and `LegacyProps` prove what the
  handlers promise, as lemmas about those functions.

A reply of `None` means the handler throws, so Twilio gets no answer. That
happens in four cases:

- a `null` company is dereferenced;
- the randomly drawn order id collides with an existing primary key;
- `index.js` prices an id that is missing from the catalog;
- the OpenAI request rejects, which neither revision catches.

## Model

| member | source | states |
|---|---|---|
| Strings.Trim | backend/index.js:414 | `.trim()`: the result has no white space at either end and is no longer than the input |
| Strings.TrimCuts | backend/index.js:414 | the trimmed text is a slice of the input, and everything cut off on either side is white space |
| Strings.TrimIdempotent | backend/index.js:414 | trimming twice is trimming once |
| Strings.LowerCase | backend/index.js:415 | `toLowerCase` keeps the length, leaves no capital, turns each capital into the small letter whose capital it is and keeps every other character |
| Strings.UpperCase | backend/index.js:526 | `toUpperCase` keeps the length, leaves no small letter, turns each small letter into its capital and keeps every other character |
| Strings.LowerIdempotent | backend/index.js:415-416 | lowercasing twice is lowercasing once |
| Strings.NatToStringRoundTrip | backend/index.js:637 | the decimal rendering of an amount reads back as the same number |
| Tables.MergeData | backend/index.js:205 | `{...defaults, ...stored}`: an empty stored bag gives the default bag |
| Tables.MergeKeys | backend/index.js:205 | key by key, a stored value wins, a missing key takes its default, and the name and contact are taken as stored |
| Tables.DataRoundTrip | backend/index.js:205-223 | a data bag written by `saveSession` and read back over the defaults is the same bag |
| Tables.Save | backend/index.js:210-226 | `saveSession` upserts the session's own row, which then holds the session's state, cart, full data bag and order id; every other row is unchanged |
| Tables.SaveOnly | backend/index.js:210-226 | an upsert leaves every other number's row as it was |
| Tables.FindProduct | backend/index.js:246 | the product found has the id asked for and is the first in the catalog with it; none is found exactly when no product has that id |
| Tables.FindCompany | backend/index.js:167-178 | the row found has the id asked for; none is found exactly when no row has it |
| Tables.CompanySafe | backend/index.js:180-184 | the session's company when it exists, else the default company; nothing only when both are missing |
| Tables.InsertById | backend/index.js:471 | inserting into a list sorted by id keeps it sorted and adds exactly that row |
| Tables.SortById | backend/index.js:471 | `ORDER BY id`: the rows come out sorted by id, as a permutation of the table |
| Tables.Store.constructor | backend/index.js:71-149 | the migrated, seeded database is empty apart from the seeded companies |
| Tables.Store.SaveSession | backend/index.js:210-226 | the stored sessions become `Save` of the old ones, and no other table changes |
| Tables.Store.SetSetting | backend/index.js:419 | only the given setting key changes |
| Tables.Store.Notify | backend/index.js:438-443 | the operator notification is appended to the outbox, and nothing else changes |
| Tables.Store.InsertOrder | backend/index.js:615-631 | the insert succeeds exactly when the order id is new; a failed insert changes nothing |
| Tables.Store.UpdateStoredData | backend/index.js:395-400 | `UPDATE ... WHERE fromNumber=?` rewrites the data bag of that row only, and of no row when it is absent |
| Tables.Store.UpsertAssignment | backend/index.js:387-393 | the number's assignment is replaced or added, and nothing else changes |
| Commands.ReservedIsListed | backend/index.js:297-302 | `isReserved` holds exactly for the listed words; "agregar" is not among them |
| Commands.ReservedLegacyIsListed | index.js:229-234 | the older `isReserved` holds exactly for its list, which includes "agregar" |
| Commands.ReservedListsDiffer | index.js:229-234 | the two lists differ exactly on "agregar" |
| Commands.AdminGatesAgree | backend/index.js:158 | the two `isAdmin` gates agree on every sender the handler sees, and with no admin number neither admits anyone |
| Commands.ParseCompanySet | backend/index.js:479 | a match means the command starts with "admin company set " and yields a non-empty id of `[a-z0-9_-]` characters |
| Commands.ParseAiSet | backend/index.js:513 | a match means the command starts with "admin ai set " and yields one of the modes "off", "lite" or "pro", in any letter case |
| Commands.ParseAiSetParts | backend/index.js:513 | the mode is the text right after the prefix, and the target is what the optional white-space-then-text tail captures of the rest |
| Commands.ParseAiSetRoundTrip | backend/index.js:513 | "admin ai set mode target" splits back into the mode and the target |
| Commands.ParseAiSetWithoutTarget | backend/index.js:513-514 | "admin ai set mode" yields the mode and no target |
| Commands.ParseAiStatus | backend/index.js:530 | a match means the command starts with "admin ai status"; no target means nothing follows, and a target is taken from the end of the command, after white space, and holds no line break |
| Commands.ParseAiStatusRoundTrip | backend/index.js:530 | "admin ai status target" gives back the target |
| Commands.ParseAiStatusWithoutTarget | backend/index.js:530-532 | "admin ai status" alone has no target |
| Commands.ParseAdd | backend/index.js:558 | a match means the text is "agregar", white space, then digits to the end, and the id is the value of those digits |
| Commands.ParseAddShape | backend/index.js:558 | every text of that shape matches, with the value of its digits as the id |
| Commands.ParseAddRoundTrip | backend/index.js:558 | "agregar " followed by the decimal rendering of n parses back to n |
| Commands.ParseCompanySetRoundTrip | backend/index.js:479 | "admin company set id target" splits back into the id and the target |
| Commands.ParseCompanySetWithoutTarget | backend/index.js:479-482 | without a target the second group is empty |
| Commands.NormalizeTargetCases | backend/index.js:379-382 | a "whatsapp:" address is produced exactly for inputs that already are one, start with "+" or are all digits; anything else is kept as it was |
| Commands.NormalizeTargetIdempotent | backend/index.js:490-493 | normalising a normalised number changes nothing |
| Commands.NormalizeTargetLegacyIdempotent | index.js:330 | the older normalisation always yields a "whatsapp:" address and is idempotent |
| Commands.NormalizationsDiffer | index.js:342 | the revisions disagree on "+digits": "whatsapp:+digits" in backend/index.js and "whatsapp:digits" in index.js |
| Governor.GrantedCountsTheCall | backend/index.js:260-289 | a granted call is counted on today's date, one past the rolled-over count and never past the limit, and nothing else in the bag changes |
| Governor.NewDayRestartsCount | backend/index.js:260-267 | on a new day the first message is served and the count restarts at 1 |
| Governor.LimitStopsCalls | backend/index.js:266-267 | once the day's count reaches 40 ("lite") or 120 ("pro") the model is not asked |
| Governor.DailyCap | backend/index.js:256-292 | over any number of messages in one day the model is called for the first ones up to the remaining allowance and never more; with AI off it is never called |
| Cart.InsertKey | backend/index.js:244-245 | adding an integer key keeps the key list ascending and adds only that key |
| Cart.Ids | backend/index.js:244-245 | the tally's keys are the cart's distinct ids in ascending order |
| Cart.Tally | backend/index.js:243-244 | the loop builds, for each id in the cart, the number of times it occurs, and keys in `Object.entries` order |
| Cart.Group | backend/index.js:245-251 | the loop's lines are the grouped lines and its total is the sum of the cart's unit prices; index.js fails exactly when an id has no product |
| Cart.CartText | backend/index.js:239-253 | `cartText` throws exactly when the cart is not empty and there is no company, or (index.js) an id is unpriced; an empty cart shows the empty notice |
| Cart.GroupingPreservesWeight | backend/index.js:244-249 | weighting each grouped id by its quantity gives the same sum as weighting each cart entry |
| Cart.TotalIsItemSum | backend/index.js:245-252 | the total of the grouped subtotals is the sum of the unit prices of every cart entry |
| Cart.QuantitiesCoverCart | backend/index.js:244-245 | the grouped quantities add up to the number of entries in the cart |
| Cart.LinesCoverCart | backend/index.js:244-245 | there is one line per distinct id, in strictly ascending id order, and no other line |
| Cart.LinesPriceEachGroup | backend/index.js:245-250 | each line's quantity is the id's count, its subtotal is unit price times quantity, and a missing product is priced 0 as "Producto" |
| Cart.GroupingExample | backend/index.js:244-252 | [1, 1, 2] against prices 100 and 80 groups into 2 x 100 and 1 x 80, 280 in all |
| Webhook.From | backend/index.js:413 | the sender falls back to "unknown", so it is never empty |
| Webhook.CatalogEffect | backend/index.js:555 | "catalogo" only answers: it writes nothing and does not ask the model |
| Webhook.AdminCommandText | backend/index.js:415-416 | when the collapsed command starts with "admin", the lowercased text does too |
| Webhook.CollapseKeepsWord | backend/index.js:416 | collapsing runs of white space keeps a leading run of non-space characters as it was |
| Backend.GetSession | backend/index.js:187-208 | a number with no row starts in MENU with an empty cart and the default bag; a stored row keeps its cart, its data keys override the defaults, a non-empty state and order id are kept, an empty state reads as MENU and an empty order id as none |
| Backend.MenuEffect | backend/index.js:548-553 | "menu" does not ask the model and touches no company, assignment, setting or outbox |
| Backend.AddEffect | backend/index.js:558-567 | "agregar n" does not ask the model and touches no company, assignment, setting or outbox |
| Backend.CheckoutEffect | backend/index.js:576-642 | the checkout branches do not ask the model and touch no company, assignment, setting or outbox |
| Backend.ConfirmEffect | backend/index.js:598-638 | "confirmar" does not ask the model and touches no company, assignment, setting or outbox |
| Backend.AdminEffect | backend/index.js:465-545 | admin commands never touch orders, companies, settings or the outbox |
| Backend.CompanySetEffect | backend/index.js:479-510 | "admin company set" touches no order, company, setting or outbox; what it writes on success is `BackendProps.CompanySetAssigns` |
| Backend.AiSetEffect | backend/index.js:513-527 | "admin ai set" touches no order, company, setting or outbox; the mode it writes is `BackendProps.AiSetWrites` |
| Backend.AiStatusEffect | backend/index.js:530-542 | "admin ai status" writes nothing and always answers; that it reports the mode last set is `BackendProps.AiStatusAfterSet` |
| Backend.HandleTurn | backend/index.js:412-643 | the turn leaves the store and sends the reply that `TurnEffect` gives for the old store |
| Backend.LoadSession | backend/index.js:413-428 | the prologue's store and session are `PrologueEffect` of the old store |
| Backend.Dispatch | backend/index.js:433-643 | the branches leave the store and reply as `DispatchEffect` says |
| Backend.HumanTurn | backend/index.js:452-462 | in HUMAN, "menu" leaves it and anything else gets the wait notice, as `DispatchEffect` says |
| Backend.CustomerWords | backend/index.js:548-567 | the menu, catalogue, cart and "agregar" branches act as `DispatchEffect` says |
| Backend.OrderWords | backend/index.js:558-642 | "agregar", AI and checkout act as `DispatchEffect` says |
| Backend.HandOff | backend/index.js:433-449 | the handoff saves HUMAN, notifies the operators and answers, as `HandOffEffect` says |
| Backend.EnterMenu | backend/index.js:548-553 | as `MenuEffect` says |
| Backend.AddItem | backend/index.js:558-567 | as `AddEffect` says |
| Backend.AskAi | backend/index.js:570-573 | as `AiEffect` says |
| Backend.CheckoutSteps | backend/index.js:576-642 | as `CheckoutEffect` says |
| Backend.ConfirmOrder | backend/index.js:598-638 | as `ConfirmEffect` says |
| Backend.AdminCommand | backend/index.js:465-545 | as `AdminEffect` says |
| Backend.SetCompany | backend/index.js:479-510 | as `CompanySetEffect` says |
| Backend.PostAssignment | backend/index.js:375-403 | the endpoint leaves the store and answers as `AssignEffect` says |
| BackendProps.SessionRoundTrip | backend/index.js:187-226 | a saved session reads back as it was |
| BackendProps.PrologueWrites | backend/index.js:419 | the prologue writes `last_customer`, only for a message that is not an admin command, and touches no company, assignment, order or outbox |
| BackendProps.TenantOverride | backend/index.js:421-428 | a non-empty assignment overrides the session's company and is saved before any branch; without one the stored session is used and nothing is saved |
| BackendProps.EveryTurnHasACompany | backend/index.js:180-184 | with the default company seeded, every turn has a company: the session's own (lowercased) if it exists, else the default |
| BackendProps.AssignmentWrites | backend/index.js:375-403 | the endpoint succeeds exactly for a known company; then it upserts the assignment and the session's company and writes nothing else; a failure writes nothing |
| BackendProps.AssignedCompanyServesMenu | backend/index.js:375-403 | after an assignment, "menu" from that number shows the assigned company's menu |
| BackendProps.MenuWord | backend/index.js:548-553 | "menu" and "hola" show the menu from any state outside HUMAN |
| BackendProps.HumanTriggerFromAnyState | backend/index.js:433-449 | a trigger in any state saves HUMAN with `humanNotified`, notifies the operators once more and acknowledges |
| BackendProps.HumanMenuExit | backend/index.js:452-457 | in HUMAN, "menu" or "hola" goes back to MENU, clears `humanNotified` and shows the menu |
| BackendProps.HumanWaits | backend/index.js:460-462 | in HUMAN any other non-admin message gets the wait notice and changes nothing |
| BackendProps.AdminReachesGate | backend/index.js:465-466 | every admin command reaches the admin branch, whatever the state |
| BackendProps.NonAdminChangesNothing | backend/index.js:466 | an admin command from anyone but the admin is refused and writes nothing beyond the prologue |
| BackendProps.NoAdminNumberNoAdmin | backend/index.js:158 | without an admin number every admin command is refused |
| BackendProps.CompanySetWithoutEffect | backend/index.js:479-487 | "admin company set" with an unknown company, or with no target and no last customer, writes nothing |
| BackendProps.CompanySetAssigns | backend/index.js:479-510 | with a known company and a target, the assignment maps the normalised target to the lowercased id and the turn's time, the target's session reads back with that company and all else it held, no other row changes, and the reply names target and company |
| BackendProps.CompanySetWrites | backend/index.js:489-510 | the same for the branch on its own |
| BackendProps.AiSetWrites | backend/index.js:513-527 | "admin ai set" without a target or last customer writes nothing; otherwise the normalised target's session reads back with the lowercased mode and all else it held, no other row and no assignment changes |
| BackendProps.AiStatusAfterSet | backend/index.js:513-542 | "admin ai status" for the customer "admin ai set" just changed reports the mode that was set |
| BackendProps.UnknownAdminCommand | backend/index.js:544 | an unrecognised admin command is answered "Admin OK" and changes nothing |
| BackendProps.AddItem | backend/index.js:558-567 | an unknown id is refused with nothing written; a known one is appended to the cart alone, and the reply shows the product and the cart |
| BackendProps.CheckoutStarts | backend/index.js:576-581 | "checkout" with an empty cart changes nothing; with items it moves to ASK_NAME |
| BackendProps.NameStep | backend/index.js:583-588 | in ASK_NAME an unreserved message becomes the name and the session moves to ASK_CONTACT |
| BackendProps.ContactStep | backend/index.js:590-595 | in ASK_CONTACT it becomes the contact, the session moves to READY and the summary is shown |
| BackendProps.ReservedWordsDoNotAdvance | backend/index.js:583-595 | in ASK_NAME and ASK_CONTACT a reserved word never advances the flow and never becomes the name or the contact |
| BackendProps.ConfirmPlacesOrder | backend/index.js:598-638 | "confirmar" in READY inserts one new order with the cart, its grouped lines, their total and "pending"/"confirmed"; the session is saved empty, in MENU, with the order id |
| BackendProps.ConfirmOnlyInReady | backend/index.js:598 | "confirmar" outside READY inserts no order |
| BackendProps.AiUnavailableSavesNothing | backend/index.js:257 | without the client, or with AI off globally, the reply says so and nothing is saved |
| BackendProps.AiLimitStopsTheModel | backend/index.js:266-267 | at the day's limit the model is not asked, the limit notice is the reply and nothing is saved |
| BackendProps.AiCallCountsOnce | backend/index.js:282-291 | a model call is counted exactly once once it answers; a non-empty trimmed answer is the reply and an empty one falls through to the default; a rejected call throws with nothing past the prologue saved |
| BackendProps.FallThroughToDefault | backend/index.js:641-642 | in MENU an unreserved message gets the default reply |
| BackendProps.ModelOnlyBehindGate | backend/index.js:570-573 | the model is asked only from the AI branch, in MENU, for an enrolled customer, with AI available and the limit not reached |
| BackendProps.AgregarReachesAi | backend/index.js:297-302 | a bare "agregar" is no longer reserved and goes to the AI branch for an enrolled customer |
| BackendInvariants.TurnKeepsCarts | backend/index.js:576-638 | every turn keeps the invariant that a session in ASK_NAME, ASK_CONTACT or READY has a non-empty cart |
| BackendInvariants.AssignmentKeepsCarts | backend/index.js:395-400 | the assignment endpoint keeps that invariant too |
| BackendInvariants.ConfirmedOrderIsNotEmpty | backend/index.js:598-631 | under the invariant, the order placed in READY has at least one item |
| BackendInvariants.TurnAnswers | backend/index.js:412-643 | with the default company seeded, a free order id and a model that does not reject, every turn sends exactly one reply |
| BackendInvariants.CarritoAlwaysAnswers | backend/index.js:239-253 | "carrito" writes nothing and always shows the cart, with unknown ids priced at 0 |
| Legacy.GetSession | index.js:120-141 | a number with no row starts in MENU with an empty cart and the default bag; a stored row's state, cart and order id are taken as they are, its data keys override the defaults |
| Legacy.MenuEffect | index.js:350-355 | "menu" does not ask the model and touches no company, assignment, setting or outbox |
| Legacy.AddEffect | index.js:365-374 | "agregar n" does not ask the model and touches no company, assignment, setting or outbox |
| Legacy.CheckoutEffect | index.js:387-451 | the checkout branches do not ask the model and touch no company, assignment, setting or outbox; the steps themselves are `LegacyProps.CheckoutStarts`, `NameTakesAnyText` and `ContactStep` |
| Legacy.ConfirmEffect | index.js:409-447 | "confirmar" does not ask the model and touches no company, assignment, setting or outbox |
| Legacy.AdminEffect | index.js:267-348 | admin commands write only sessions and never ask the model |
| Legacy.CompanySetEffect | index.js:285-323 | "admin company set" writes only sessions; there is no assignment table |
| Legacy.AiSetEffect | index.js:326-335 | "admin ai set" writes only sessions and never asks the model; the mode it writes is `LegacyProps.AiSetWrites` |
| Legacy.AiStatusEffect | index.js:338-345 | "admin ai status" writes nothing and always answers; that it reports the mode last set is `LegacyProps.AiStatusAfterSet` |
| Legacy.HandleTurn | index.js:240-452 | the turn leaves the store and replies as `TurnEffect` says |
| Legacy.LoadSession | index.js:241-249 | the prologue's store and session are `PrologueEffect` of the old store |
| Legacy.Dispatch | index.js:253-451 | the branches act as `DispatchEffect` says |
| Legacy.CustomerWords | index.js:350-374 | the menu, catalogue, cart and "agregar" branches act as `DispatchEffect` says |
| Legacy.OrderWords | index.js:365-451 | "agregar", AI and checkout act as `DispatchEffect` says |
| Legacy.AddItem | index.js:365-374 | as `AddEffect` says |
| Legacy.AskAi | index.js:377-384 | as `AiEffect` says |
| Legacy.CheckoutSteps | index.js:387-451 | as `CheckoutEffect` says |
| Legacy.ConfirmOrder | index.js:409-447 | as `ConfirmEffect` says |
| Legacy.AdminCommand | index.js:267-348 | as `AdminEffect` says |
| LegacyProps.PrologueWrites | index.js:241-249 | the prologue writes only `last_customer`, for non-admin messages, and loads the stored session |
| LegacyProps.SessionRoundTrip | index.js:120-158 | a saved session reads back exactly, whatever its state and order id |
| LegacyProps.EmptyStateKept | index.js:136 | a stored empty state stays empty when loaded |
| LegacyProps.HumanIsNeverLeft | index.js:253-263 | every session row in HUMAN before a turn is in HUMAN after it, whoever sends what |
| LegacyProps.HumanWaitsForEverything | index.js:261-263 | in HUMAN every non-trigger, non-admin message, "menu" included, gets the wait notice and only `last_customer` is written |
| LegacyProps.TriggerNotifiesNobody | index.js:253-258 | a trigger saves HUMAN with `humanNotified` and acknowledges, and the outbox is unchanged |
| LegacyProps.OwnRowOnly | index.js:350-451 | a customer's message writes no session row but the sender's own |
| LegacyProps.NonAdminChangesNothing | index.js:267-269 | an admin command from anyone but the admin is refused and writes nothing |
| LegacyProps.CompanySet | index.js:285-323 | "admin company set" changes only the target's company, keeping its state, cart and data, and answers with the target and the company; an unknown company or missing target writes nothing and answers with the missing company or the missing last customer |
| LegacyProps.AiSetWrites | index.js:326-335 | "admin ai set" without a target or last customer writes nothing; otherwise the target, untrimmed and with its first "+" dropped, reads back with the mode as written and all else it held, and no other row changes |
| LegacyProps.AiStatusAfterSet | index.js:326-345 | "admin ai status" for the customer "admin ai set" just changed reports the mode that was set |
| LegacyProps.CheckoutStarts | index.js:386-391 | "checkout" with an empty cart answers "Carrito vacío." and leaves the state as it was; with items the session moves to ASK_NAME and the name is asked for |
| LegacyProps.NameTakesAnyText | index.js:394-399 | in ASK_NAME any text that gets past the earlier branches, reserved words included, becomes the name |
| LegacyProps.ConfirmarBecomesTheName | index.js:394-399 | "confirmar" typed when the name is asked becomes the name |
| LegacyProps.ContactStep | index.js:401-406 | in ASK_CONTACT any text that gets past the earlier branches becomes the contact and the session moves to READY; the reply is the strictly rendered summary, and the turn throws after the save exactly when the cart cannot be rendered |
| LegacyProps.ConfirmThrowsIff | index.js:409-447 | "confirmar" in READY throws exactly when there is no company, an id is unpriced or the order id is taken |
| LegacyProps.ConfirmPlacesOrder | index.js:409-447 | otherwise it inserts one new order with the cart, lines, total, name and contact, and saves the session empty, in MENU |
| LegacyProps.ConfirmOnlyInReady | index.js:409 | "confirmar" outside READY inserts no order |
| LegacyProps.AddItem | index.js:365-374 | a known id is appended to the cart alone; the reply is sent only if every id already in the cart is priced |
| LegacyProps.CarritoThrowsIff | index.js:171-184 | "carrito" writes nothing, and throws exactly when the cart is not empty and there is no company or an id is unpriced |
| LegacyProps.SwitchThenCarrito | index.js:285-323 | after "admin company set" moves a customer to a catalog that lacks one of the cart's ids, the next "carrito" gets no reply |
| LegacyProps.ModelOnlyBehindGate | index.js:377-384 | the model is asked only from the AI branch, with the quota granting the call |
| LegacyProps.AgregarNeverAsksTheModel | index.js:229-234 | a bare "agregar" never reaches the model |
| LegacyProps.AiUnavailableSavesNothing | index.js:188 | without the client, or with AI off globally, "IA no disponible." is the reply and nothing is saved |
| LegacyProps.AiLimitStopsTheModel | index.js:197-199 | at the day's limit for the mode as stored the model is not asked, the limit notice is the reply and nothing is saved |
| LegacyProps.AiCallCountsOnce | index.js:187-225 | a granted call that is answered saves the count one up on today's date; a non-empty answer is sent untrimmed, an empty one falls through to the default reply; a rejected call throws with nothing past the prologue saved |

## Left out

- The HTTP and Twilio plumbing (Express, TwiML, `respond`) is left out. A turn is modelled as an `Input` record and an optional reply text.
- Telegram delivery of the operator notification is left out. The message is only appended to the store's `outbox`.
- The OpenAI request is left out. Its answer, or `None` when the request rejects, is the `aiAnswer` field of the input, and the prompt it is built from is not modelled.
- The clock and `Math.random` are inputs. The current time is an input field, the day is the first ten characters of it, and the order id is a field.
- `toLowerCase` and `toUpperCase` are modelled on ASCII letters only. Other scripts are left as they are.
- The regular expressions' `\s` is modelled as the ASCII white space plus the Unicode spaces listed in `Strings.IsSpace`.
- Product ids are `nat` and prices are `int`. JavaScript numbers, `Number()` coercion of text ids and floating point are not modelled.
- JSON columns are parsed values: a malformed `catalogJson` or `dataJson`, and `null` versus absent, are not modelled.
- Concurrent requests are not modelled. Each turn runs alone on the store.
- The dashboard's other endpoints are not part of this model: company create, save and delete, the assignment list and delete, settings, and login.
- The other files are not part of this model: `db.js`, `backend/db.js`, `dashboard/index.js` and the copy of `backend/index.js`.
- `aiReply` re-checks the mode inside itself. Its callers check it first, so the model checks it once, at the branch.
- BackendProps.AssignedCompanyServesMenu: assumes company ids are stored lowercase, as the dashboard creates them (`LowercaseIds`). The handler lowercases the session's company id before the lookup, and the endpoint does not.
- Tables.Store.constructor: does not model the migrations themselves. It starts from the seeded company rows.
- BackendProps.ConfirmPlacesOrder, ContactStep and HumanTriggerFromAnyState: assume the default company is seeded (`HasDefaultCompany`). Without it the source dereferences `null`, and `TurnAnswers` covers that case.

## Behaviour of the code worth noting

The model follows the code in each of these cases.

- The cart's lines come out in ascending id order, not in the order the items were added. The tally is a plain object, and `Object.entries` lists integer keys in ascending order.
- `backend/index.js` reads a stored empty state as MENU (line 203). `index.js` keeps it as it is.
- In `index.js`, "admin ai set" and "admin ai status" drop the first "+" of the target instead of keeping it (lines 330 and 342). So they address a different number than "admin company set" does for the same "+digits" text.
- In `index.js`, "admin ai set" does not trim its target.

## Findings

| source | as written | input that shows it | evidently intended | confidence | as-written member | corrected member |
|---|---|---|---|---|---|---|
| index.js:171-184 | `cartText` reads `p.price` and `p.name` with no fallback. After "admin company set" (lines 285-323) moves a customer to another company, the cart keeps ids from the old catalog, and "carrito" (lines 361-363) throws, so the customer gets no reply. | The cart is [1]. The admin sends "admin company set other" with the customer's number, and company "other" has no product 1. The customer then sends "carrito". | Render unknown ids with a fallback name and price 0, as backend/index.js:239-253 does. Every turn then answers. | not executed | LegacyProps.SwitchThenCarrito | BackendInvariants.CarritoAlwaysAnswers |
