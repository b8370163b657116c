# Chocotastic billing form — a Dafny model

Chocotastic is a small storefront app. Its billing screen,
`BillingInfoViewController`, validates a card number, an expiration date and
a CVV as the user types.

- On a card-number change, the controller strips the spaces and re-detects
  the card type, which it stores. It regroups the text for that type and
  moves focus to the expiration field when the number is complete. Then it
  answers whether the number is valid.
- On an expiration-date change, it strips the slash and puts it back in the
  field's text. It moves focus to the CVV field at six characters. Then it
  answers the date check.
- On a CVV change, it rewrites nothing. It refuses a CVV with a non-digit,
  dismisses the keyboard when the length fits the stored card type, and
  answers whether it does.

The three answers set the `valid` flag of each field. A `combineLatest` of
the three answers gates the purchase button.

This project models that controller and proves what it does.

- `card_helpers.dfy` (module `CardHelpers`): the collaborators the
  controller calls but does not define. These are `CardType.fromString`,
  `expectedDigits`, `cvvDigits` and `format(noSpaces:)`, plus the `rw_` string
  extensions. They are carried as a `Helpers` record of functions. `CardType`
  has a distinguished `Unknown` value. `RenderingOnlyInsertsSeparators` says
  that stripping a rendered field gives back the stripped text it was
  rendered from. The class assumes it. Three lemmas list it in their
  `requires`: `ReemittingShownTextChangesNothing`, `RenderedTextKeepsVerdict`
  and `CascadeRefreshesCvv`. Every other lemma holds for every choice of the
  helper functions.
- `billing_info_spec.dfy` (module `BillingInfoSpec`): the form as a state
  machine over values. `FormState` holds the stored state: card type, field
  texts, `valid` flags, focus, the latest value of each validity stream and
  the button. `Step` is the reaction to one edit and `Run` the reaction to a
  trace of edits. The lemmas say what a trace leaves behind.
- `billing_info_controller.dfy` (module `BillingInfoController`): the class
  `BillingInfoViewController`. It has the same fields, the three validators,
  their helpers (with the same guards and early returns) and one handler per
  text field. Each handler is proved to move `State()` exactly as `Step` does.
- `cvv_recheck.dfy` (module `CvvRecheck`): the finding below, both the form
  as written and the corrected reaction.

Swift's `String.count` is modelled as the length of a `seq<char>`.

Two behaviours of the code are easy to misread, and the model keeps both:

- Auto-advance fires on every validation whose stripped length equals the
  target length, not only on the first one (lines 193-197 and 203-207).
- The card validator updates the card type, the text and the focus before
  any of its guards run, so a refused number still regroups the field and can
  still move the focus (lines 145-163).

Each validity stream is not shared and has two subscribers: the field's
`valid` flag and `combineLatest`. So each edit runs its validator twice. The
second run reads the field after the first run has rewritten it. For the card
number it sees the grouped text; for the expiration date, the slashed text.
The handlers do the same. Under `RenderingOnlyInsertsSeparators`, the second
run sees the same digits, so it gives the same verdict and changes nothing
(`RenderedTextKeepsVerdict`; the handlers prove it directly).

The controller's starting state is modelled as follows. The card type starts
as `Unknown` (line 35). The purchase button starts in its storyboard state,
which is a constructor parameter. The fields start empty with `valid` false,
but the starting texts and flags make no difference. When each text stream is
subscribed, it emits the field's text once. The three `valid` flags subscribe
first (lines 108, 119 and 129). Then `combineLatest` subscribes to the three
streams in turn (lines 133-134), and each of those runs reads the field as the
earlier runs left it. `SetupTextChangeHandling` performs that order and is
proved to reach the same state as editing the card number, the expiration
date and the CVV once each with the texts the fields showed. So each field's
first emission is its first edit.

## Model

| member | source | states |
|---|---|---|
| `BillingInfoController.BillingInfoViewController.ValidateCardText` | Chocotastic/BillingInfoViewController.swift:145-163 | returns true iff, for the space-stripped text, the detected type is not Unknown, the Luhn check holds and the length equals that type's expectedDigits; on every call, accepted or not, the stored type becomes fromString of the stripped text, the field shows that new type's format of it, and focus moves to the expiration field iff the length equals the new type's expectedDigits; nothing else changes |
| `BillingInfoController.BillingInfoViewController.ValidateExpirationText` | Chocotastic/BillingInfoViewController.swift:165-172 | returns the date check of the slash-stripped text, shows addSlash of it, moves focus to the CVV field iff it has 6 characters; card type untouched |
| `BillingInfoController.BillingInfoViewController.ValidateCvvText` | Chocotastic/BillingInfoViewController.swift:174-181 | a non-numeric CVV is refused with focus unchanged; otherwise returns count == cvvDigits of the stored type and resigns the CVV field's focus iff that holds; card type untouched |
| `BillingInfoController.BillingInfoViewController.UpdateCardType` | Chocotastic/BillingInfoViewController.swift:185-187 | the stored card type becomes fromString of the stripped number, nothing else changes |
| `BillingInfoController.BillingInfoViewController.FormatCardNumber` | Chocotastic/BillingInfoViewController.swift:189-191 | the card field shows the currently stored type's format of the stripped number |
| `BillingInfoController.BillingInfoViewController.AdvanceIfNecessaryCardNumber` | Chocotastic/BillingInfoViewController.swift:193-197 | focus moves to the expiration field iff the length equals the stored type's expectedDigits, else it is unchanged |
| `BillingInfoController.BillingInfoViewController.FormatExpirationDate` | Chocotastic/BillingInfoViewController.swift:199-201 | the expiration field shows addSlash of the stripped text |
| `BillingInfoController.BillingInfoViewController.AdvanceIfNecessaryExpiration` | Chocotastic/BillingInfoViewController.swift:203-207 | focus moves to the CVV field iff the stripped text has 6 characters |
| `BillingInfoController.BillingInfoViewController.DismissIfNecessary` | Chocotastic/BillingInfoViewController.swift:209-213 | the CVV field gives up focus iff the count equals the stored type's cvvDigits; a field that is not first responder leaves focus alone |
| `BillingInfoController.BillingInfoViewController.EmitCombined` | Chocotastic/BillingInfoViewController.swift:133-140 | once all three streams have emitted, the button is the AND of their latest values; before that it is unchanged |
| `BillingInfoController.BillingInfoViewController.SetupTextChangeHandling` | Chocotastic/BillingInfoViewController.swift:102-140 | subscribing the three flag subscribers and then combineLatest's three sources, with each run reading the field as the earlier runs left it, reaches exactly the trace of one edit per field with the texts shown at load, and keeps the class invariant |
| `BillingInfoController.BillingInfoViewController.SubscribeValidFlags` | Chocotastic/BillingInfoViewController.swift:102-131 | the three flag subscribers, each validating its field as the earlier runs left it, leave the form as `Subscribed` except that combineLatest has seen nothing |
| `BillingInfoController.BillingInfoViewController.SubscribeCombineLatest` | Chocotastic/BillingInfoViewController.swift:133-140 | if rendering only inserts separators, combineLatest's three subscriptions after the flag subscribers reach `Subscribed`: the rendered texts stay, focus moves no further and the button becomes the AND of the three verdicts |
| `BillingInfoController.BillingInfoViewController.CombineLatestReceivesCard` | Chocotastic/BillingInfoViewController.swift:133-136 | combineLatest's first card value, for a card field that already shows its rendering, keeps type and text, advances focus at full length and records the verdict without setting the button |
| `BillingInfoController.BillingInfoViewController.CombineLatestReceivesExpiration` | Chocotastic/BillingInfoViewController.swift:133-136 | combineLatest's first expiration value, for a field already showing its slashed text, keeps the text, advances focus at six characters and records the verdict without setting the button |
| `BillingInfoController.BillingInfoViewController.CombineLatestReceivesCvv` | Chocotastic/BillingInfoViewController.swift:133-140 | combineLatest's CVV value records the verdict for the stored card type, gives up focus when accepted, and then sets the button as combineLatest does |
| `BillingInfoController.BillingInfoViewController.CardTextChanged` | Chocotastic/BillingInfoViewController.swift:102-110 | running the card validator for both subscribers, the second on the text the first rendered, sets the state to exactly `Step` of the card edit and keeps flags and button consistent with the latest values |
| `BillingInfoController.BillingInfoViewController.ExpirationTextChanged` | Chocotastic/BillingInfoViewController.swift:113-121 | the same for an expiration edit, the second run reading the slashed text |
| `BillingInfoController.BillingInfoViewController.CvvTextChanged` | Chocotastic/BillingInfoViewController.swift:124-131 | the same for a CVV edit |
| `BillingInfoController.BillingInfoViewController.constructor` | Chocotastic/BillingInfoViewController.swift:35 | before the text streams are subscribed, the controller has card type Unknown, empty fields and no stream emitted, a state in which flags and button are consistent |
| `BillingInfoSpec.StepRecordsVerdict` | Chocotastic/BillingInfoViewController.swift:108-131 | an edit sets its own field's flag and latest value to its validator's verdict and its text to the rendering; the other two fields' flags, values and texts are unchanged |
| `BillingInfoSpec.NonCardEditKeepsCardType` | Chocotastic/BillingInfoViewController.swift:165-181 | expiration and CVV edits never change the card type |
| `BillingInfoSpec.ReemittingShownTextChangesNothing` | Chocotastic/BillingInfoViewController.swift:102-131 | if rendering only inserts separators, a field re-emitting the text it shows after an edit, as it does on beginning or ending editing, leaves the form as that edit left it |
| `BillingInfoSpec.RenderedTextKeepsVerdict` | Chocotastic/BillingInfoViewController.swift:102-121 | if rendering only inserts separators, validating the text a field shows after an edit gives that edit's verdict and rendering again, which is what the second subscriber of each stream sees |
| `BillingInfoSpec.LoadFocusIsIdempotent` | Chocotastic/BillingInfoViewController.swift:193-213 | running the three validators' focus moves a second time on the same texts moves focus no further |
| `BillingInfoSpec.SubscribedIsLoadRun` | Chocotastic/BillingInfoViewController.swift:102-140 | one edit per field with the texts the fields show, in field order, ends in `Subscribed`: each field rendered and judged on its text, the card type detected from the card number, and the button the AND of the verdicts |
| `BillingInfoSpec.StepKeepsConsistent` | Chocotastic/BillingInfoViewController.swift:108-140 | each edit keeps every flag equal to its latest value and the button equal to their AND once all have emitted |
| `BillingInfoSpec.StepKeepsButtonUntilAllEmitted` | Chocotastic/BillingInfoViewController.swift:133-136 | if some stream has still not emitted after an edit, it had not emitted before either, and the button is unchanged |
| `BillingInfoSpec.RunKeepsConsistent` | Chocotastic/BillingInfoViewController.swift:108-140 | consistency of flags and button holds after any trace of edits |
| `BillingInfoSpec.RunTracksLatestVerdict` | Chocotastic/BillingInfoViewController.swift:108-131 | after any trace, each field's flag and latest value are its validator's verdict on the field's last edit, judged in the state at that moment; a field never edited keeps its initial flag |
| `BillingInfoSpec.RunShowsLastEdit` | Chocotastic/BillingInfoViewController.swift:189-201 | after any trace, the card field shows its last edit formatted for the type detected from it, the expiration field its last edit with the slash put back, the CVV field its last edit |
| `BillingInfoSpec.RunTracksCardType` | Chocotastic/BillingInfoViewController.swift:146-148 | after any trace, the card type is fromString of the last card edit's stripped text, or unchanged if there was none |
| `BillingInfoSpec.RunBeforeAllEmittedKeepsButton` | Chocotastic/BillingInfoViewController.swift:133-140 | while some stream has not emitted, the button keeps its initial state |
| `BillingInfoSpec.PurchaseEnabledIffAllAccepted` | Chocotastic/BillingInfoViewController.swift:133-140 | from a form with nothing emitted: if all three fields have been edited, the button is enabled iff each field's last edit was accepted; otherwise it keeps its initial state |
| `BillingInfoSpec.CompletedFormEnablesPurchase` | Chocotastic/BillingInfoViewController.swift:145-181 | an accepted card number, then an accepted 6-character expiration date, then a CVV accepted for that card's type, enable purchase and leave no field focused |
| `CvvRecheck.StaleCvvKeepsPurchaseEnabled` | Chocotastic/BillingInfoViewController.swift:174-181 | as written: filling the form, then replacing the number by an accepted one whose type needs another CVV length, leaves the button enabled with a CVV refused for the current type, until the CVV field emits again |
| `CvvRecheck.CascadeRefreshesCvv` | Chocotastic/BillingInfoViewController.swift:193-207 | if rendering only inserts separators, this is the limit of that trace: the accepted second number moves focus to the expiration field; its begin-editing re-emission of a six-character date moves focus to the CVV field; the CVV field's begin-editing re-emission re-judges the CVV and disables the button |
| `CvvRecheck.StepRecheckedKeepsInvariants` | Chocotastic/BillingInfoViewController.swift:174-181 | with the CVV re-validated after each card edit, each edit keeps the CVV's latest value equal to the verdict for the current card type |
| `CvvRecheck.RunRecheckedKeepsInvariants` | Chocotastic/BillingInfoViewController.swift:124-140 | the same, and the consistency of flags and button, after any trace |
| `CvvRecheck.RecheckedPurchaseNeedsAcceptedCvv` | Chocotastic/BillingInfoViewController.swift:133-140 | corrected: once every stream has emitted, an enabled button means all three flags are set and the CVV shown is accepted for the card type detected now |
| `BillingInfoController.BillingInfoViewController.CardTextChangedRechecked` | Chocotastic/BillingInfoViewController.swift:124-131 | corrected handler: a card edit followed by re-running the CVV pipeline on the CVV shown sets the state to `StepRechecked` and keeps the CVV verdict current |

## Findings

| source | as written | input that shows it | evidently intended | confidence | as-written member | corrected member |
|---|---|---|---|---|---|---|
| Chocotastic/BillingInfoViewController.swift:124-140 | a card-number edit that changes the card type does not re-run the CVV validator, so the CVV verdict keeps the old type until the CVV field's stream emits again | card `4242 4242 4242 4242` (a 3-digit-CVV type), a valid expiration date, CVV `123`, then replace the card by an accepted number of a type with a 4-digit CVV: the button stays enabled until the CVV field re-emits. On the device the focus cascade normally brings that re-emission at once (`CascadeRefreshesCvv`). The button stays enabled only when no re-emission comes: while a throttled expiration re-emission waits out its 0.1 s interval, when `becomeFirstResponder` fails, or when `rw_isValidExpirationDate` accepts a date whose stripped length is not six | the button is enabled only when the CVV fits the card type now detected | low: not executed; the begin-editing re-emissions that the stated input triggers re-judge the CVV (`CascadeRefreshesCvv`), so the stale verdict lasts only in the cases listed; the CVV lengths per type and the date check come from `CardType` and `rw_isValidExpirationDate`, which are not part of this model | `CvvRecheck.StaleCvvKeepsPurchaseEnabled` | `CvvRecheck.RecheckedPurchaseNeedsAcceptedCvv` |

## Left out

- Throttling of the card and expiration streams by 0.1 s on the main scheduler (lines 37, 105, 116). It depends on time and the scheduler, so each edit is one synchronous event.
- RxSwift/RxCocoa subscription and disposal plumbing. Only the "latest value" meaning of the streams and of `combineLatest` is kept.
- The card image binding (lines 80-88), the debug print subscription `hahaha` (55-64), keyboard types (50-52) and segue preparation (66-77). These are UI and I/O.
- The bodies of `CardType` and of the `rw_` string extensions. They are in files that are not part of this model, so they are parameters and no prefix table or Luhn check is given.
- A `becomeFirstResponder()` that fails. Focus always moves as requested.
- Focus changes made by the user, such as tapping a field, and the text emissions that beginning or ending an edit triggers do not happen by themselves. In the model only the validators move focus, so after an incomplete first card edit focus is None, while on the device the card field would be first responder. A begin- or end-editing emission can be written into a trace as an edit carrying the field's shown text, as `ReemittingShownTextChangesNothing` and `CascadeRefreshesCvv` do.
- CardTextChanged: assumes `format` only inserts separators (`RenderingOnlyInsertsSeparators`), because its second validator run reads the grouped text and `CardType` is not part of this model; without that, the `valid` flag and combineLatest could judge different digits.
- ExpirationTextChanged: assumes `addSlash` only inserts the slash, for the same reason.
- Swift's `String.count` counts grapheme clusters, while the model counts `char`s. They differ on pasted text with combining marks or other multi-scalar characters, where a length check or the six-character advance could go the other way.
- The interleaving of throttle timers. When a throttled first subscriber has not emitted yet, the second subscriber also reads the typed text; the model has the first run happen first.
- ChocolatesOfTheWorldViewController.swift and CartViewController.swift. They are table, layout and navigation code over a global cart. The cart's total cost is floating point.
