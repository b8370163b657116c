/**
 * The billing form's view controller: its stored state, the three validators
 * with their single-serve helpers, and the handlers that the text fields'
 * change streams run. Every handler is proved to take the form from
 * `State()` to `Step(h, State(), edit)`, the reaction defined in
 * billing_info_spec.dfy.
 */
module BillingInfoController {
  import opened CardHelpers
  import opened BillingInfoSpec
  import opened CvvRecheck

  class BillingInfoViewController {
    const h: Helpers

    var cardType: CardType
    var cardNumberText: string        // creditCardNumberTextField.text
    var expirationText: string        // expirationDateTextField.text
    var cvvText: string               // cvvTextField.text
    var cardValid: bool               // creditCardNumberTextField.valid
    var expirationValid: bool         // expirationDateTextField.valid
    var cvvValid: bool                // cvvTextField.valid
    var focus: Option<Field>          // the first responder among the three fields
    var latestCard: Option<bool>      // combineLatest's latest value per stream
    var latestExpiration: Option<bool>
    var latestCvv: Option<bool>
    var purchaseEnabled: bool         // purchaseButton.isEnabled

    ghost function State(): FormState
      reads this
    {
      FormState(cardType, cardNumberText, expirationText, cvvText,
                cardValid, expirationValid, cvvValid, focus,
                latestCard, latestExpiration, latestCvv, purchaseEnabled)
    }

    ghost predicate Valid()
      reads this
    {
      RenderingOnlyInsertsSeparators(h) && Consistent(State())
    }

    /** The controller in viewDidLoad, before the text streams are subscribed. */
    constructor (helpers: Helpers, purchaseEnabledAtLoad: bool)
      requires RenderingOnlyInsertsSeparators(helpers)
      ensures h == helpers
      ensures State() == Loaded(purchaseEnabledAtLoad)
      ensures Valid()
    {
      h := helpers;
      cardType := Unknown;
      cardNumberText, expirationText, cvvText := "", "", "";
      cardValid, expirationValid, cvvValid := false, false, false;
      focus := None;
      latestCard, latestExpiration, latestCvv := None, None, None;
      purchaseEnabled := purchaseEnabledAtLoad;
    }

    // -------------------------------------------------------------------
    // Validation methods
    // -------------------------------------------------------------------

    /** validate(cardText:): re-detects the card type, regroups the field's
        text for the new type and advances focus when the number is complete,
        all before the guards; accepts exactly the numbers of a known type
        that pass the Luhn check and have that type's length. */
    method ValidateCardText(cardText: string) returns (ok: bool)
      modifies this`cardType, this`cardNumberText, this`focus
      ensures ok == CardNumberAccepted(h, h.removeSpaces(cardText))
      ensures cardType == h.fromString(h.removeSpaces(cardText))
      ensures cardNumberText == h.format(cardType, h.removeSpaces(cardText))
      ensures focus == if CardNumberComplete(h, h.removeSpaces(cardText)) then Some(ExpirationDate) else old(focus)
    {
      var noWhitespace := h.removeSpaces(cardText);
      UpdateCardType(noWhitespace);
      FormatCardNumber(noWhitespace);
      AdvanceIfNecessaryCardNumber(noWhitespace);
      if cardType == Unknown {
        return false;
      }
      if !h.isLuhnValid(noWhitespace) {
        return false;
      }
      return |noWhitespace| == h.expectedDigits(cardType);
    }

    /** validate(expirationDateText:): shows the slash-stripped text with its
        slash put back, advances to the CVV field at six characters, and
        answers the date check on the stripped text. */
    method ValidateExpirationText(expiration: string) returns (ok: bool)
      modifies this`expirationText, this`focus
      ensures ok == ExpirationAccepted(h, h.removeSlash(expiration))
      ensures expirationText == h.addSlash(h.removeSlash(expiration))
      ensures focus == if ExpirationComplete(h.removeSlash(expiration)) then Some(Cvv) else old(focus)
    {
      var strippedSlashExpiration := h.removeSlash(expiration);
      FormatExpirationDate(strippedSlashExpiration);
      AdvanceIfNecessaryExpiration(strippedSlashExpiration);
      return h.isValidExpirationDate(strippedSlashExpiration);
    }

    /** validate(cvvText:): a CVV with a non-digit is refused before anything
        else happens; otherwise the keyboard is dismissed and the CVV
        accepted exactly when its length is the current card type's CVV
        length. */
    method ValidateCvvText(cvv: string) returns (ok: bool)
      modifies this`focus
      ensures !h.allCharactersAreNumbers(cvv) ==> !ok && focus == old(focus)
      ensures ok == CvvAccepted(h, cvv, cardType)
      ensures focus == if ok then Resigned(old(focus), Cvv) else old(focus)
    {
      if !h.allCharactersAreNumbers(cvv) {
        return false;
      }
      DismissIfNecessary(cvv);
      return |cvv| == h.cvvDigits(cardType);
    }

    // -------------------------------------------------------------------
    // Single-serve helpers
    // -------------------------------------------------------------------

    method UpdateCardType(noSpacesNumber: string)
      modifies this`cardType
      ensures cardType == h.fromString(noSpacesNumber)
    {
      cardType := h.fromString(noSpacesNumber);
    }

    /** Groups the digits as the card type stored by now, not the previous one. */
    method FormatCardNumber(noSpacesCardNumber: string)
      modifies this`cardNumberText
      ensures cardNumberText == h.format(cardType, noSpacesCardNumber)
    {
      cardNumberText := h.format(cardType, noSpacesCardNumber);
    }

    /** advanceIfNecessary(noSpacesCardNumber:): fires on every call at full
        length, not only the first. */
    method AdvanceIfNecessaryCardNumber(noSpacesCardNumber: string)
      modifies this`focus
      ensures focus == if |noSpacesCardNumber| == h.expectedDigits(cardType) then Some(ExpirationDate) else old(focus)
    {
      if |noSpacesCardNumber| == h.expectedDigits(cardType) {
        focus := Some(ExpirationDate);
      }
    }

    method FormatExpirationDate(expirationNoSpacesOrSlash: string)
      modifies this`expirationText
      ensures expirationText == h.addSlash(expirationNoSpacesOrSlash)
    {
      expirationText := h.addSlash(expirationNoSpacesOrSlash);
    }

    /** advanceIfNecessary(expirationNoSpacesOrSlash:): six characters, mmyyyy. */
    method AdvanceIfNecessaryExpiration(expirationNoSpacesOrSlash: string)
      modifies this`focus
      ensures focus == if ExpirationComplete(expirationNoSpacesOrSlash) then Some(Cvv) else old(focus)
    {
      if |expirationNoSpacesOrSlash| == 6 {
        focus := Some(Cvv);
      }
    }

    method DismissIfNecessary(cvv: string)
      modifies this`focus
      ensures focus == if |cvv| == h.cvvDigits(cardType) then Resigned(old(focus), Cvv) else old(focus)
    {
      if |cvv| == h.cvvDigits(cardType) {
        if focus == Some(Cvv) {
          focus := None;
        }
      }
    }

    // -------------------------------------------------------------------
    // The text-change pipelines
    // -------------------------------------------------------------------

    /** combineLatest(creditCardValid, expirationValid, cvvValid) bound to
        the purchase button: runs whenever one of its sources emits, and
        sets the button only once each source has emitted. */
    method EmitCombined()
      modifies this`purchaseEnabled
      ensures State() == CombineLatest(old(State()))
    {
      if latestCard.Some? && latestExpiration.Some? && latestCvv.Some? {
        purchaseEnabled := latestCard.value && latestExpiration.value && latestCvv.value;
      }
    }

    /** setupTextChangeHandling: each text stream emits the field's text when
        it is subscribed. The three `valid` flags subscribe first, in field
        order, and then combineLatest subscribes to the three streams in
        turn. Every run reads the field as the runs before it left it, so the
        whole sequence is the same as editing the three fields once each with
        the texts they show, whatever those texts and flags are. */
    method SetupTextChangeHandling()
      requires Valid()
      requires latestCard == None && latestExpiration == None && latestCvv == None
      modifies this
      ensures Valid()
      ensures State() == Run(h, old(State()), LoadEdits(old(State())))
    {
      ghost var s0 := State();
      SubscribeValidFlags();
      SubscribeCombineLatest(s0);
      SubscribedIsLoadRun(h, s0);
      RunKeepsConsistent(h, s0, LoadEdits(s0));
    }

    /** The `valid` flags' subscriptions (lines 108, 119, 129), each
        validating the field as the runs before it left it. */
    method SubscribeValidFlags()
      modifies this
      ensures State() == FlagsSubscribed(h, old(State()))
    {
      var cardOk := ValidateCardText(cardNumberText);
      cardValid := cardOk;
      var expirationOk := ValidateExpirationText(expirationText);
      expirationValid := expirationOk;
      var cvvOk := ValidateCvvText(cvvText);
      cvvValid := cvvOk;
    }

    /** combineLatest's subscriptions to its three sources (lines 133-134),
        each validating the field as the flag subscribers left it: the
        texts are already rendered, so only focus, the streams' latest values
        and the button change. */
    method SubscribeCombineLatest(ghost s0: FormState)
      requires RenderingOnlyInsertsSeparators(h)
      requires s0.latestCard == None && s0.latestExpiration == None && s0.latestCvv == None
      requires State() == FlagsSubscribed(h, s0)
      modifies this
      ensures State() == Subscribed(h, s0)
    {
      ghost var noSpaces := h.removeSpaces(s0.cardNumberText);
      assert h.removeSpaces(cardNumberText) == noSpaces by {
        assert h.removeSpaces(h.format(cardType, noSpaces)) == noSpaces;
      }
      ghost var noSlash := h.removeSlash(s0.expirationText);
      assert h.removeSlash(expirationText) == noSlash by {
        assert h.removeSlash(h.addSlash(noSlash)) == noSlash;
      }
      CombineLatestReceivesCard();
      CombineLatestReceivesExpiration();
      CombineLatestReceivesCvv();
      LoadFocusIsIdempotent(h, s0, s0.focus);
    }

    /** combineLatest's first value from the card stream, for a card field
        that already shows its rendering: type and text stay, focus advances
        at full length. */
    method CombineLatestReceivesCard()
      requires cardType == h.fromString(h.removeSpaces(cardNumberText))
      requires cardNumberText == h.format(cardType, h.removeSpaces(cardNumberText))
      requires latestExpiration == None
      modifies this
      ensures State() == old(State()).(
        focus := if CardNumberComplete(h, h.removeSpaces(cardNumberText)) then Some(ExpirationDate) else old(focus),
        latestCard := Some(CardNumberAccepted(h, h.removeSpaces(cardNumberText))))
    {
      var card := ValidateCardText(cardNumberText);
      latestCard := Some(card);
      EmitCombined();
    }

    /** combineLatest's first value from the expiration stream, for a field
        that already shows its slashed text. */
    method CombineLatestReceivesExpiration()
      requires expirationText == h.addSlash(h.removeSlash(expirationText))
      requires latestCvv == None
      modifies this
      ensures State() == old(State()).(
        focus := if ExpirationComplete(h.removeSlash(expirationText)) then Some(Cvv) else old(focus),
        latestExpiration := Some(ExpirationAccepted(h, h.removeSlash(expirationText))))
    {
      var expiration := ValidateExpirationText(expirationText);
      latestExpiration := Some(expiration);
      EmitCombined();
    }

    /** combineLatest's first value from the CVV stream, after which it
        sets the button. */
    method CombineLatestReceivesCvv()
      modifies this
      ensures State() == CombineLatest(old(State()).(
        focus := if CvvAccepted(h, cvvText, cardType) then Resigned(old(focus), Cvv) else old(focus),
        latestCvv := Some(CvvAccepted(h, cvvText, cardType))))
    {
      var cvv := ValidateCvvText(cvvText);
      latestCvv := Some(cvv);
      EmitCombined();
    }

    /** An edit of the card-number field. Its validity stream is not shared
        and has two subscribers, the field's `valid` flag and combineLatest,
        so the validator runs twice: first on the typed text, then on the
        text the field shows by then, which the first run has rewritten.
        Because rendering only inserts separators, the second run sees the
        same digits and changes nothing. */
    method CardTextChanged(text: string)
      requires Valid()
      modifies this
      ensures Valid()
      ensures State() == Step(h, old(State()), Edit(CardNumber, text))
    {
      cardNumberText := text;
      var valid := ValidateCardText(text);
      cardValid := valid;
      var latest := ValidateCardText(cardNumberText);
      latestCard := Some(latest);
      EmitCombined();
      StepKeepsConsistent(h, old(State()), Edit(CardNumber, text));
    }

    /** An edit of the expiration-date field: the second run, as for the
        card number, reads the slashed text the first run left. */
    method ExpirationTextChanged(text: string)
      requires Valid()
      modifies this
      ensures Valid()
      ensures State() == Step(h, old(State()), Edit(ExpirationDate, text))
    {
      expirationText := text;
      var valid := ValidateExpirationText(text);
      expirationValid := valid;
      var latest := ValidateExpirationText(expirationText);
      latestExpiration := Some(latest);
      EmitCombined();
      StepKeepsConsistent(h, old(State()), Edit(ExpirationDate, text));
    }

    /** An edit of the CVV field: its validator rewrites nothing, so both
        runs see the typed text. */
    method CvvTextChanged(text: string)
      requires Valid()
      modifies this
      ensures Valid()
      ensures State() == Step(h, old(State()), Edit(Cvv, text))
    {
      cvvText := text;
      var valid := ValidateCvvText(text);
      cvvValid := valid;
      var latest := ValidateCvvText(cvvText);
      latestCvv := Some(latest);
      EmitCombined();
      StepKeepsConsistent(h, old(State()), Edit(Cvv, text));
    }

    /** A card-number edit with the CVV re-validated against the new card
        type afterwards, as `StepRechecked` corrects the form; the CVV
        verdict then never goes stale. */
    method CardTextChangedRechecked(text: string)
      requires Valid() && CvvCurrent(h, State())
      modifies this
      ensures Valid() && CvvCurrent(h, State())
      ensures State() == StepRechecked(h, old(State()), Edit(CardNumber, text))
    {
      CardTextChanged(text);
      if latestCvv.Some? {
        CvvTextChanged(cvvText);
      }
      StepRecheckedKeepsInvariants(h, old(State()), Edit(CardNumber, text));
    }
  }
}
