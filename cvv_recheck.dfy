/**
 * The CVV verdict goes stale when the card type changes.
 *
 * `validate(cvvText:)` judges the CVV against the card type stored at the
 * moment the CVV field's text stream last emitted, and a card-number edit
 * that switches the type does not re-run it. A form filled in with one
 * card's number and CVV keeps its purchase button enabled after the number
 * is replaced by an accepted number of a type with a different CVV length,
 * and it stays enabled until the CVV field emits again.
 *
 * `StaleCvvKeepsPurchaseEnabled` exhibits that trace in the form as written.
 * `CascadeRefreshesCvv` states its limit: an accepted card number moves the
 * focus to the expiration field, whose stream re-emits when it begins
 * editing; a six-character date then moves the focus to the CVV field, whose
 * stream re-emits in turn and re-judges the CVV against the new type. The
 * stale verdict therefore lasts only while that cascade has not run: while a
 * throttled re-emission waits out its interval, when `becomeFirstResponder`
 * fails, or when the date is accepted at a length other than six.
 * `StepRechecked` is the reaction with the CVV re-validated after each
 * card-number edit (the CVV stream combined with the card type), and
 * `RecheckedPurchaseNeedsAcceptedCvv` proves that with it an enabled button
 * always means a CVV accepted for the card type now detected.
 */
module CvvRecheck {
  import opened CardHelpers
  import opened BillingInfoSpec

  /** Replacing an accepted card number by an accepted number of a type with
      a different CVV length leaves the old CVV's verdict standing until the
      CVV field emits again: the button stays enabled although the CVV shown
      is refused for the card type now stored. */
  lemma StaleCvvKeepsPurchaseEnabled(h: Helpers, s: FormState, first: string, expiration: string,
                                     cvv: string, second: string)
    requires CardNumberAccepted(h, h.removeSpaces(first))
    requires ExpirationAccepted(h, h.removeSlash(expiration))
    requires CvvAccepted(h, cvv, h.fromString(h.removeSpaces(first)))
    requires CardNumberAccepted(h, h.removeSpaces(second))
    requires !CvvAccepted(h, cvv, h.fromString(h.removeSpaces(second)))
    ensures var r := Run(h, s, [Edit(CardNumber, first), Edit(ExpirationDate, expiration),
                                Edit(Cvv, cvv), Edit(CardNumber, second)]);
      r.purchaseEnabled && r.cvvValid && r.cvvText == cvv && !CvvAccepted(h, r.cvvText, r.cardType)
  {
    var edits := [Edit(CardNumber, first), Edit(ExpirationDate, expiration),
                  Edit(Cvv, cvv), Edit(CardNumber, second)];
    assert edits[..3][..2][..1] == [edits[0]];
    assert [edits[0]][..0] == [];
    assert Run(h, s, []) == s;
    var s1 := Run(h, s, [edits[0]]);
    assert s1 == Step(h, s, Edit(CardNumber, first)) == AfterCardEdit(h, s, first);
    var s2 := Run(h, s, edits[..3][..2]);
    assert s2 == AfterExpirationEdit(h, s1, expiration);
    var s3 := Run(h, s, edits[..3]);
    assert s3 == AfterCvvEdit(h, s2, cvv);
    assert s3.latestCard == Some(true) && s3.latestExpiration == Some(true) && s3.latestCvv == Some(true);
    assert Run(h, s, edits) == AfterCardEdit(h, s3, second);
  }

  /** The limit of the stale verdict: in the trace above, the accepted second
      number moves the focus to the expiration field; that field re-emitting
      its text as it begins editing moves the focus to the CVV field when the
      date has six characters; and the CVV field re-emitting as it begins
      editing re-judges the CVV against the new type, which disables the
      button. */
  lemma CascadeRefreshesCvv(h: Helpers, s: FormState, first: string, expiration: string,
                            cvv: string, second: string)
    requires RenderingOnlyInsertsSeparators(h)
    requires CardNumberAccepted(h, h.removeSpaces(first))
    requires ExpirationAccepted(h, h.removeSlash(expiration))
    requires ExpirationComplete(h.removeSlash(expiration))
    requires CvvAccepted(h, cvv, h.fromString(h.removeSpaces(first)))
    requires CardNumberAccepted(h, h.removeSpaces(second))
    requires !CvvAccepted(h, cvv, h.fromString(h.removeSpaces(second)))
    ensures var s4 := Run(h, s, [Edit(CardNumber, first), Edit(ExpirationDate, expiration),
                                 Edit(Cvv, cvv), Edit(CardNumber, second)]);
      var s5 := Step(h, s4, Edit(ExpirationDate, s4.expirationText));
      var s6 := Step(h, s5, Edit(Cvv, s5.cvvText));
      s4.focus == Some(ExpirationDate) && s5.focus == Some(Cvv) &&
      !s6.cvvValid && !s6.purchaseEnabled
  {
    var edits := [Edit(CardNumber, first), Edit(ExpirationDate, expiration),
                  Edit(Cvv, cvv), Edit(CardNumber, second)];
    assert edits[..3][..2][..1] == [edits[0]];
    assert [edits[0]][..0] == [];
    assert Run(h, s, []) == s;
    var s1 := Run(h, s, [edits[0]]);
    assert s1 == Step(h, s, Edit(CardNumber, first)) == AfterCardEdit(h, s, first);
    var s2 := Run(h, s, edits[..3][..2]);
    assert s2 == AfterExpirationEdit(h, s1, expiration);
    var s3 := Run(h, s, edits[..3]);
    assert s3 == AfterCvvEdit(h, s2, cvv);
    var s4 := Run(h, s, edits);
    assert s4 == AfterCardEdit(h, s3, second);
    assert h.removeSlash(s4.expirationText) == h.removeSlash(expiration);
    var s5 := Step(h, s4, Edit(ExpirationDate, s4.expirationText));
    assert s5 == AfterExpirationEdit(h, s4, s4.expirationText);
    assert s5.cvvText == cvv && s5.cardType == h.fromString(h.removeSpaces(second));
  }

  /** The CVV field's stream re-emitted for the CVV already shown, once it has
      emitted at all. */
  ghost function Rechecked(h: Helpers, s: FormState): FormState {
    if s.latestCvv.Some? then AfterCvvEdit(h, s, s.cvvText) else s
  }

  /** The corrected reaction: a card-number edit is followed by re-validating
      the CVV against the newly detected card type. */
  ghost function StepRechecked(h: Helpers, s: FormState, e: Edit): FormState {
    if e.field == CardNumber then Rechecked(h, Step(h, s, e)) else Step(h, s, e)
  }

  ghost function RunRechecked(h: Helpers, s: FormState, edits: seq<Edit>): FormState
    decreases |edits|
  {
    if edits == [] then s
    else StepRechecked(h, RunRechecked(h, s, edits[..|edits| - 1]), edits[|edits| - 1])
  }

  /** The CVV stream's latest value is the verdict on the CVV shown for the
      card type stored now. */
  ghost predicate CvvCurrent(h: Helpers, s: FormState) {
    s.latestCvv.Some? ==> s.latestCvv.value == CvvAccepted(h, s.cvvText, s.cardType)
  }

  lemma StepRecheckedKeepsInvariants(h: Helpers, s: FormState, e: Edit)
    requires Consistent(s) && CvvCurrent(h, s)
    ensures Consistent(StepRechecked(h, s, e)) && CvvCurrent(h, StepRechecked(h, s, e))
  {
    StepKeepsConsistent(h, s, e);
    if e.field == CardNumber {
      var t := Step(h, s, e);
      if t.latestCvv.Some? {
        StepKeepsConsistent(h, t, Edit(Cvv, t.cvvText));
      }
    }
  }

  lemma {:induction false} RunRecheckedKeepsInvariants(h: Helpers, s: FormState, edits: seq<Edit>)
    requires Consistent(s) && CvvCurrent(h, s)
    ensures Consistent(RunRechecked(h, s, edits)) && CvvCurrent(h, RunRechecked(h, s, edits))
    decreases |edits|
  {
    if edits != [] {
      RunRecheckedKeepsInvariants(h, s, edits[..|edits| - 1]);
      StepRecheckedKeepsInvariants(h, RunRechecked(h, s, edits[..|edits| - 1]), edits[|edits| - 1]);
    }
  }

  /** With the recheck, once every field has emitted, an enabled purchase
      button means every field's flag is set and the CVV shown is accepted
      for the card type detected now. */
  lemma RecheckedPurchaseNeedsAcceptedCvv(h: Helpers, s: FormState, edits: seq<Edit>)
    requires Consistent(s) && CvvCurrent(h, s)
    ensures var r := RunRechecked(h, s, edits);
      AllEmitted(r) && r.purchaseEnabled ==>
        r.cardValid && r.expirationValid && r.cvvValid && CvvAccepted(h, r.cvvText, r.cardType)
  {
    RunRecheckedKeepsInvariants(h, s, edits);
    var r := RunRechecked(h, s, edits);
    if AllEmitted(r) {
      assert Latest(r, CardNumber).Some? && Latest(r, ExpirationDate).Some? && Latest(r, Cvv).Some?;
    }
  }
}
