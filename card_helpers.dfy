/**
 * The collaborators the billing form relies on but does not define: the
 * `CardType` enumeration with its static classifier and per-network metadata,
 * and the `rw_` extensions on strings. Their bodies are not part of this
 * model, so they are carried as parameters: every property of the form is
 * stated relative to whatever these functions compute.
 */
module CardHelpers {

  /** A card network. `Unknown` is the one value the form singles out; the
      set of named networks is left open. */
  datatype CardType = Unknown | Network(name: string)

  /** The helper functions, one field per member the form calls. */
  datatype Helpers = Helpers(
    fromString: string -> CardType,           // CardType.fromString(string:)
    expectedDigits: CardType -> int,          // CardType.expectedDigits
    cvvDigits: CardType -> int,               // CardType.cvvDigits
    format: (CardType, string) -> string,     // CardType.format(noSpaces:)
    removeSpaces: string -> string,           // String.rw_removeSpaces()
    removeSlash: string -> string,            // String.rw_removeSlash()
    isLuhnValid: string -> bool,              // String.rw_isLuhnValid()
    addSlash: string -> string,               // String.rw_addSlash()
    isValidExpirationDate: string -> bool,    // String.rw_isValidExpirationDate()
    allCharactersAreNumbers: string -> bool   // String.rw_allCharactersAreNumbers()
  )

  /** Rendering a field only inserts separators: stripping a card number
      grouped by `format` gives back the digits that were grouped, and
      stripping an expiration date after `addSlash` gives back what was
      slashed. The form relies on this because the second subscriber of each
      validity stream reads the field after the first has rewritten it. */
  ghost predicate RenderingOnlyInsertsSeparators(h: Helpers) {
    (forall t: CardType, x: string :: h.removeSpaces(h.format(t, h.removeSpaces(x))) == h.removeSpaces(x)) &&
    (forall x: string :: h.removeSlash(h.addSlash(h.removeSlash(x))) == h.removeSlash(x))
  }
}
