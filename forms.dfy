/**
 * The two rules every numeric input of the onboarding and meal forms applies:
 * on change, emptied text stores 0 and any other text stores the number it
 * parses to; on display, a stored 0 shows as an empty field and any other value
 * as its numeral. Converting between text and numbers is JavaScript's own; the
 * parsed number and the numeral are parameters here.
 */
module Forms {

  /** The value stored when the field's text changes; `parsed` is the number the text parses to. */
  function NumericField(text: string, parsed: real): (v: real)
    ensures text == "" ==> v == 0.0
    ensures text != "" ==> v == parsed
  {
    if text == "" then 0.0 else parsed
  }

  /** The text the field shows for a stored value; `numeral` is how JavaScript writes that value. */
  function DisplayText(v: real, numeral: string): (text: string)
    ensures text == "" <==> v == 0.0 || numeral == ""
    ensures v != 0.0 ==> text == numeral
  {
    if v == 0.0 then "" else numeral
  }

  /**
   * Display then store: whatever value a field holds, taking the text it shows
   * back as input stores that same value again, 0 included.
   */
  lemma DisplayedTextStoresTheValue(v: real, numeral: string)
    requires numeral != ""
    ensures NumericField(DisplayText(v, numeral), v) == v
  {
  }

  /**
   * Store then display: emptied text comes back empty, and so does any text that
   * parses to 0, so typing "0" (or "0.0") empties the field; other text comes
   * back as the numeral of its number.
   */
  lemma StoredTextDisplaysAs(text: string, parsed: real, numeral: string)
    ensures text == "" ==> DisplayText(NumericField(text, parsed), numeral) == ""
    ensures parsed == 0.0 ==> DisplayText(NumericField(text, parsed), numeral) == ""
    ensures text != "" && parsed != 0.0 ==> DisplayText(NumericField(text, parsed), numeral) == numeral
  {
  }
}
