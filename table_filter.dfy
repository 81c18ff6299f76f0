/** The filter string the orders table hands to its data source (`applyFilter`). */
module TableFilter {
  import opened JsText

  /** `trim()` then `toLowerCase()`: the filter text. */
  function Normalize(text: string): (r: string)
    ensures IsTrimmed(r) && NoUpper(r)
  {
    LowerKeepsTrimmed(Trim(text));
    Lower(Trim(text))
  }

  /** Normalising a normalised filter changes nothing. */
  lemma {:induction false} NormalizeIdempotent(text: string)
    ensures Normalize(Normalize(text)) == Normalize(text)
  {
    var n := Normalize(text);
    TrimOfTrimmed(n);
    LowerIdempotent(Trim(text));
  }

  /** Trimming first (as the URL does with the search text) does not change the filter. */
  lemma {:induction false} NormalizeOfTrimmed(text: string)
    ensures Normalize(Trim(text)) == Normalize(text)
  {
    TrimIdempotent(text);
  }

  /** The filter is empty exactly when the input is whitespace only. */
  lemma {:induction false} BlankClearsFilter(text: string)
    ensures Normalize(text) == "" <==> AllWhitespace(text)
  {
    TrimEmptyIff(text);
  }

  /** Typing "  LIFT " filters for "lift". */
  lemma NormalizeExample(text: string)
    requires text == "  LIFT "
    ensures Normalize(text) == "lift"
  {
    assert TrimStart(text) == TrimStart(text[1..]) == TrimStart(text[2..]) == "LIFT ";
    assert TrimEnd("LIFT ") == TrimEnd("LIFT") == "LIFT";
    assert Lower("LIFT") == "lift";
  }
}
