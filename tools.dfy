/** Helper functions for agents (agents/tools.py). */
module Tools {
  import opened Wrappers
  import opened Text
  import opened Slices

  /** `text or ""`: None and the empty string both read as "". */
  function OrEmpty(text: Option<string>): string {
    if text.Some? then text.value else ""
  }

  /**
   * `safe_trim(text, limit=800)`: strips surrounding whitespace, then keeps
   * `text[:limit]`. The result is a prefix of the stripped text, at most
   * `limit` long for `limit >= 0` and the whole stripped text when it fits;
   * a negative `limit` drops that many characters from the end, as a Python
   * slice does.
   */
  function SafeTrim(text: Option<string>, limit: int := 800): (r: string)
    ensures var t := Strip(OrEmpty(text)); |r| <= |t| && r == t[..|r|]
    ensures limit >= 0 ==> |r| <= limit
    ensures limit >= 0 && |Strip(OrEmpty(text))| <= limit ==> r == Strip(OrEmpty(text))
    ensures limit >= 0 ==> |r| == Min(limit, |Strip(OrEmpty(text))|)
    ensures limit < 0 ==> |r| == |Strip(OrEmpty(text))| - Min(-limit, |Strip(OrEmpty(text))|)
    ensures text == None || text == Some("") ==> r == ""
    ensures r == [] || !IsSpace(r[0])
  {
    var t := Strip(OrEmpty(text));
    PrefixOfTrimmed(t, limit);
    SliceTo(t, limit)
  }

  /** `t[:limit]` of a string that does not start with whitespace. */
  lemma PrefixOfTrimmed(t: string, limit: int)
    requires Trimmed(t)
    ensures var r := SliceTo(t, limit);
            && |r| <= |t| && r == t[..|r|]
            && (limit >= 0 ==> |r| == Min(limit, |t|))
            && (limit < 0 ==> |r| == |t| - Min(-limit, |t|))
            && (r == [] || !IsSpace(r[0]))
  {
  }
}
