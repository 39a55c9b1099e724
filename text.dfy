/** String operations of the extractor: `", ".join`, the `[:999]` slice and
  * the timestamp step of `get_past_time`. */
module Text {

  /** Length limit the extractor applies to every long text field. */
  const MaxField: nat := 999

  /** Python's `sep.join(parts)`. */
  function Join(parts: seq<string>, sep: string): string
  {
    if |parts| == 0 then ""
    else if |parts| == 1 then parts[0]
    else parts[0] + sep + Join(parts[1..], sep)
  }

  /** Python's `s[:limit]` for a non-negative limit. */
  function Truncate(s: string, limit: nat): (r: string)
    ensures limit == MaxField ==> Capped(r, s)
    ensures |r| <= limit && |r| <= |s|
    ensures r == s[..|r|]
    ensures |s| <= limit ==> r == s
    ensures |s| > limit ==> |r| == limit
  {
    if |s| <= limit then s else s[..limit]
  }

  /** `field` is `full` cut to the 999-character limit: no longer than the
    * limit, a prefix of `full`, all of `full` when that fits, and exactly
    * the limit long when it does not. */
  predicate Capped(field: string, full: string)
  {
    && |field| <= MaxField
    && |field| <= |full| && field == full[..|field|]
    && (|full| <= MaxField ==> field == full)
    && (|full| > MaxField ==> |field| == MaxField)
  }

  /** `s.split('.')[0]`: the text before the first dot, or all of it. */
  function BeforeDot(s: string): (r: string)
    ensures |r| <= |s| && r == s[..|r|]
    ensures '.' !in r
    ensures |r| < |s| ==> s[|r|] == '.'
    decreases |s|
  {
    if s == [] || s[0] == '.' then []
    else
      var rest := BeforeDot(s[1..]);
      assert [s[0]] + rest == s[..|rest| + 1] by {
        assert s[1..][..|rest|] == s[1..|rest| + 1];
      }
      [s[0]] + rest
  }

  /** The string step of `get_past_time`: the ISO text up to the first dot,
    * with the UTC marker `Z` appended. The clock reading is the input. */
  function QueryTime(iso: string): (r: string)
    ensures |r| >= 1 && r[|r| - 1] == 'Z'
    ensures r[..|r| - 1] == BeforeDot(iso)
  {
    BeforeDot(iso) + "Z"
  }

  /** When `isoformat` printed no fractional seconds the time is kept whole;
    * otherwise the fraction from the first dot on is dropped. */
  lemma QueryTimeCases(iso: string)
    ensures '.' !in iso ==> QueryTime(iso) == iso + "Z"
    ensures forall k :: 0 <= k < |iso| && iso[k] == '.' && (forall j :: 0 <= j < k ==> iso[j] != '.') ==>
              QueryTime(iso) == iso[..k] + "Z"
  {
  }
}
