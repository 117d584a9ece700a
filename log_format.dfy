/**
 * The two string helpers of the handler's console line: the sender number
 * with its middle digits masked, and a 60-character preview of the body.
 */
module LogFormat {
  import opened JsString

  const PREVIEW_LIMIT: nat := 60
  const MASK := "*****"

  /** What `/^(\d{4})\d+(\d{4})$/` matches: nine or more ASCII digits and nothing else. */
  predicate IsMaskable(s: string) {
    |s| >= 9 && forall i :: 0 <= i < |s| ==> IsDigit(s[i])
  }

  /**
   * `String(n).replace(/^(\d{4})\d+(\d{4})$/, '$1*****$2')`: a matching number
   * keeps its first and last four digits around five asterisks, so neither the
   * middle digits nor the length of the number show; anything else is unchanged.
   */
  function MaskNumber(s: string): (r: string)
    ensures IsMaskable(s) ==>
      |r| == 13 && r[..4] == s[..4] && r[4..9] == MASK && r[9..] == s[|s| - 4..]
    ensures !IsMaskable(s) ==> r == s
  {
    if IsMaskable(s) then s[..4] + MASK + s[|s| - 4..] else s
  }

  /** Masking a line that was already masked changes nothing. */
  lemma MaskIdempotent(s: string)
    ensures MaskNumber(MaskNumber(s)) == MaskNumber(s)
  {
    if IsMaskable(s) {
      var r := MaskNumber(s);
      assert r[4] == '*' && !IsDigit(r[4]);
    }
  }

  /**
   * `body.slice(0, 60) + (body.length > 60 ? '...' : '')`: a prefix of the body
   * of at most 60 characters, with an ellipsis exactly when something was cut.
   */
  function Preview(body: string): (r: string)
    ensures |r| <= PREVIEW_LIMIT + 3
    ensures |body| <= PREVIEW_LIMIT ==> r == body
    ensures |body| > PREVIEW_LIMIT ==> r == body[..PREVIEW_LIMIT] + "..."
  {
    if |body| > PREVIEW_LIMIT then body[..PREVIEW_LIMIT] + "..." else body
  }

  /** The ellipsis marks truncation and nothing else: it is there iff the body was longer than 60. */
  lemma PreviewEllipsisIffCut(body: string)
    ensures |body| > PREVIEW_LIMIT <==> (|Preview(body)| == PREVIEW_LIMIT + 3 && Preview(body)[PREVIEW_LIMIT..] == "...")
    ensures StartsWith(body, if |body| > PREVIEW_LIMIT then Preview(body)[..PREVIEW_LIMIT] else Preview(body))
  {
  }
}
