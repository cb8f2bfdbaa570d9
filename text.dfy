/** Display helpers for product titles. */
module Text {

  const Ellipsis: string := "..."

  /** Where `substring(0, n)` stops cutting: a negative end counts as 0. */
  function CutAt(n: int): nat {
    if n < 0 then 0 else n
  }

  /**
   * Shortens `text` to its first `maxLength` characters followed by "...";
   * text that already fits is returned as it is.
   */
  function TruncateText(text: string, maxLength: int): (r: string)
    ensures |text| <= maxLength ==> r == text
    ensures |text| > maxLength ==>
      |r| == CutAt(maxLength) + |Ellipsis| &&
      r[..CutAt(maxLength)] == text[..CutAt(maxLength)] &&
      r[CutAt(maxLength)..] == Ellipsis
  {
    if |text| <= maxLength then text else text[..CutAt(maxLength)] + Ellipsis
  }
}
