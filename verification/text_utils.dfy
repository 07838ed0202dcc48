/** The one Android text helper the core relies on. */
module TextUtils {
  import opened Wrappers

  /** android.text.TextUtils.isEmpty: true for a null string or one of length zero.
      There is no trimming, so a string of blanks is not empty. */
  predicate IsEmpty(s: Option<string>)
  {
    s.None? || |s.value| == 0
  }
}
