/** What pool.py and refresh.py share about token refreshes: outcomes, and when one is due. */
module Refreshing {
  import opened Wrappers

  datatype RefreshStatus = Refreshed | Skipped | LoginRequired | Rejected | Failed

  const EXPIRY_SKEW := 300.0

  /** An unreadable expiry counts as due; a readable one is due within the skew. */
  predicate NeedsRefresh(expiresAt: Option<int>, now: real, skew: real) {
    expiresAt.None? || expiresAt.value as real - now <= skew
  }
}
