/**
 * The checks the scrapers make on the browser's current address. The address
 * itself comes from the browser and is an input here.
 */
module Pages {
  import opened Text

  /** After logging in, Facebook asked for verification instead of showing the feed. */
  predicate LoginBlocked(currentUrl: string) {
    Contains(currentUrl, "login_attempt") || Contains(currentUrl, "checkpoint")
  }

  /** After navigating to the group, the browser really shows a group page. */
  predicate InGroup(currentUrl: string) {
    Contains(currentUrl, "groups")
  }
}
