/**
 * The spoken announcement for each page: a fixed table from route paths to
 * sentences, with a default for every other path.
 */
module Speech {
  import opened Wrappers
  import opened Tables

  /** The announcement table, in source order. */
  const Announcements: seq<(string, string)> := [
    ("/", "Welcome to AgroTrack! Your smart farming companion."),
    ("/dashboard", "Dashboard page. Here you can view your farming overview and quick actions."),
    ("/marketplace", "Welcome to the Marketplace. Buy and sell agricultural products here."),
    ("/rent-tools", "Tool rental page. Rent or list farming equipment."),
    ("/loans", "Agricultural loans page. Calculate EMI and view loan schemes."),
    ("/crop-recommendation", "Crop recommendation system. Get smart suggestions for your farm."),
    ("/profile", "Your profile page. Manage your personal information here.")
  ]

  const NotFound := "Page not found"

  /** Every listed sentence is non-empty, and no path is listed twice. */
  lemma AnnouncementsWellFormed()
    ensures forall i :: 0 <= i < |Announcements| ==> |Announcements[i].1| > |NotFound|
    ensures forall i, j :: 0 <= i < j < |Announcements| ==> Announcements[i].0 != Announcements[j].0
  {
  }

  /**
   * `getPageAnnouncement`: the sentence listed for the path, or "Page not
   * found". Paths are compared exactly, with no normalisation.
   */
  function PageAnnouncement(path: string): (text: string)
    ensures text != ""
    ensures (forall i :: 0 <= i < |Announcements| ==> Announcements[i].0 != path) ==> text == NotFound
    ensures forall i :: 0 <= i < |Announcements| && Announcements[i].0 == path ==> text == Announcements[i].1
  {
    AnnouncementsWellFormed();
    var r := Find(Announcements, path);
    if r.Some? && r.value != "" then r.value else NotFound
  }

  /** The paths of the table, in order. */
  const ListedPaths := ["/", "/dashboard", "/marketplace", "/rent-tools", "/loans", "/crop-recommendation", "/profile"]

  /** Every listed path gets its own sentence, never the default. */
  lemma ListedPathsAnnounced()
    ensures |ListedPaths| == |Announcements|
    ensures forall i :: 0 <= i < |ListedPaths| ==> PageAnnouncement(ListedPaths[i]) == Announcements[i].1 != NotFound
  {
    AnnouncementsWellFormed();
    PathsInOrder();
    forall i | 0 <= i < |ListedPaths|
      ensures PageAnnouncement(ListedPaths[i]) == Announcements[i].1 != NotFound
    {
      assert |Announcements[i].1| != |NotFound|;
    }
  }

  /** The `i`-th listed path is the path of the `i`-th announcement. */
  lemma PathsInOrder()
    ensures |ListedPaths| == |Announcements|
    ensures forall i :: 0 <= i < |Announcements| ==> Announcements[i].0 == ListedPaths[i]
  {
  }

  /** Any path outside the table gets the default. */
  lemma {:induction false} UnlistedPathNotFound(path: string)
    requires path !in ListedPaths
    ensures PageAnnouncement(path) == NotFound
  {
    PathsInOrder();
  }

  /** Matching is exact: a trailing slash, a capital letter or an authentication page is not listed. */
  lemma NearMissesNotListed()
    ensures "/dashboard/" !in ListedPaths && "/Profile" !in ListedPaths
    ensures "/login" !in ListedPaths && "/register" !in ListedPaths && "/reset-password" !in ListedPaths
  {
  }
}
