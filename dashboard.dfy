/** The signed-in dashboard (`Dashboard`): the sidebar menu, which grows by
    the four admin items for an admin, the tab-to-view dispatch with its
    `overview` fallback, and the `activeTab` state set by menu clicks. */
module DashboardNav {
  import opened Common
  import Auth

  datatype NavItem = NavItem(name: string, id: string)

  const Navigation: seq<NavItem> := [
    NavItem("Overview", "overview"),
    NavItem("My Bookings", "bookings"),
    NavItem("Quotes", "quotes"),
    NavItem("Profile", "profile")
  ]

  const AdminNavigation: seq<NavItem> := [
    NavItem("Analytics", "analytics"),
    NavItem("Equipment", "equipment"),
    NavItem("All Bookings", "all-bookings"),
    NavItem("Settings", "settings")
  ]

  /** `user?.profile?.role === 'admin'`. */
  function IsAdmin(user: Option<Auth.User>): (r: bool)
    ensures r <==> user.Some? && user.value.profile.Some? && user.value.profile.value.role == Some("admin")
  {
    match user
    case None => false
    case Some(u) => u.profile.Some? && u.profile.value.role == Some("admin")
  }

  /** The sidebar: the client items, followed by the admin items for an admin. */
  function NavItems(user: Option<Auth.User>): (r: seq<NavItem>)
    ensures Navigation <= r
    ensures |r| == if IsAdmin(user) then 8 else 4
    ensures IsAdmin(user) ==> r[4..] == AdminNavigation
  {
    if IsAdmin(user) then Navigation + AdminNavigation else Navigation
  }

  /** No two items of any sidebar share an id. */
  lemma NavIdsDistinct(user: Option<Auth.User>)
    ensures forall i, j :: 0 <= i < j < |NavItems(user)| ==> NavItems(user)[i].id != NavItems(user)[j].id
  {
    var all := Navigation + AdminNavigation;
    assert all[0].id == "overview" && all[1].id == "bookings" && all[2].id == "quotes" && all[3].id == "profile";
    assert all[4].id == "analytics" && all[5].id == "equipment" && all[6].id == "all-bookings" && all[7].id == "settings";
  }

  /** Every id an item of some sidebar can carry. */
  ghost predicate IsNavId(id: string) {
    exists item :: item in Navigation + AdminNavigation && item.id == id
  }

  datatype View = OverviewView | BookingsView | QuotesView | ProfileView

  /** `renderContent`: the four client tabs have their own view; every other
      id, the admin ids among them, falls back to the overview. */
  function RenderContent(tab: string): (v: View)
    ensures v == BookingsView <==> tab == "bookings"
    ensures v == QuotesView <==> tab == "quotes"
    ensures v == ProfileView <==> tab == "profile"
    ensures v == OverviewView <==> tab != "bookings" && tab != "quotes" && tab != "profile"
  {
    match tab
    case "overview" => OverviewView
    case "bookings" => BookingsView
    case "quotes" => QuotesView
    case "profile" => ProfileView
    case _ => OverviewView
  }

  /** The admin items have no view of their own yet. */
  lemma AdminTabsShowOverview()
    ensures forall item :: item in AdminNavigation ==> RenderContent(item.id) == OverviewView
  {
  }

  /** The four client items lead to four different views. */
  lemma ClientTabsShowDistinctViews()
    ensures forall i, j :: 0 <= i < j < |Navigation| ==> RenderContent(Navigation[i].id) != RenderContent(Navigation[j].id)
  {
  }

  class Dashboard {
    var activeTab: string

    /** The active tab is always the id of some sidebar item. */
    ghost predicate Valid()
      reads this
    {
      IsNavId(activeTab)
    }

    constructor ()
      ensures activeTab == "overview" && Valid()
    {
      activeTab := "overview";
      assert Navigation[0] in Navigation + AdminNavigation;
    }

    /** A click on a rendered sidebar item. */
    method Select(user: Option<Auth.User>, item: NavItem)
      requires item in NavItems(user)
      modifies this
      ensures activeTab == item.id && Valid()
    {
      activeTab := item.id;
    }

  }
}
