/** MainApp: the signed-in shell. The active tab is read off the URL path,
    and choosing a tab in the sidebar navigates to its path and, on a phone,
    closes the sidebar. */
module App {
  import Js

  const DASHBOARD: string := "dashboard"

  /** The six tabs, in the sidebar's order. */
  const TABS: seq<string> := ["dashboard", "devices", "readings", "recommendations", "tariffs", "export"]

  /** The path with its leading slashes removed. */
  function TrimSlashes(path: string): (s: string)
    ensures s == [] || s[0] != '/'
    ensures |s| <= |path| && s == path[|path| - |s|..]
  {
    if path != [] && path[0] == '/' then TrimSlashes(path[1..]) else path
  }

  /** pathToTab: the first segment of the path after its leading slashes;
      the dashboard when that segment is empty or names no tab. */
  function PathToTab(path: string): (tab: string)
    ensures tab in TABS
    ensures var seg := Js.Split(TrimSlashes(path), '/')[0];
            tab == if seg in TABS then seg else DASHBOARD
  {
    var seg := Js.Split(TrimSlashes(path), '/')[0];
    assert TABS[0] == DASHBOARD;
    if seg == "" then
      EmptyIsNoTab();
      DASHBOARD
    else if seg in TABS then seg
    else DASHBOARD
  }

  lemma EmptyIsNoTab()
    ensures "" !in TABS
  {
    forall i | 0 <= i < |TABS| ensures TABS[i] != "" {
      TabShape(TABS[i]);
    }
  }

  /** The path handleTabChange navigates to: the tab's, the dashboard's
      for an empty tab. */
  function TabPath(tab: string): (path: string)
    ensures |path| >= 1 && path[0] == '/'
  {
    "/" + (if tab == "" then DASHBOARD else tab)
  }

  /** No tab name is empty or holds a slash. */
  lemma TabShape(tab: string)
    requires tab in TABS
    ensures tab != "" && '/' !in tab
  {
    var i :| 0 <= i < |TABS| && TABS[i] == tab;
    if i == 0 { assert tab == "dashboard"; }
    else if i == 1 { assert tab == "devices"; }
    else if i == 2 { assert tab == "readings"; }
    else if i == 3 { assert tab == "recommendations"; }
    else if i == 4 { assert tab == "tariffs"; }
    else { assert tab == "export"; }
  }

  /** Navigating to a tab makes it the active one. */
  lemma TabPathRoundTrip(tab: string)
    requires tab in TABS || tab == ""
    ensures PathToTab(TabPath(tab)) == if tab == "" then DASHBOARD else tab
  {
    var t := if tab == "" then DASHBOARD else tab;
    TabShape(t);
    LeadingSlashes("/", t);
    assert TabPath(tab) == "/" + t;
  }

  /** A deeper path stays on the tab of its first segment, however many
      slashes lead it. */
  lemma NestedPathKeepsTab(slashes: nat, tab: string, rest: string)
    requires tab in TABS
    ensures PathToTab(seq(slashes, _ => '/') + "/" + tab + "/" + rest) == tab
  {
    var lead := seq(slashes, _ => '/') + "/";
    var path := seq(slashes, _ => '/') + "/" + tab + "/" + rest;
    TabShape(tab);
    var s := tab + ['/'] + rest;
    assert path == lead + s;
    assert forall i :: 0 <= i < |lead| ==> lead[i] == '/';
    LeadingSlashes(lead, s);
    Js.SplitPrefix(tab, '/', rest);
    FirstSegmentTab(path, tab);
  }

  /** A path whose first segment is a tab shows that tab. */
  lemma FirstSegmentTab(path: string, tab: string)
    requires tab in TABS
    requires Js.Split(TrimSlashes(path), '/')[0] == tab
    ensures PathToTab(path) == tab
  {
  }

  lemma {:induction false} LeadingSlashes(lead: string, s: string)
    requires forall i :: 0 <= i < |lead| ==> lead[i] == '/'
    requires s == [] || s[0] != '/'
    ensures TrimSlashes(lead + s) == s
  {
    if lead != [] {
      assert (lead + s)[1..] == lead[1..] + s;
      LeadingSlashes(lead[1..], s);
    } else {
      assert lead + s == s;
    }
  }

  class MainApp {
    var location: string
    var sidebarOpen: bool

    constructor (location: string)
      ensures this.location == location && !sidebarOpen
    {
      this.location := location;
      sidebarOpen := false;
    }

    function ActiveTab(): (tab: string)
      reads this
      ensures tab in TABS
    {
      PathToTab(location)
    }

    /** handleTabChange: navigate to the tab's path; on a phone the sidebar
        closes, elsewhere it stays as it was. */
    method TabChange(tab: string, isMobile: bool)
      modifies this
      ensures location == TabPath(tab)
      ensures sidebarOpen == (!isMobile && old(sidebarOpen))
      ensures tab in TABS ==> ActiveTab() == tab
      ensures tab == "" ==> ActiveTab() == DASHBOARD
    {
      location := TabPath(tab);
      if isMobile {
        sidebarOpen := false;
      }
      if tab in TABS || tab == "" {
        TabPathRoundTrip(tab);
      }
    }

    /** The menu button of the phone header. */
    method ToggleSidebar()
      modifies this
      ensures sidebarOpen == !old(sidebarOpen) && location == old(location)
    {
      sidebarOpen := !sidebarOpen;
    }

    /** A click on the overlay behind the phone's sidebar. */
    method CloseSidebar()
      modifies this
      ensures !sidebarOpen && location == old(location)
    {
      sidebarOpen := false;
    }
  }
}
