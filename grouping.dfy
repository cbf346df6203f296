/** The application grouping dialog (src/ui/app_grouping.py): three lists of
    applications (unassigned, productivity, other), loaded from the database's
    application names and the configured groups, moved between by the user,
    filtered by a search text and saved back into the configuration. The
    lists are sequences of items; icons, tooltips and styling are not
    modelled, and the user's selection arrives as a set of row numbers. */
module Grouping {
  import opened Common
  import opened Text
  import opened Storage
  import Settings

  /** A list entry: its display text, its user data (the real application name)
      and whether the search filter hides it. */
  datatype Item = Item(text: string, app: string, hidden: bool)

  /** `_add_app_item`: the friendly name when the metadata has a non-empty one,
      else the application name; the name itself as user data; shown. */
  function NewItem(meta: map<string, Metadata>, app: string): Item {
    Item(if FriendlyOf(meta, app) != "" then FriendlyOf(meta, app) else app, app, false)
  }

  /** `item.data(Qt.UserRole) or item.text()` */
  function RealName(it: Item): string {
    if it.app != "" then it.app else it.text
  }

  function AppOf(it: Item): string { it.app }

  /** An item's display text is the friendly name or, when there is none, the
      application's name; reading its real name back gives the application,
      except for an application named "" that has a friendly name. */
  lemma ItemNames(meta: map<string, Metadata>, app: string)
    ensures NewItem(meta, app).text == FriendlyOf(meta, app) || NewItem(meta, app).text == app
    ensures NewItem(meta, app).text == app <==> FriendlyOf(meta, app) == "" || FriendlyOf(meta, app) == app
    ensures RealName(NewItem(meta, app)) == app <==> app != "" || FriendlyOf(meta, app) == ""
  {
  }

  /** `sortItems()`: ascending by display text. */
  function ByText(a: Item, b: Item): bool {
    StrLe(a.text, b.text)
  }

  lemma ByTextTotalOn(items: seq<Item>)
    ensures TotalOn(items, ByText)
  {
    forall i, j | 0 <= i < |items| && 0 <= j < |items| ensures ByText(items[i], items[j]) || ByText(items[j], items[i]) {
      StrLeTotal(items[i].text, items[j].text);
    }
    forall i, j, k | 0 <= i < |items| && 0 <= j < |items| && 0 <= k < |items| && ByText(items[i], items[j]) && ByText(items[j], items[k])
      ensures ByText(items[i], items[k])
    {
      StrLeTransitive(items[i].text, items[j].text, items[k].text);
    }
  }

  /** Sorting a list keeps its items and orders them by display text. */
  lemma SortedByText(items: seq<Item>)
    ensures multiset(SortBy(items, ByText)) == multiset(items)
    ensures SortedBy(SortBy(items, ByText), ByText)
    ensures multiset(MapSeq(SortBy(items, ByText), AppOf)) == multiset(MapSeq(items, AppOf))
  {
    ByTextTotalOn(items);
    SortBySorted(items, ByText);
    MapSeqPermutation(SortBy(items, ByText), items, AppOf);
  }

  /** Every item is as `_add_app_item` made it for its application. */
  ghost predicate AsAdded(meta: map<string, Metadata>, items: seq<Item>) {
    forall i :: 0 <= i < |items| ==> items[i] == NewItem(meta, items[i].app)
  }

  /** Appending an application's new item appends the application. */
  lemma AddedStep(meta: map<string, Metadata>, items: seq<Item>, app: string)
    requires AsAdded(meta, items)
    ensures AsAdded(meta, items + [NewItem(meta, app)])
    ensures MapSeq(items + [NewItem(meta, app)], AppOf) == MapSeq(items, AppOf) + [app]
  {
  }

  lemma SortKeepsAsAdded(meta: map<string, Metadata>, items: seq<Item>)
    requires AsAdded(meta, items)
    ensures AsAdded(meta, SortBy(items, ByText)) && SortedBy(SortBy(items, ByText), ByText)
    ensures multiset(MapSeq(SortBy(items, ByText), AppOf)) == multiset(MapSeq(items, AppOf))
  {
    var sorted := SortBy(items, ByText);
    SortedByText(items);
    forall i | 0 <= i < |sorted| ensures sorted[i] in multiset(items) {
      assert sorted[i] in multiset(sorted);
    }
  }

  // ---------------------------------------------------------------------------
  // load_data: the three lists
  // ---------------------------------------------------------------------------

  datatype ListName = UnassignedList | ProductivityList | OtherList

  /** `set(groups.get(name, []))` */
  function GroupSet(groups: map<string, seq<string>>, name: string): set<string> {
    set a | a in Get(groups, name, [])
  }

  /** Where a database application goes: productivity if configured there, else
      other if configured there, else unassigned. */
  function Category(p: set<string>, o: set<string>, app: string): ListName {
    if app in p then ProductivityList else if app in o then OtherList else UnassignedList
  }

  /** The database applications that go to list `g`, in database order. */
  function Categorized(apps: seq<string>, p: set<string>, o: set<string>, g: ListName): (r: seq<string>)
    ensures |r| <= |apps|
    ensures forall a :: a in r <==> a in apps && Category(p, o, a) == g
  {
    if apps == [] then []
    else
      var n := |apps| - 1;
      var init := Categorized(apps[..n], p, o, g);
      assert forall a :: a in apps <==> a in apps[..n] || a == apps[n] by {
        assert apps == apps[..n] + [apps[n]];
      }
      init + if Category(p, o, apps[n]) == g then [apps[n]] else []
  }

  /** One more database application extends exactly the list of its category. */
  lemma CategorizedStep(apps: seq<string>, i: int, p: set<string>, o: set<string>)
    requires 0 <= i < |apps|
    ensures forall g :: (Categorized(apps[..i + 1], p, o, g) ==
      Categorized(apps[..i], p, o, g) + if Category(p, o, apps[i]) == g then [apps[i]] else [])
  {
    assert apps[..i + 1][..i] == apps[..i];
  }

  /** Every database application goes to exactly one list. */
  lemma {:induction false} CategorizedSizes(apps: seq<string>, p: set<string>, o: set<string>)
    ensures |Categorized(apps, p, o, UnassignedList)| + |Categorized(apps, p, o, ProductivityList)|
      + |Categorized(apps, p, o, OtherList)| == |apps|
  {
    if apps != [] {
      CategorizedSizes(apps[..|apps| - 1], p, o);
    }
  }

  /** The applications list `g` holds after loading: its database applications,
      plus, for the two groups, the configured applications the database lacks. */
  ghost function Loaded(apps: seq<string>, p: set<string>, o: set<string>, g: ListName): multiset<string> {
    var stored := set a | a in apps;
    multiset(Categorized(apps, p, o, g)) +
      match g
      case UnassignedList => multiset{}
      case ProductivityList => multiset(p - stored)
      case OtherList => multiset(o - stored)
  }

  /** Membership after loading: productivity holds exactly its configured
      applications; other its configured ones except database applications also
      configured as productive; unassigned the unconfigured database applications. */
  lemma LoadedMembers(apps: seq<string>, p: set<string>, o: set<string>, a: string)
    ensures a in Loaded(apps, p, o, ProductivityList) <==> a in p
    ensures a in Loaded(apps, p, o, OtherList) <==> a in o && !(a in p && a in apps)
    ensures a in Loaded(apps, p, o, UnassignedList) <==> a in apps && a !in p && a !in o
  {
    assert a in multiset(Categorized(apps, p, o, ProductivityList)) <==> a in Categorized(apps, p, o, ProductivityList);
    assert a in multiset(Categorized(apps, p, o, OtherList)) <==> a in Categorized(apps, p, o, OtherList);
    assert a in multiset(Categorized(apps, p, o, UnassignedList)) <==> a in Categorized(apps, p, o, UnassignedList);
  }

  /** A database application is in exactly the list its category names. */
  lemma StoredAppInOneList(apps: seq<string>, p: set<string>, o: set<string>, a: string, g: ListName)
    requires a in apps
    ensures a in Loaded(apps, p, o, g) <==> g == Category(p, o, a)
  {
    LoadedMembers(apps, p, o, a);
  }

  /** Loading then saving without moving anything leaves every application's group as it was. */
  lemma LoadSaveKeepsGroups(apps: seq<string>, groups: map<string, seq<string>>, prod: seq<string>, other: seq<string>, a: string)
    requires multiset(prod) == Loaded(apps, GroupSet(groups, Settings.Productivity), GroupSet(groups, Settings.OtherGroup), ProductivityList)
    requires multiset(other) == Loaded(apps, GroupSet(groups, Settings.Productivity), GroupSet(groups, Settings.OtherGroup), OtherList)
    ensures Settings.AppGroupOf(map[Settings.Productivity := prod, Settings.OtherGroup := other], a) == Settings.AppGroupOf(groups, a)
  {
    var p, o := GroupSet(groups, Settings.Productivity), GroupSet(groups, Settings.OtherGroup);
    var saved := map[Settings.Productivity := prod, Settings.OtherGroup := other];
    assert Get(saved, Settings.Productivity, []) == prod && Get(saved, Settings.OtherGroup, []) == other;
    LoadedMembers(apps, p, o, a);
    assert a in prod <==> a in p by {
      assert a in prod <==> a in multiset(prod);
    }
    assert a in other <==> a in o && !(a in p && a in apps) by {
      assert a in other <==> a in multiset(other);
    }
  }

  // ---------------------------------------------------------------------------
  // Moving, filtering
  // ---------------------------------------------------------------------------

  /** The items of the rows not in `selected`, in order. */
  function Kept(items: seq<Item>, selected: set<int>): seq<Item> {
    if items == [] then []
    else
      var n := |items| - 1;
      Kept(items[..n], selected) + if n in selected then [] else [items[n]]
  }

  /** The items `_add_app_item` makes for the selected rows, in row order. */
  function Moved(meta: map<string, Metadata>, items: seq<Item>, selected: set<int>): seq<Item> {
    if items == [] then []
    else
      var n := |items| - 1;
      Moved(meta, items[..n], selected) + if n in selected then [NewItem(meta, RealName(items[n]))] else []
  }

  /** Each row is either kept or moved: nothing is lost or duplicated. */
  lemma {:induction false} KeptMovedSizes(meta: map<string, Metadata>, items: seq<Item>, selected: set<int>)
    ensures |Kept(items, selected)| + |Moved(meta, items, selected)| == |items|
  {
    if items != [] {
      KeptMovedSizes(meta, items[..|items| - 1], selected);
    }
  }

  /** A moved item is an unselected-free copy of a selected row's application. */
  lemma {:induction false} MovedApps(meta: map<string, Metadata>, items: seq<Item>, selected: set<int>, a: string)
    ensures NewItem(meta, a) in Moved(meta, items, selected)
      <==> exists i :: 0 <= i < |items| && i in selected && RealName(items[i]) == a
  {
    if items != [] {
      var n := |items| - 1;
      MovedApps(meta, items[..n], selected, a);
      if NewItem(meta, a) in Moved(meta, items[..n], selected) {
        var j :| 0 <= j < n && j in selected && RealName(items[..n][j]) == a;
        assert items[j] == items[..n][j];
      }
      if exists i :: 0 <= i < |items| && i in selected && RealName(items[i]) == a {
        var i :| 0 <= i < |items| && i in selected && RealName(items[i]) == a;
        if i < n {
          assert items[..n][i] == items[i];
        }
      }
    }
  }

  /** Takes the selected rows out of `source` and appends their applications' new items to `target`. */
  method MoveSelected(meta: map<string, Metadata>, source: seq<Item>, target: seq<Item>, selected: set<int>)
    returns (rest: seq<Item>, added: seq<Item>)
    ensures rest == Kept(source, selected)
    ensures added == target + Moved(meta, source, selected)
  {
    rest, added := [], target;
    for i := 0 to |source|
      invariant rest == Kept(source[..i], selected)
      invariant added == target + Moved(meta, source[..i], selected)
    {
      assert source[..i + 1][..i] == source[..i];
      if i in selected {
        added := added + [NewItem(meta, RealName(source[i]))];
      } else {
        rest := rest + [source[i]];
      }
    }
    assert source[..|source|] == source;
  }

  /** `text not in item.text().lower() and text not in real_name.lower()` with `text` already lowered. */
  predicate Hides(lowered: string, it: Item) {
    !Contains(lowered, Lower(it.text)) && !Contains(lowered, Lower(RealName(it)))
  }

  /** One list after `filter_apps`: every item kept, its hidden flag recomputed. */
  function Filtered(lowered: string, items: seq<Item>): (r: seq<Item>)
    ensures |r| == |items|
    ensures forall i :: 0 <= i < |r| ==> r[i].text == items[i].text && r[i].app == items[i].app
  {
    seq(|items|, i requires 0 <= i < |items| => items[i].(hidden := Hides(lowered, items[i])))
  }

  method FilterList(lowered: string, items: seq<Item>) returns (r: seq<Item>)
    ensures r == Filtered(lowered, items)
  {
    r := items;
    for i := 0 to |items|
      invariant |r| == |items|
      invariant forall j :: 0 <= j < i ==> r[j] == items[j].(hidden := Hides(lowered, items[j]))
      invariant forall j :: i <= j < |items| ==> r[j] == items[j]
    {
      r := r[i := items[i].(hidden := Hides(lowered, items[i]))];
    }
  }

  /** An item stays visible exactly when the search text occurs in its lowered
      display text or its lowered real name. */
  lemma FilterShowsMatches(text: string, items: seq<Item>, i: int)
    requires 0 <= i < |items|
    ensures !Filtered(Lower(text), items)[i].hidden <==>
      (exists k :: OccursAt(Lower(text), Lower(items[i].text), k)) || (exists k :: OccursAt(Lower(text), Lower(RealName(items[i])), k))
  {
    ContainsIff(Lower(text), Lower(items[i].text));
    ContainsIff(Lower(text), Lower(RealName(items[i])));
  }

  /** An empty search text shows every item. */
  lemma EmptyFilterShowsAll(items: seq<Item>)
    ensures forall i :: 0 <= i < |items| ==> !Filtered(Lower(""), items)[i].hidden
  {
    forall i | 0 <= i < |items| ensures !Hides(Lower(""), items[i]) {
      EmptyContained(Lower(items[i].text));
    }
  }

  class AppGroupingDialog {
    const config: Settings.Config
    var metadata: map<string, Metadata>
    var unassigned: seq<Item>
    var productivity: seq<Item>
    var other: seq<Item>

    /** `update_stats`: the counts the label shows, total first. */
    function Stats(): (r: (int, int, int, int))
      reads this
      ensures r.0 == r.1 + r.2 + r.3
    {
      (|unassigned| + |productivity| + |other|, |productivity|, |other|, |unassigned|)
    }

    /** Builds the dialog and loads its lists; `None` stands for no database. */
    constructor(config: Settings.Config, database: Option<(seq<string>, map<string, Metadata>)>)
      requires config.AppGroupsReadable()
      ensures this.config == config
      ensures var apps := if database.Some? then database.value.0 else [];
        var p, o := GroupSet(config.AppGroups(), Settings.Productivity), GroupSet(config.AppGroups(), Settings.OtherGroup);
        && multiset(MapSeq(unassigned, AppOf)) == Loaded(apps, p, o, UnassignedList)
        && multiset(MapSeq(productivity, AppOf)) == Loaded(apps, p, o, ProductivityList)
        && multiset(MapSeq(other, AppOf)) == Loaded(apps, p, o, OtherList)
    {
      this.config := config;
      metadata := map[];
      unassigned, productivity, other := [], [], [];
      new;
      if database.Some? {
        LoadData(database.value.0, database.value.1);
      } else {
        LoadData([], metadata);
      }
    }

    /** `load_data`: each database application goes to its category's list, each
        configured application the database lacks to its group's list (both, if
        configured in both), and the lists are sorted by display text. */
    method LoadData(apps: seq<string>, meta: map<string, Metadata>)
      requires config.AppGroupsReadable()
      requires unassigned == [] && productivity == [] && other == []
      modifies this`metadata, this`unassigned, this`productivity, this`other
      ensures metadata == meta
      ensures var p, o := GroupSet(config.AppGroups(), Settings.Productivity), GroupSet(config.AppGroups(), Settings.OtherGroup);
        && multiset(MapSeq(unassigned, AppOf)) == Loaded(apps, p, o, UnassignedList)
        && multiset(MapSeq(productivity, AppOf)) == Loaded(apps, p, o, ProductivityList)
        && multiset(MapSeq(other, AppOf)) == Loaded(apps, p, o, OtherList)
      ensures AsAdded(meta, unassigned) && AsAdded(meta, productivity) && AsAdded(meta, other)
      ensures SortedBy(unassigned, ByText) && SortedBy(productivity, ByText) && SortedBy(other, ByText)
    {
      metadata := meta;
      var groups := config.AppGroups();
      unassigned, productivity, other := LoadLists(meta, apps, GroupSet(groups, Settings.Productivity), GroupSet(groups, Settings.OtherGroup));
    }

    /** The lists `load_data` builds, for the configured sets `p` and `o`. */
    static method LoadLists(meta: map<string, Metadata>, apps: seq<string>, p: set<string>, o: set<string>)
      returns (u: seq<Item>, pr: seq<Item>, ot: seq<Item>)
      ensures multiset(MapSeq(u, AppOf)) == Loaded(apps, p, o, UnassignedList)
      ensures multiset(MapSeq(pr, AppOf)) == Loaded(apps, p, o, ProductivityList)
      ensures multiset(MapSeq(ot, AppOf)) == Loaded(apps, p, o, OtherList)
      ensures AsAdded(meta, u) && AsAdded(meta, pr) && AsAdded(meta, ot)
      ensures SortedBy(u, ByText) && SortedBy(pr, ByText) && SortedBy(ot, ByText)
    {
      var u0, pr0, ot0 := Categorize(meta, apps, p, o);
      var stored := set a | a in apps;
      pr0 := AddMissing(meta, pr0, p, stored);
      ot0 := AddMissing(meta, ot0, o, stored);
      SortKeepsAsAdded(meta, u0);
      SortKeepsAsAdded(meta, pr0);
      SortKeepsAsAdded(meta, ot0);
      u, pr, ot := SortBy(u0, ByText), SortBy(pr0, ByText), SortBy(ot0, ByText);
    }

    /** The loop over the database applications. */
    static method Categorize(meta: map<string, Metadata>, apps: seq<string>, p: set<string>, o: set<string>)
      returns (u: seq<Item>, pr: seq<Item>, ot: seq<Item>)
      ensures MapSeq(u, AppOf) == Categorized(apps, p, o, UnassignedList)
      ensures MapSeq(pr, AppOf) == Categorized(apps, p, o, ProductivityList)
      ensures MapSeq(ot, AppOf) == Categorized(apps, p, o, OtherList)
      ensures AsAdded(meta, u) && AsAdded(meta, pr) && AsAdded(meta, ot)
    {
      u, pr, ot := [], [], [];
      for i := 0 to |apps|
        invariant MapSeq(u, AppOf) == Categorized(apps[..i], p, o, UnassignedList)
        invariant MapSeq(pr, AppOf) == Categorized(apps[..i], p, o, ProductivityList)
        invariant MapSeq(ot, AppOf) == Categorized(apps[..i], p, o, OtherList)
        invariant AsAdded(meta, u) && AsAdded(meta, pr) && AsAdded(meta, ot)
      {
        CategorizedStep(apps, i, p, o);
        var item := NewItem(meta, apps[i]);
        if apps[i] in p {
          AddedStep(meta, pr, apps[i]);
          pr := pr + [item];
        } else if apps[i] in o {
          AddedStep(meta, ot, apps[i]);
          ot := ot + [item];
        } else {
          AddedStep(meta, u, apps[i]);
          u := u + [item];
        }
      }
      assert apps[..|apps|] == apps;
    }

    /** Counting one more application that was not yet added. */
    static lemma AddedCount(apps: multiset<string>, base: multiset<string>, added: set<string>, a: string)
      requires apps == base + multiset(added) && a !in added
      ensures apps + multiset{a} == base + multiset(added + {a})
    {
      assert multiset(added + {a}) == multiset(added) + multiset{a};
    }

    /** `for app_name in group: if app_name not in all_apps: _add_app_item(...)` */
    static method AddMissing(meta: map<string, Metadata>, items: seq<Item>, group: set<string>, stored: set<string>)
      returns (r: seq<Item>)
      requires AsAdded(meta, items)
      ensures multiset(MapSeq(r, AppOf)) == multiset(MapSeq(items, AppOf)) + multiset(group - stored)
      ensures AsAdded(meta, r)
    {
      r := items;
      var todo := group;
      ghost var added: set<string> := {};
      while todo != {}
        invariant todo <= group
        invariant added == (group - todo) - stored
        invariant multiset(MapSeq(r, AppOf)) == multiset(MapSeq(items, AppOf)) + multiset(added)
        invariant AsAdded(meta, r)
        decreases todo
      {
        var a :| a in todo;
        if a !in stored {
          AddedStep(meta, r, a);
          AddedCount(multiset(MapSeq(r, AppOf)), multiset(MapSeq(items, AppOf)), added, a);
          r := r + [NewItem(meta, a)];
          added := added + {a};
        }
        todo := todo - {a};
      }
    }

    /** `move_to_productivity`: the selected unassigned rows leave that list and
        their applications join productivity, which is re-sorted. */
    method MoveToProductivity(selected: set<int>)
      modifies this`unassigned, this`productivity
      ensures unassigned == Kept(old(unassigned), selected)
      ensures multiset(productivity) == multiset(old(productivity)) + multiset(Moved(metadata, old(unassigned), selected))
      ensures SortedBy(productivity, ByText)
      ensures Stats().0 == old(Stats().0)
    {
      KeptMovedSizes(metadata, unassigned, selected);
      var rest, added := MoveSelected(metadata, unassigned, productivity, selected);
      var sorted := SortedMerge(added);
      unassigned, productivity := rest, sorted;
    }

    /** `move_to_other`: as `move_to_productivity`, into the other list. */
    method MoveToOther(selected: set<int>)
      modifies this`unassigned, this`other
      ensures unassigned == Kept(old(unassigned), selected)
      ensures multiset(other) == multiset(old(other)) + multiset(Moved(metadata, old(unassigned), selected))
      ensures SortedBy(other, ByText)
      ensures Stats().0 == old(Stats().0)
    {
      KeptMovedSizes(metadata, unassigned, selected);
      var rest, added := MoveSelected(metadata, unassigned, other, selected);
      var sorted := SortedMerge(added);
      unassigned, other := rest, sorted;
    }

    /** `move_to_unassigned`: the selected rows of both groups go back to unassigned, which is re-sorted. */
    method MoveToUnassigned(selectedProductivity: set<int>, selectedOther: set<int>)
      modifies this`unassigned, this`productivity, this`other
      ensures productivity == Kept(old(productivity), selectedProductivity)
      ensures other == Kept(old(other), selectedOther)
      ensures multiset(unassigned) == multiset(old(unassigned))
        + multiset(Moved(metadata, old(productivity), selectedProductivity))
        + multiset(Moved(metadata, old(other), selectedOther))
      ensures SortedBy(unassigned, ByText)
      ensures Stats().0 == old(Stats().0)
    {
      KeptMovedSizes(metadata, productivity, selectedProductivity);
      KeptMovedSizes(metadata, other, selectedOther);
      var restP, added := MoveSelected(metadata, productivity, unassigned, selectedProductivity);
      var restO, added2 := MoveSelected(metadata, other, added, selectedOther);
      var sorted := SortedMerge(added2);
      productivity, other, unassigned := restP, restO, sorted;
    }

    /** `sortItems()` on a list: the same items, in order, and as many of them. */
    static method SortedMerge(items: seq<Item>) returns (r: seq<Item>)
      ensures multiset(r) == multiset(items) && |r| == |items|
      ensures SortedBy(r, ByText)
    {
      SortedByText(items);
      r := SortBy(items, ByText);
      assert |r| == |multiset(r)| == |multiset(items)|;
    }

    /** `filter_apps`: lowers the text and recomputes every item's hidden flag. */
    method FilterApps(text: string)
      modifies this`unassigned, this`productivity, this`other
      ensures unassigned == Filtered(Lower(text), old(unassigned))
      ensures productivity == Filtered(Lower(text), old(productivity))
      ensures other == Filtered(Lower(text), old(other))
    {
      var lowered := Lower(text);
      unassigned := FilterList(lowered, unassigned);
      productivity := FilterList(lowered, productivity);
      other := FilterList(lowered, other);
    }

    /** `save_and_close`: stores the real names of the productivity and other
        lists, in list order, as the `app_groups` setting. */
    method SaveAndClose()
      modifies config`config, config`saved
      ensures config.config == old(config.config)["app_groups" :=
        Settings.Groups(map[Settings.Productivity := MapSeq(productivity, RealName), Settings.OtherGroup := MapSeq(other, RealName)])]
      ensures config.saved == config.config
    {
      var prod := Names(productivity);
      var oth := Names(other);
      config.Set("app_groups", Settings.Groups(map[Settings.Productivity := prod, Settings.OtherGroup := oth]));
    }

    /** `[item.data(Qt.UserRole) or item.text() for item in list]` */
    static method Names(items: seq<Item>) returns (names: seq<string>)
      ensures names == MapSeq(items, RealName)
    {
      names := [];
      for i := 0 to |items|
        invariant names == MapSeq(items[..i], RealName)
      {
        names := names + [RealName(items[i])];
      }
      assert items[..|items|] == items;
    }
  }

  /** Items made for their applications give those applications back as real
      names, unless an application named "" has a friendly name. */
  lemma RealNamesAreApps(meta: map<string, Metadata>, items: seq<Item>)
    requires AsAdded(meta, items) && FriendlyOf(meta, "") == ""
    ensures MapSeq(items, RealName) == MapSeq(items, AppOf)
  {
  }
}
