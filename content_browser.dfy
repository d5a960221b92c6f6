/**
 * The content browser's list logic: which installed collections and which
 * optional ads are listed, how the list is cut down to the current tab and
 * ordered, and how each tab remembers its selected item. Window drawing,
 * drag and drop and asset loading are not modelled; the loaded assets, the
 * toolbar's tab and a clicked list entry are inputs.
 */
module ContentBrowserModel {
  import opened Engine
  import opened Wrappers
  import Sequences

  /** ContentType, numbered Height = 0 to Audio = 4. */
  datatype ContentType = Height | Texture | Vegetation | Objects | Audio

  /** The browser's tabs, numbered in the same order. */
  datatype Tab = HeightTab | TextureTab | VegetationTab | ObjectsTab | AudioTab

  function ContentTypeValue(c: ContentType): (r: int)
    ensures 0 <= r <= 4
  {
    match c
    case Height => 0
    case Texture => 1
    case Vegetation => 2
    case Objects => 3
    case Audio => 4
  }

  /** Every tab in toolbar order. */
  const Tabs: seq<Tab> := [HeightTab, TextureTab, VegetationTab, ObjectsTab, AudioTab]

  /** A tab's number: its position in toolbar order, so it identifies the tab. */
  function TabValue(t: Tab): (r: int)
    ensures 0 <= r < |Tabs| && Tabs[r] == t
  {
    match t
    case HeightTab => 0
    case TextureTab => 1
    case VegetationTab => 2
    case ObjectsTab => 3
    case AudioTab => 4
  }

  /**
   * The content type a tab keeps, as the branches of the tab filter pair
   * them: the type with the tab's own number, so different tabs keep
   * different types.
   */
  function TabContentType(t: Tab): (r: ContentType)
    ensures ContentTypeValue(r) == TabValue(t)
  {
    match t
    case HeightTab => Height
    case TextureTab => Texture
    case VegetationTab => Vegetation
    case ObjectsTab => Objects
    case AudioTab => Audio
  }

  /** ContentData: one entry of a collection: a prefab, or the asset id of a height stamp texture (null as None). */
  datatype ContentData = ContentData(prefab: GameObject?, stamp: Option<string>)

  /**
   * BrowserContent: an installed collection or an optional ad. Equal values
   * stand for the same asset.
   */
  datatype BrowserContent =
    | Collection(contentType: ContentType, author: string, packName: string, id: string,
                 contents: seq<Option<ContentData>>)
    | Ad(contentType: ContentType, author: string, packName: string, id: string,
         requireInstalledObject: bool, installedObject: GameObject?)

  predicate IsAd(c: BrowserContent) { c.Ad? }
  predicate IsCollection(c: BrowserContent) { c.Collection? }

  /** The ad's required object is not installed. */
  predicate Missing(ad: BrowserContent)
  {
    ad.Ad? && ad.requireInstalledObject && ad.installedObject == null
  }

  /** ad blocks the collection: the same non-empty id, and the ad's required object is missing. */
  predicate Blocks(ad: BrowserContent, cc: BrowserContent)
  {
    cc.id == ad.id && cc.id != "" && Missing(ad)
  }

  predicate Blocked(cc: BrowserContent, ads: seq<BrowserContent>)
  {
    exists k :: 0 <= k < |ads| && Blocks(ads[k], cc)
  }

  /** The collection provides the ad's content: the same non-empty id or the same non-empty pack name. */
  predicate Provides(cc: BrowserContent, ad: BrowserContent)
  {
    (cc.id == ad.id && ad.id != "") || (cc.packName == ad.packName && ad.packName != "")
  }

  predicate Covered(ad: BrowserContent, ccs: seq<BrowserContent>)
  {
    exists k :: 0 <= k < |ccs| && Provides(ccs[k], ad)
  }

  function Ads(all: seq<BrowserContent>): seq<BrowserContent>
  {
    Sequences.Filter(all, IsAd)
  }

  function Collections(all: seq<BrowserContent>): seq<BrowserContent>
  {
    Sequences.Filter(all, IsCollection)
  }

  /** The collections no ad blocks, in their order. */
  function Survivors(ccs: seq<BrowserContent>, ads: seq<BrowserContent>): seq<BrowserContent>
  {
    Sequences.Filter(ccs, Unblocked(ads))
  }

  function Unblocked(ads: seq<BrowserContent>): BrowserContent -> bool
  {
    (c: BrowserContent) => !Blocked(c, ads)
  }

  /** The ads that are listed: their object is missing, or no surviving collection provides them. */
  function ListedAds(ads: seq<BrowserContent>, ccs: seq<BrowserContent>): seq<BrowserContent>
  {
    Sequences.Filter(ads, (a: BrowserContent) => Missing(a) || !Covered(a, ccs))
  }

  /** The list before tab filtering: surviving collections, then the listed ads. */
  function ContentList(all: seq<BrowserContent>): seq<BrowserContent>
  {
    var ads := Ads(all);
    var kept := Survivors(Collections(all), ads);
    kept + ListedAds(ads, kept)
  }

  /**
   * A collection is listed exactly when no ad blocks it; an ad is listed
   * exactly when its object is missing or no surviving collection
   * provides it; nothing else is listed.
   */
  lemma ContentListMembership(all: seq<BrowserContent>, c: BrowserContent)
    ensures c.Collection? ==> (c in ContentList(all) <==> c in all && !Blocked(c, Ads(all)))
    ensures c.Ad? ==>
      (c in ContentList(all) <==> c in all && (Missing(c) || !Covered(c, Survivors(Collections(all), Ads(all)))))
  {
    var ads := Ads(all);
    var ccs := Collections(all);
    var kept := Survivors(ccs, ads);
    var listed := ListedAds(ads, kept);
    FilterMembership(all, IsAd, c);
    FilterMembership(all, IsCollection, c);
    FilterMembership(ccs, Unblocked(ads), c);
    FilterMembership(ads, (a: BrowserContent) => Missing(a) || !Covered(a, kept), c);
    FilterMembership(ads, (a: BrowserContent) => Missing(a) || !Covered(a, kept), c);
    FilterMembership(ccs, Unblocked(ads), c);
    if c.Collection? && c in listed {
      FilterMembership(ads, (a: BrowserContent) => Missing(a) || !Covered(a, kept), c);
      FilterMembership(all, IsAd, c);
    }
    if c.Ad? && c in kept {
      FilterMembership(all, IsCollection, c);
    }
  }

  lemma FilterMembership<T>(s: seq<T>, p: T -> bool, x: T)
    ensures x in Sequences.Filter(s, p) <==> x in s && p(x)
  {
    var r := Sequences.Filter(s, p);
    if x in r {
      var i :| 0 <= i < |r| && r[i] == x;
    }
    if x in s && p(x) {
      var i :| 0 <= i < |s| && s[i] == x;
    }
  }

  /** HasContentForAd: a read-only scan of the collections. */
  method HasContentForAd(ad: BrowserContent, content: seq<BrowserContent>) returns (r: bool)
    ensures r <==> Covered(ad, content)
  {
    var i := 0;
    while i < |content|
      invariant 0 <= i <= |content|
      invariant forall k :: 0 <= k < i ==> !Provides(content[k], ad)
    {
      if content[i].id == ad.id && ad.id != "" {
        return true;
      }
      if content[i].packName == ad.packName && ad.packName != "" {
        return true;
      }
      i := i + 1;
    }
    return false;
  }

  /** The inner scan of the removal loop: stops at the first ad that blocks the collection. */
  method IsBlocked(cc: BrowserContent, ads: seq<BrowserContent>) returns (r: bool)
    ensures r <==> Blocked(cc, ads)
  {
    var k := 0;
    while k < |ads|
      invariant 0 <= k <= |ads|
      invariant forall m :: 0 <= m < k ==> !Blocks(ads[m], cc)
    {
      var ad := ads[k];
      if cc.id == ad.id && cc.id != "" {
        if Missing(ad) {
          return true;
        }
      }
      k := k + 1;
    }
    return false;
  }

  /** The first loop of OnGUI: the loaded assets split into ads and collections, order kept. */
  method SplitContent(all: seq<BrowserContent>) returns (ads: seq<BrowserContent>, ccs: seq<BrowserContent>)
    ensures ads == Ads(all) && ccs == Collections(all)
  {
    ads := [];
    ccs := [];
    var i := 0;
    while i < |all|
      invariant 0 <= i <= |all|
      invariant ads == Ads(all[..i]) && ccs == Collections(all[..i])
    {
      assert all[..i + 1][..i] == all[..i];
      if all[i].Ad? {
        ads := ads + [all[i]];
      }
      if all[i].Collection? {
        ccs := ccs + [all[i]];
      }
      i := i + 1;
    }
    assert all[..i] == all;
  }

  /**
   * One step of a RemoveAt(i); i-- loop: with the first i entries the kept
   * part of the first j original entries and the rest not yet looked at,
   * removing entry i or moving past it keeps that shape.
   */
  lemma RemoveStep<T>(r: seq<T>, i: nat, orig: seq<T>, j: nat, p: T -> bool)
    requires i < |r| && j < |orig| && r[..i] == Sequences.Filter(orig[..j], p) && r[i..] == orig[j..]
    ensures !p(r[i]) ==>
      (r[..i] + r[i + 1..])[..i] == Sequences.Filter(orig[..j + 1], p) && (r[..i] + r[i + 1..])[i..] == orig[j + 1..]
    ensures p(r[i]) ==> r[..i + 1] == Sequences.Filter(orig[..j + 1], p) && r[i + 1..] == orig[j + 1..]
  {
    assert orig[..j + 1][..j] == orig[..j];
    assert r[i] == orig[j];
    assert orig[j + 1..] == r[i + 1..];
    assert r[..i + 1] == r[..i] + [r[i]];
    assert (r[..i] + r[i + 1..])[..i] == r[..i];
  }

  /** At the end of such a loop the list is the kept part of the whole original. */
  lemma RemoveDone<T>(r: seq<T>, i: nat, orig: seq<T>, j: nat, p: T -> bool)
    requires i == |r| && j <= |orig| && r[..i] == Sequences.Filter(orig[..j], p) && r[i..] == orig[j..]
    ensures r == Sequences.Filter(orig, p)
  {
    assert |orig[j..]| == 0;
    assert orig[..j] == orig;
    assert r[..i] == r;
  }

  /** The removal loop: RemoveAt(i) followed by i-- on every blocked collection. */
  method RemoveBlocked(collections: seq<BrowserContent>, ads: seq<BrowserContent>) returns (ccs: seq<BrowserContent>)
    ensures ccs == Survivors(collections, ads)
  {
    ccs := collections;
    ghost var j := 0;
    var i := 0;
    while i < |ccs|
      invariant 0 <= i <= |ccs| && 0 <= j <= |collections|
      invariant ccs[..i] == Survivors(collections[..j], ads)
      invariant ccs[i..] == collections[j..]
      decreases |ccs| - i
    {
      RemoveStep(ccs, i, collections, j, Unblocked(ads));
      var blocked := IsBlocked(ccs[i], ads);
      if blocked {
        ccs := ccs[..i] + ccs[i + 1..];
      } else {
        i := i + 1;
      }
      j := j + 1;
    }
    RemoveDone(ccs, i, collections, j, Unblocked(ads));
  }

  /** The loop adding ads: each ad whose object is missing or that no collection provides. */
  method AddAds(listed: seq<BrowserContent>, ads: seq<BrowserContent>, ccs: seq<BrowserContent>)
    returns (r: seq<BrowserContent>)
    ensures r == listed + ListedAds(ads, ccs)
  {
    r := listed;
    var i := 0;
    while i < |ads|
      invariant 0 <= i <= |ads|
      invariant r == listed + ListedAds(ads[..i], ccs)
    {
      assert ads[..i + 1][..i] == ads[..i];
      var ad := ads[i];
      var has := HasContentForAd(ad, ccs);
      if Missing(ad) || !has {
        r := r + [ad];
      }
      i := i + 1;
    }
    assert ads[..i] == ads;
  }

  /** The list building of OnGUI, up to the tab filter. */
  method BuildContentList(all: seq<BrowserContent>) returns (r: seq<BrowserContent>)
    ensures r == ContentList(all)
  {
    var ads, ccs := SplitContent(all);
    ccs := RemoveBlocked(ccs, ads);
    r := AddAds(ccs, ads, ccs);
  }

  /** The items of the tab's content type, in order. */
  function TabContent(list: seq<BrowserContent>, tab: Tab): seq<BrowserContent>
  {
    Sequences.Filter(list, OfTab(tab))
  }

  function OfTab(tab: Tab): BrowserContent -> bool
  {
    (c: BrowserContent) => c.contentType == TabContentType(tab)
  }

  /** After the tab filter every item has the tab's number, and every item of that type is still there. */
  lemma TabContentProperties(list: seq<BrowserContent>, tab: Tab, c: BrowserContent)
    ensures c in TabContent(list, tab) <==> c in list && ContentTypeValue(c.contentType) == TabValue(tab)
  {
    FilterMembership(list, OfTab(tab), c);
    if ContentTypeValue(c.contentType) == TabValue(tab) {
      assert c.contentType == TabContentType(tab);
    }
  }

  /** The tab filter: RemoveAt(i) followed by i-- on each item of another content type. */
  method FilterForTab(list: seq<BrowserContent>, tab: Tab) returns (r: seq<BrowserContent>)
    ensures r == TabContent(list, tab)
  {
    r := list;
    ghost var j := 0;
    var i := 0;
    var wanted := TabContentType(tab);
    while i < |r|
      invariant 0 <= i <= |r| && 0 <= j <= |list|
      invariant r[..i] == TabContent(list[..j], tab)
      invariant r[i..] == list[j..]
      decreases |r| - i
    {
      RemoveStep(r, i, list, j, OfTab(tab));
      if r[i].contentType != wanted {
        r := r[..i] + r[i + 1..];
      } else {
        i := i + 1;
      }
      j := j + 1;
    }
    RemoveDone(r, i, list, j, OfTab(tab));
  }

  /** GetType().Name of an item. */
  function TypeName(c: BrowserContent): string
  {
    if c.Collection? then "ContentCollection" else "ContentAd"
  }

  /** The display order's key: the type name, then the pack name. */
  function DisplayKey(c: BrowserContent): (string, string)
  {
    (TypeName(c), c.packName)
  }

  /** OrderByDescending on the first part, ThenBy on the second. */
  predicate DisplayLe(a: (string, string), b: (string, string))
  {
    (a.0 != b.0 && Sequences.LexLe(b.0, a.0)) || (a.0 == b.0 && Sequences.LexLe(a.1, b.1))
  }

  lemma DisplayLeIsTotalPreorder()
    ensures Sequences.TotalPreorder(DisplayLe)
  {
    forall a, b ensures DisplayLe(a, b) || DisplayLe(b, a) {
      Sequences.LexLeTotal(a.0, b.0);
      Sequences.LexLeTotal(a.1, b.1);
    }
    forall a, b, c | DisplayLe(a, b) && DisplayLe(b, c) ensures DisplayLe(a, c) {
      if a.0 == b.0 && b.0 == c.0 {
        Sequences.LexLeTransitive(a.1, b.1, c.1);
      } else if a.0 != b.0 && b.0 != c.0 {
        Sequences.LexLeTransitive(c.0, b.0, a.0);
        if a.0 == c.0 {
          Sequences.LexLeAntisymmetric(a.0, b.0);
        }
      }
    }
  }

  /** The LINQ ordering of the tab's list. */
  function OrderForDisplay(list: seq<BrowserContent>): seq<BrowserContent>
  {
    Sequences.SortBy(list, DisplayKey, DisplayLe)
  }

  lemma {:induction false} LexLeCommonPrefix(p: string, a: string, b: string)
    ensures Sequences.LexLe(p + a, p + b) <==> Sequences.LexLe(a, b)
  {
    if |p| > 0 {
      assert (p + a)[1..] == p[1..] + a && (p + b)[1..] == p[1..] + b;
      LexLeCommonPrefix(p[1..], a, b);
    } else {
      assert p + a == a && p + b == b;
    }
  }

  /** An ad's type name sorts before a collection's, so descending order puts collections first. */
  lemma AdNameSortsFirst()
    ensures Sequences.LexLe("ContentAd", "ContentCollection")
    ensures !Sequences.LexLe("ContentCollection", "ContentAd")
  {
    LexLeCommonPrefix("Content", "Ad", "Collection");
    LexLeCommonPrefix("Content", "Collection", "Ad");
    assert "Content" + "Ad" == "ContentAd";
    assert "Content" + "Collection" == "ContentCollection";
  }

  /**
   * The displayed list is a reordering of the tab's list in which installed
   * collections precede ads and each group is in pack-name order.
   */
  lemma OrderForDisplayProperties(list: seq<BrowserContent>)
    ensures multiset(OrderForDisplay(list)) == multiset(list)
    ensures var o := OrderForDisplay(list);
      forall i, j :: 0 <= i < j < |o| ==>
        !(o[i].Ad? && o[j].Collection?) &&
        (o[i].Collection? == o[j].Collection? ==> Sequences.LexLe(o[i].packName, o[j].packName))
  {
    Sequences.SortByPermutes(list, DisplayKey, DisplayLe);
    DisplayLeIsTotalPreorder();
    Sequences.SortBySorted(list, DisplayKey, DisplayLe);
    AdNameSortsFirst();
    var o := OrderForDisplay(list);
    forall i, j | 0 <= i < j < |o|
      ensures !(o[i].Ad? && o[j].Collection?)
      ensures o[i].Collection? == o[j].Collection? ==> Sequences.LexLe(o[i].packName, o[j].packName)
    {
      assert DisplayLe(DisplayKey(o[i]), DisplayKey(o[j]));
    }
  }

  // ---------------------------------------------------------------------
  // Selection memory

  /** The old tab's remembered item as the C# code reads it: an indexer that throws on a missing key. */
  function OldSelectionAsWritten(items: map<Tab, BrowserContent>, oldTab: Tab, tab: Tab): (r: Result<Option<BrowserContent>>)
  {
    if tab == oldTab then Success(None)
    else if oldTab in items then Success(Some(items[oldTab]))
    else Failure(KeyNotFound)
  }

  /** The old tab's remembered item read with a lookup that tolerates a missing key. */
  function OldSelection(items: map<Tab, BrowserContent>, oldTab: Tab, tab: Tab): (r: Option<BrowserContent>)
    ensures r.Some? <==> tab != oldTab && oldTab in items
    ensures r.Some? ==> r.value == items[oldTab]
  {
    if tab != oldTab && oldTab in items then Some(items[oldTab]) else None
  }

  /** Switching away from a tab that never had a selection throws; in every other case both readings agree. */
  lemma OldSelectionAsWrittenThrows(items: map<Tab, BrowserContent>, oldTab: Tab, tab: Tab)
    ensures OldSelectionAsWritten(items, oldTab, tab).Failure? <==> tab != oldTab && oldTab !in items
    ensures OldSelectionAsWritten(items, oldTab, tab).Success? ==>
      OldSelectionAsWritten(items, oldTab, tab).value == OldSelection(items, oldTab, tab)
  {
  }

  /** A fresh browser (no remembered selections) throws on its first tab change. */
  lemma FirstTabChangeThrows()
    ensures OldSelectionAsWritten(map[], HeightTab, TextureTab) == Failure(KeyNotFound)
  {
  }

  /** Same pack name and author as the remembered item. */
  predicate SamePack(c: BrowserContent, o: BrowserContent)
  {
    c.packName == o.packName && c.author == o.author
  }

  /** The last item of the list matching the old selection; later matches overwrite earlier ones. */
  function LastSamePack(list: seq<BrowserContent>, o: Option<BrowserContent>): Option<BrowserContent>
  {
    if list == [] || o.None? then None
    else if SamePack(list[|list| - 1], o.value) then Some(list[|list| - 1])
    else LastSamePack(list[..|list| - 1], o)
  }

  lemma {:induction false} LastSamePackProperties(list: seq<BrowserContent>, o: Option<BrowserContent>)
    ensures LastSamePack(list, o).None? <==> o.None? || forall i :: 0 <= i < |list| ==> !SamePack(list[i], o.value)
    ensures LastSamePack(list, o).Some? ==>
      exists i :: 0 <= i < |list| && list[i] == LastSamePack(list, o).value && SamePack(list[i], o.value) &&
        forall k :: i < k < |list| ==> !SamePack(list[k], o.value)
  {
    if list != [] && o.Some? {
      var n := |list| - 1;
      if !SamePack(list[n], o.value) {
        LastSamePackProperties(list[..n], o);
        var r := LastSamePack(list, o);
        if r.Some? {
          var i :| 0 <= i < n && list[..n][i] == r.value && SamePack(list[..n][i], o.value) &&
            forall k :: i < k < n ==> !SamePack(list[..n][k], o.value);
          assert list[i] == r.value;
        }
      }
    }
  }

  /** The carry-over loop: every listed item with the old selection's pack and author becomes the tab's selection. */
  function CarriedOver(items: map<Tab, BrowserContent>, tab: Tab, list: seq<BrowserContent>, o: Option<BrowserContent>): map<Tab, BrowserContent>
  {
    var last := LastSamePack(list, o);
    if last.Some? then items[tab := last.value] else items
  }

  /** The carry-over loop of OnGUI. */
  method CarryOver(items: map<Tab, BrowserContent>, tab: Tab, list: seq<BrowserContent>, o: Option<BrowserContent>)
    returns (r: map<Tab, BrowserContent>)
    ensures r == CarriedOver(items, tab, list, o)
  {
    r := items;
    var i := 0;
    while i < |list|
      invariant 0 <= i <= |list|
      invariant r == CarriedOver(items, tab, list[..i], o)
    {
      assert list[..i + 1][..i] == list[..i];
      if o.Some? && list[i].packName == o.value.packName && list[i].author == o.value.author {
        r := r[tab := list[i]];
      }
      i := i + 1;
    }
    assert list[..i] == list;
  }

  /** The list buttons: a click remembers the clicked item for the tab. */
  function Clicked(items: map<Tab, BrowserContent>, tab: Tab, display: seq<BrowserContent>, clicked: Option<nat>): map<Tab, BrowserContent>
  {
    if clicked.Some? && clicked.value < |display| then items[tab := display[clicked.value]] else items
  }

  /** Nothing remembered for the tab and a non-empty list: the first item is remembered. */
  function DefaultFirst(items: map<Tab, BrowserContent>, tab: Tab, display: seq<BrowserContent>): map<Tab, BrowserContent>
  {
    if tab !in items && |display| > 0 then items[tab := display[0]] else items
  }

  /** The list buttons and the first-item default of OnGUI. */
  method PickSelection(items: map<Tab, BrowserContent>, tab: Tab, display: seq<BrowserContent>, clicked: Option<nat>)
    returns (r: map<Tab, BrowserContent>)
    ensures r == DefaultFirst(Clicked(items, tab, display, clicked), tab, display)
  {
    r := items;
    if clicked.Some? && clicked.value < |display| {
      r := r[tab := display[clicked.value]];
    }
    if tab !in r && |display| > 0 {
      r := r[tab := display[0]];
    }
  }

  /**
   * The remembered selections after one OnGUI pass. Only the current tab's
   * memory changes, a non-empty list always leaves a selection for the
   * tab, and a click on a displayed item wins.
   */
  function Selections(items: map<Tab, BrowserContent>, oldTab: Tab, tab: Tab, listed: seq<BrowserContent>,
                      display: seq<BrowserContent>, clicked: Option<nat>): (r: map<Tab, BrowserContent>)
    ensures forall t :: t != tab ==> (t in r <==> t in items) && (t in items ==> r[t] == items[t])
    ensures |display| > 0 ==> tab in r
    ensures clicked.Some? && clicked.value < |display| ==> tab in r && r[tab] == display[clicked.value]
  {
    DefaultFirst(Clicked(CarriedOver(items, tab, listed, OldSelection(items, oldTab, tab)), tab, display, clicked), tab, display)
  }

  /**
   * Without a click: an item with the old tab's pack name and author is
   * taken over (the last such one); failing that, a tab with no selection
   * gets the first displayed item; otherwise the selection stays.
   */
  lemma SelectionRules(items: map<Tab, BrowserContent>, oldTab: Tab, tab: Tab, listed: seq<BrowserContent>,
                       display: seq<BrowserContent>, clicked: Option<nat>)
    ensures var r := Selections(items, oldTab, tab, listed, display, clicked);
      var o := OldSelection(items, oldTab, tab);
      clicked.None? ==>
        (o.Some? && (exists i :: 0 <= i < |listed| && SamePack(listed[i], o.value)) ==>
           tab in r && r[tab] in listed && SamePack(r[tab], o.value)) &&
        ((o.None? || forall i :: 0 <= i < |listed| ==> !SamePack(listed[i], o.value)) ==>
           r == DefaultFirst(items, tab, display))
  {
    var o := OldSelection(items, oldTab, tab);
    LastSamePackProperties(listed, o);
  }

  /**
   * What CreateInstance makes: a copy of the entry's prefab, scaled to the
   * default stamp size on the height, texture and vegetation tabs, or a new
   * object carrying a height stamp with the entry's texture, scaled to the
   * terrains' bounds when shift was held and to the default size otherwise.
   */
  datatype Instance =
    | PrefabInstance(prefab: GameObject, defaultScale: bool)
    | StampInstance(stamp: string, autoScale: bool)

  /** The tabs on which a prefab copy gets the default stamp scale. */
  predicate ScalesPrefab(tab: Tab)
  {
    tab == HeightTab || tab == TextureTab || tab == VegetationTab
  }

  /** The instance made from an entry that passed the guard; stampLoads says whether the stamp texture was found. */
  function InstanceOf(entry: ContentData, tab: Tab, shift: bool, stampLoads: bool): Option<Instance>
  {
    if entry.prefab != null then Some(PrefabInstance(entry.prefab, ScalesPrefab(tab)))
    else if entry.stamp.Some? && tab == HeightTab && stampLoads then Some(StampInstance(entry.stamp.value, shift))
    else None
  }

  /**
   * The instance CreateInstance makes, as written: the guard rejects
   * indices below zero and above the length but lets the length itself
   * through, and the array access then throws.
   */
  function CreateInstanceAsWritten(selected: Option<BrowserContent>, idx: int, tab: Tab, shift: bool, stampLoads: bool)
    : (r: Result<Option<Instance>>)
  {
    if selected.None? || !selected.value.Collection? || idx < 0 || idx > |selected.value.contents| then Success(None)
    else if idx == |selected.value.contents| then Failure(IndexOutOfRange)
    else if selected.value.contents[idx].None? then Success(None)
    else Success(InstanceOf(selected.value.contents[idx].value, tab, shift, stampLoads))
  }

  /**
   * The instance CreateInstance makes, with the guard rejecting every index
   * outside the array. A prefab wins over a stamp; a stamp is used only on
   * the height tab and only when its texture loads.
   */
  function CreateInstance(selected: Option<BrowserContent>, idx: int, tab: Tab, shift: bool, stampLoads: bool)
    : (r: Option<Instance>)
    ensures r.Some? <==>
      (selected.Some? && selected.value.Collection? && 0 <= idx < |selected.value.contents| &&
       selected.value.contents[idx].Some? &&
       (selected.value.contents[idx].value.prefab != null ||
        (selected.value.contents[idx].value.stamp.Some? && tab == HeightTab && stampLoads)))
    ensures r.Some? && r.value.PrefabInstance? ==>
      r.value.prefab == selected.value.contents[idx].value.prefab && (r.value.defaultScale <==> ScalesPrefab(tab))
    ensures r.Some? && r.value.StampInstance? ==>
      var entry := selected.value.contents[idx].value;
      entry.prefab == null && entry.stamp == Some(r.value.stamp) && tab == HeightTab && (r.value.autoScale <==> shift)
  {
    if selected.None? || !selected.value.Collection? || idx < 0 || idx >= |selected.value.contents| then None
    else if selected.value.contents[idx].None? then None
    else InstanceOf(selected.value.contents[idx].value, tab, shift, stampLoads)
  }

  /** The as-written guard fails exactly at the index equal to the length, and agrees with the corrected one elsewhere. */
  lemma CreateInstanceGuardOffByOne(selected: Option<BrowserContent>, idx: int, tab: Tab, shift: bool, stampLoads: bool)
    ensures CreateInstanceAsWritten(selected, idx, tab, shift, stampLoads).Failure? <==>
      selected.Some? && selected.value.Collection? && idx == |selected.value.contents|
    ensures CreateInstanceAsWritten(selected, idx, tab, shift, stampLoads).Success? ==>
      CreateInstanceAsWritten(selected, idx, tab, shift, stampLoads).value == CreateInstance(selected, idx, tab, shift, stampLoads)
  {
  }

  /** The list and selection steps of one OnGUI pass, on values. */
  method ListAndSelect(all: seq<BrowserContent>, selected: map<Tab, BrowserContent>, oldTab: Tab, newTab: Tab, clicked: Option<nat>)
    returns (display: seq<BrowserContent>, items: map<Tab, BrowserContent>)
    ensures display == OrderForDisplay(TabContent(ContentList(all), newTab))
    ensures items == Selections(selected, oldTab, newTab, TabContent(ContentList(all), newTab), display, clicked)
  {
    var list := BuildContentList(all);
    var oldContent: Option<BrowserContent> := None;
    if newTab != oldTab && oldTab in selected {
      oldContent := Some(selected[oldTab]);
    }
    list := FilterForTab(list, newTab);
    items := CarryOver(selected, newTab, list, oldContent);
    display := OrderForDisplay(list);
    items := PickSelection(items, newTab, display, clicked);
  }

  /** The window's list state. tab is static in the C# class; one window is modelled. */
  class ContentBrowser {
    var tab: Tab
    var allContent: Option<seq<BrowserContent>>
    var filteredContent: seq<BrowserContent>
    var selectedContent: Option<BrowserContent>
    var selectedTabItems: map<Tab, BrowserContent>

    constructor ()
      ensures tab == HeightTab && allContent.None? && filteredContent == []
      ensures selectedContent.None? && selectedTabItems == map[]
    {
      tab := HeightTab;
      allContent := None;
      filteredContent := [];
      selectedContent := None;
      selectedTabItems := map[];
    }

    /**
     * The list part of OnGUI. loaded is what LoadAllInstances returns when
     * nothing is loaded yet, newTab the toolbar's choice and clicked the list
     * button pressed in this pass, if any. The old tab's selection is looked
     * up without throwing.
     */
    method OnGUI(loaded: seq<BrowserContent>, newTab: Tab, clicked: Option<nat>)
      modifies this
      ensures allContent == Some(if old(allContent).Some? then old(allContent).value else loaded)
      ensures tab == newTab
      ensures filteredContent == OrderForDisplay(TabContent(ContentList(allContent.value), newTab))
      ensures selectedTabItems == Selections(old(selectedTabItems), old(tab), newTab,
        TabContent(ContentList(allContent.value), newTab), filteredContent, clicked)
      ensures selectedContent == if newTab in selectedTabItems then Some(selectedTabItems[newTab]) else None
    {
      var all := if allContent.Some? then allContent.value else loaded;
      var display, items := ListAndSelect(all, selectedTabItems, tab, newTab, clicked);
      allContent := Some(all);
      tab := newTab;
      filteredContent := display;
      selectedTabItems := items;
      selectedContent := if tab in items then Some(items[tab]) else None;
    }
  }
}
