/** The table of contents of main.js: `initializeTOC` empties the `<tocGroup>`
    group of its old section groups, and `createTOC` fills it with one group
    per section (a section entry and the pages after it) or per page without
    a section. */
module Toc {
  import opened Js
  import opened Layers
  import opened Symbols
  import Numbering

  type TocEntry = Numbering.TocEntry

  /** The text `tocArray` holds for an absent title. */
  const Undef: string := "<undefined>"

  /** `initColWidth`: the width every fresh entry gets. */
  const InitColWidth: int := 100

  // ---------------------------------------------------------------------
  // initializeTOC

  /** `group.removeLayer(layer)`: the first layer equal to `layer` leaves. */
  function RemoveLayer(ls: seq<Layer>, layer: Layer): (r: seq<Layer>)
    ensures layer in ls ==> |r| == |ls| - 1
    ensures layer !in ls ==> r == ls
  {
    if ls == [] then []
    else if ls[0] == layer then ls[1..]
    else [ls[0]] + RemoveLayer(ls[1..], layer)
  }

  /** The layers not of class `cls`, in order. */
  function WithoutClass(ls: seq<Layer>, cls: LayerClass): (r: seq<Layer>)
    ensures |r| <= |ls|
    ensures forall k :: 0 <= k < |r| ==> r[k].cls != cls
  {
    if ls == [] then []
    else (if ls[0].cls == cls then [] else [ls[0]]) + WithoutClass(ls[1..], cls)
  }

  /** Without a layer of the class the filter keeps every layer. */
  lemma {:induction false} WithoutClassNone(ls: seq<Layer>, cls: LayerClass)
    requires FilterClass(ls, cls) == []
    ensures WithoutClass(ls, cls) == ls
  {
    if ls != [] {
      WithoutClassNone(ls[1..], cls);
    }
  }

  /** The filter keeps exactly the layers of other classes. */
  lemma {:induction false} WithoutClassMembers(ls: seq<Layer>, cls: LayerClass)
    ensures forall x :: x in WithoutClass(ls, cls) <==> x in ls && x.cls != cls
  {
    if ls != [] {
      WithoutClassMembers(ls[1..], cls);
      assert ls == [ls[0]] + ls[1..];
    }
  }

  /** Removing the first layer of the class drops it from the layers of the
      class and leaves the others. */
  lemma {:induction false} RemoveFirstOfClass(ls: seq<Layer>, cls: LayerClass)
    requires FilterClass(ls, cls) != []
    ensures var r := RemoveLayer(ls, FilterClass(ls, cls)[0]);
      FilterClass(r, cls) == FilterClass(ls, cls)[1..] && WithoutClass(r, cls) == WithoutClass(ls, cls)
  {
    if ls[0].cls != cls {
      RemoveFirstOfClass(ls[1..], cls);
      assert FilterClass(ls, cls) == FilterClass(ls[1..], cls);
      var r := RemoveLayer(ls[1..], FilterClass(ls, cls)[0]);
      assert ([ls[0]] + r)[1..] == r;
    }
  }

  /** Specification of `initializeTOC`: the first `<tocGroup>` group of the
      page, its direct group layers removed. */
  function InitializedGroup(pageLayers: seq<Layer>): Option<Layer>
  {
    match FirstNamed(ChildrenOfAll(pageLayers), LayerGroup, "<tocGroup>")
    case None => None
    case Some(g) => Some(g.(layers := WithoutClass(g.layers, LayerGroup)))
  }

  /** `initializeTOC(doc)` on a page whose top-level layers are `pageLayers`:
      true and the emptied group when the page has a `<tocGroup>` group,
      undefined otherwise. */
  method InitializeTOC(pageLayers: seq<Layer>) returns (r: JsValue, tocGroup: Option<Layer>)
    ensures tocGroup == InitializedGroup(pageLayers)
    ensures r == if tocGroup.Some? then Bool(true) else Undefined
  {
    var found := LayerWithName(ChildrenOfAll(pageLayers), LayerGroup, "<tocGroup>");
    if found.Some? {
      var layers := RemoveGroups(found.value.layers);
      return Bool(true), Some(found.value.(layers := layers));
    } else {
      return Undefined, None;
    }
  }

  /** The `forEach` of `initializeTOC`: every direct group layer is removed, one at a time. */
  method RemoveGroups(layers: seq<Layer>) returns (r: seq<Layer>)
    ensures r == WithoutClass(layers, LayerGroup)
  {
    var groups := LayersWithClass(layers, LayerGroup);
    r := layers;
    var i := 0;
    while i < |groups|
      invariant 0 <= i <= |groups|
      invariant FilterClass(r, LayerGroup) == groups[i..]
      invariant WithoutClass(r, LayerGroup) == WithoutClass(layers, LayerGroup)
    {
      RemoveFirstOfClass(r, LayerGroup);
      r := RemoveLayer(r, groups[i]);
      i := i + 1;
    }
    WithoutClassNone(r, LayerGroup);
  }

  /** After `initializeTOC` the group holds no group layer, and every other
      layer it held is still there. */
  lemma InitializedMeaning(pageLayers: seq<Layer>)
    ensures InitializedGroup(pageLayers).Some? <==> FirstNamed(ChildrenOfAll(pageLayers), LayerGroup, "<tocGroup>").Some?
    ensures InitializedGroup(pageLayers).Some? ==>
      var before := FirstNamed(ChildrenOfAll(pageLayers), LayerGroup, "<tocGroup>").value;
      var after := InitializedGroup(pageLayers).value;
      && after.name == "<tocGroup>" && after.cls == LayerGroup
      && (forall x :: x in after.layers <==> x in before.layers && x.cls != LayerGroup)
  {
    var found := FirstNamed(ChildrenOfAll(pageLayers), LayerGroup, "<tocGroup>");
    if found.Some? {
      NamedLayersMembers(ChildrenOfAll(pageLayers), LayerGroup, "<tocGroup>");
      assert found.value in NamedLayers(ChildrenOfAll(pageLayers), LayerGroup, "<tocGroup>");
      WithoutClassMembers(found.value.layers, LayerGroup);
    }
  }

  // ---------------------------------------------------------------------
  // createTOC: the entries and the state of its loop

  /** `tocItem.sectionTitle != '<undefined>'`: the entry heads a section. */
  predicate IsSection(e: TocEntry)
  {
    e.sectionTitle != Undef
  }

  /** The title an entry shows: its section title, else its page title. */
  function EntryTitle(e: TocEntry): string
  {
    if IsSection(e) then e.sectionTitle else e.pageTitle
  }

  /** `curGroupName` of a group that starts with the entry. */
  function GroupName(e: TocEntry): string
  {
    "<tocSection> " + EntryTitle(e)
  }

  /** The name an entry's instance gets. */
  function EntryName(e: TocEntry): string
  {
    (if IsSection(e) then "<tocSectionEntry>" else "<tocPageEntry>") + " " + EntryTitle(e)
  }

  /** Whether the loop handles the entry at all: with section headings only,
      just the section entries. */
  predicate Listed(e: TocEntry, showSectionsOnly: bool)
  {
    (showSectionsOnly && IsSection(e)) || !showSectionsOnly
  }

  /** The entries the loop handles, in order. */
  function ListedEntries(entries: seq<TocEntry>, showSectionsOnly: bool): (r: seq<TocEntry>)
    ensures |r| <= |entries|
  {
    if entries == [] then []
    else
      var e := entries[|entries| - 1];
      ListedEntries(entries[..|entries| - 1], showSectionsOnly) + (if Listed(e, showSectionsOnly) then [e] else [])
  }

  /** An instance placed in the table, with the entry it stands for (the
      source keeps the entry's title and number on the instance object). */
  datatype TocItem = TocItem(entry: TocEntry, instance: Layer)

  /** A group the loop has closed: its name and its instances. */
  datatype TocRun = TocRun(name: string, items: seq<TocItem>)

  /** What `createTOC` looks up before its loop. */
  datatype TocSetup = TocSetup(
    showSectionsOnly: bool,
    sectionMaster: Option<Layer>,
    pageMaster: Option<Layer>,
    hasGroup: bool,
    freshOverrides: map<string, JsValue>)

  /** The variables of the loop: the closed groups, `curGroup`,
      `curGroupName`, `runningTop`, `isPartOfSection`, `instance` and
      `tocItemCount`. */
  datatype Building = Building(
    runs: seq<TocRun>,
    curGroup: seq<TocItem>,
    curGroupName: string,
    runningTop: int,
    isPartOfSection: bool,
    instance: Option<Layer>,
    count: nat)

  const Start: Building := Building([], [], "", 0, false, None, 0)

  /** `master.newSymbolInstance()` followed by `setWidth(initColWidth)`. */
  function FreshInstance(master: Layer, freshOverrides: map<string, JsValue>): Layer
  {
    Layer(SymbolInstance, "", "", Frame(0, 0, InitColWidth, master.frame.height), [], "", Children(master), freshOverrides)
  }

  /** The instance an entry uses and the new `isPartOfSection`: a fresh section
      instance, a fresh page instance, or else the previous instance again. */
  function PickInstance(setup: TocSetup, e: TocEntry, b: Building): Outcome<(Layer, bool)>
  {
    if IsSection(e) then
      if setup.sectionMaster.None? then TypeError("tocSectionMaster is undefined")
      else Done((FreshInstance(setup.sectionMaster.value, setup.freshOverrides), true))
    else if e.pageTitle != Undef then
      if setup.pageMaster.None? then TypeError("tocPageMaster is undefined")
      else Done((FreshInstance(setup.pageMaster.value, setup.freshOverrides), b.isPartOfSection))
    else if b.instance.None? then TypeError("instance is undefined")
    else Done((b.instance.value, b.isPartOfSection))
  }

  /** The instance named after the entry and moved to the left edge at `top`. */
  function Placed(inst: Layer, e: TocEntry, top: int): Layer
  {
    inst.(name := EntryName(e), frame := inst.frame.(x := 0, y := top))
  }

  /** The test that closes the current group after entry `i`. */
  predicate Closes(setup: TocSetup, entries: seq<TocEntry>, i: nat, part: bool)
    requires i < |entries|
  {
    i == |entries| - 1 || !part || IsSection(entries[i + 1]) || setup.showSectionsOnly
  }

  /** The loop variables after an instance is placed: it joins the current
      group, which is closed and handed to the table when `closes` holds. */
  function After(b: Building, e: TocEntry, inst: Layer, part: bool, closes: bool): Building
  {
    var name := if b.curGroup == [] then GroupName(e) else b.curGroupName;
    var cur := b.curGroup + [TocItem(e, inst)];
    var top := b.runningTop + inst.frame.height;
    if closes then Building(b.runs + [TocRun(name, cur)], [], name, top, false, Some(inst), b.count + 1)
    else Building(b.runs, cur, name, top, part, Some(inst), b.count + 1)
  }

  /** Specification of one turn of the loop of `createTOC`. */
  function Step(setup: TocSetup, entries: seq<TocEntry>, i: nat, b: Building): Outcome<Building>
    requires i < |entries|
  {
    var e := entries[i];
    if !Listed(e, setup.showSectionsOnly) then Done(b)
    else
      match PickInstance(setup, e, b)
      case TypeError(w) => TypeError(w)
      case Done(picked) =>
        var closes := Closes(setup, entries, i, picked.1);
        if closes && !setup.hasGroup then TypeError("tocGroup is undefined")
        else Done(After(b, e, Placed(picked.0, e, b.runningTop), picked.1, closes))
  }

  /** The loop state after the first `n` entries, or the error it throws. */
  function Build(setup: TocSetup, entries: seq<TocEntry>, n: nat): Outcome<Building>
    requires n <= |entries|
  {
    if n == 0 then Done(Start)
    else
      match Build(setup, entries, n - 1)
      case TypeError(w) => TypeError(w)
      case Done(b) => Step(setup, entries, n - 1, b)
  }

  // ---------------------------------------------------------------------
  // createTOC: the groups it adds and the override pass after the loop

  /** The instance with its `<tocPageNumber>`, `<tocPageTitle>` and
      `<tocSectionTitle>` overrides written from its entry. */
  function Filled(item: TocItem): Layer
  {
    var title := Str(EntryTitle(item.entry));
    var i1 := SetOverride(item.instance, "<tocPageNumber>", Str(NatToString(item.entry.pageNumber))).0;
    var i2 := SetOverride(i1, "<tocPageTitle>", title).0;
    SetOverride(i2, "<tocSectionTitle>", title).0
  }

  /** The filled instances of a group, in order. */
  function FilledAll(items: seq<TocItem>): seq<Layer>
  {
    if items == [] then [] else FilledAll(items[..|items| - 1]) + [Filled(items[|items| - 1])]
  }

  /** The instances of a group as placed, before the override pass. */
  function InstancesOf(items: seq<TocItem>): seq<Layer>
  {
    if items == [] then [] else InstancesOf(items[..|items| - 1]) + [items[|items| - 1].instance]
  }

  /** The group layer `createTOC` builds for a closed group; `fit` is what
      `sizeGroupToContent` makes of the group's frame. */
  function RunGroup(run: TocRun, fit: seq<Layer> -> Frame): Layer
  {
    Layer(LayerGroup, "", run.name, fit(InstancesOf(run.items)), FilledAll(run.items), "", [], map[])
  }

  /** The group layers of the closed groups, in order. */
  function RunGroups(runs: seq<TocRun>, fit: seq<Layer> -> Frame): (r: seq<Layer>)
    ensures |r| == |runs|
  {
    if runs == [] then [] else RunGroups(runs[..|runs| - 1], fit) + [RunGroup(runs[|runs| - 1], fit)]
  }

  /** Symbol instances the group already holds outside the new groups: the
      override pass reads `pageNumber` from them, which they lack. */
  function StrayInstances(g: Layer): seq<Layer>
  {
    FilterClass(ChildrenOfAll(g.layers), SymbolInstance)
  }

  /** The setup of the loop, from the document's masters and the group. */
  function SetupOf(showSectionsOnly: bool, masters: seq<Layer>, tocGroup: Option<Layer>, freshOverrides: map<string, JsValue>): TocSetup
  {
    TocSetup(showSectionsOnly, MasterWithOverrideName(masters, "<tocSectionTitle>"),
             MasterWithOverrideName(masters, "<tocPageTitle>"), tocGroup.Some?, freshOverrides)
  }

  /** Specification of `createTOC(doc, tocArray, summary)` on the emptied
      `<tocGroup>`: the group with the new groups added at the end. */
  function CreateSpec(showSectionsOnly: bool, masters: seq<Layer>, tocGroup: Option<Layer>,
                      freshOverrides: map<string, JsValue>, fit: seq<Layer> -> Frame, entries: seq<TocEntry>): Outcome<Layer>
  {
    match Build(SetupOf(showSectionsOnly, masters, tocGroup, freshOverrides), entries, |entries|)
    case TypeError(w) => TypeError(w)
    case Done(b) => Finish(tocGroup, b.runs, fit)
  }

  /** What follows the loop of `createTOC`: the closed groups are in the
      table, and the override pass runs over every symbol instance in it. */
  function Finish(tocGroup: Option<Layer>, runs: seq<TocRun>, fit: seq<Layer> -> Frame): Outcome<Layer>
  {
    if tocGroup.None? then TypeError("tocGroup is undefined")
    else if StrayInstances(tocGroup.value) != [] then TypeError("instance.pageNumber is undefined")
    else Done(tocGroup.value.(layers := tocGroup.value.layers + RunGroups(runs, fit)))
  }

  /** The summary line of `createTOC`. */
  function CountLine(count: nat): string
  {
    NatToString(count) + " items added to TOC"
  }

  /** `createTOC(doc, tocArray, summary)`: the filled group, and the summary
      with the count line when the function returns normally. */
  method CreateTOC(showSectionsOnly: bool, masters: seq<Layer>, tocGroup: Option<Layer>,
                   freshOverrides: map<string, JsValue>, fit: seq<Layer> -> Frame,
                   entries: seq<TocEntry>, summary: seq<string>)
    returns (r: Outcome<Layer>, out: seq<string>)
    ensures r == CreateSpec(showSectionsOnly, masters, tocGroup, freshOverrides, fit, entries)
    ensures r.Done? ==> out == summary + [CountLine(|ListedEntries(entries, showSectionsOnly)|)]
    ensures r.TypeError? ==> out == summary
  {
    var tocSectionMaster := SymbolMasterWithOverrideName(masters, "<tocSectionTitle>");
    var tocPageMaster := SymbolMasterWithOverrideName(masters, "<tocPageTitle>");
    var setup := TocSetup(showSectionsOnly, tocSectionMaster, tocPageMaster, tocGroup.Some?, freshOverrides);
    var built := BuildRuns(setup, entries);
    if built.TypeError? {
      return TypeError(built.what), summary;
    }
    if tocGroup.None? {
      return TypeError("tocGroup is undefined"), summary;
    }
    var stray := LayersWithClass(ChildrenOfAll(tocGroup.value.layers), SymbolInstance);
    if stray != [] {
      return TypeError("instance.pageNumber is undefined"), summary;
    }
    var groups := MakeGroups(built.value.runs, fit);
    r := Done(tocGroup.value.(layers := tocGroup.value.layers + groups));
    BuildMeaning(setup, entries);
    out := summary + [CountLine(built.value.count)];
  }

  /** Once the loop has thrown, the outcome stays that error. */
  lemma {:induction false} BuildFailed(setup: TocSetup, entries: seq<TocEntry>, n: nat, m: nat)
    requires n <= m <= |entries| && Build(setup, entries, n).TypeError?
    ensures Build(setup, entries, m) == Build(setup, entries, n)
    decreases m
  {
    if m > n {
      BuildFailed(setup, entries, n, m - 1);
    }
  }

  /** The loop of `createTOC` over `tocArray`. */
  method BuildRuns(setup: TocSetup, entries: seq<TocEntry>) returns (r: Outcome<Building>)
    ensures r == Build(setup, entries, |entries|)
  {
    var b := Start;
    var i := 0;
    while i < |entries|
      invariant 0 <= i <= |entries|
      invariant Build(setup, entries, i) == Done(b)
    {
      var next := Turn(setup, entries, i, b);
      BuildNext(setup, entries, i, b);
      if next.TypeError? {
        BuildFailed(setup, entries, i + 1, |entries|);
        return next;
      }
      b := next.value;
      i := i + 1;
    }
    return Done(b);
  }

  /** After `i` entries without a throw, one more entry is one more step. */
  lemma BuildNext(setup: TocSetup, entries: seq<TocEntry>, i: nat, b: Building)
    requires i < |entries| && Build(setup, entries, i) == Done(b)
    ensures Build(setup, entries, i + 1) == Step(setup, entries, i, b)
  {
  }

  /** The body of the loop of `createTOC` for `tocArray[i]`. */
  method Turn(setup: TocSetup, entries: seq<TocEntry>, i: nat, b: Building) returns (r: Outcome<Building>)
    requires i < |entries|
    ensures r == Step(setup, entries, i, b)
  {
    var runs, curGroup, curGroupName := b.runs, b.curGroup, b.curGroupName;
    var runningTop, isPartOfSection, instance, tocItemCount := b.runningTop, b.isPartOfSection, b.instance, b.count;
    var tocItem := entries[i];
    if (setup.showSectionsOnly && tocItem.sectionTitle != Undef) || !setup.showSectionsOnly {
      tocItemCount := tocItemCount + 1;
      if |curGroup| == 0 {
        curGroupName := GroupName(tocItem);
      }
      if tocItem.sectionTitle != Undef {
        if setup.sectionMaster.None? {
          return TypeError("tocSectionMaster is undefined");
        }
        instance := Some(FreshInstance(setup.sectionMaster.value, setup.freshOverrides));
        isPartOfSection := true;
      } else if tocItem.pageTitle != Undef {
        if setup.pageMaster.None? {
          return TypeError("tocPageMaster is undefined");
        }
        instance := Some(FreshInstance(setup.pageMaster.value, setup.freshOverrides));
      }
      if instance.None? {
        return TypeError("instance is undefined");
      }
      instance := Some(Placed(instance.value, tocItem, runningTop));
      runningTop := runningTop + instance.value.frame.height;
      curGroup := curGroup + [TocItem(tocItem, instance.value)];
      if i == |entries| - 1 || !isPartOfSection || entries[i + 1].sectionTitle != Undef || setup.showSectionsOnly {
        if !setup.hasGroup {
          return TypeError("tocGroup is undefined");
        }
        runs := runs + [TocRun(curGroupName, curGroup)];
        curGroup := [];
        isPartOfSection := false;
      }
    }
    return Done(Building(runs, curGroup, curGroupName, runningTop, isPartOfSection, instance, tocItemCount));
  }

  /** The groups `createTOC` adds, one per closed group, each filled by the
      override pass. */
  method MakeGroups(runs: seq<TocRun>, fit: seq<Layer> -> Frame) returns (groups: seq<Layer>)
    ensures groups == RunGroups(runs, fit)
  {
    groups := [];
    var i := 0;
    while i < |runs|
      invariant 0 <= i <= |runs|
      invariant groups == RunGroups(runs[..i], fit)
    {
      assert runs[..i + 1][..i] == runs[..i];
      var layers := FillInstances(runs[i].items);
      groups := groups + [Layer(LayerGroup, "", runs[i].name, fit(InstancesOf(runs[i].items)), layers, "", [], map[])];
      i := i + 1;
    }
    assert runs[..i] == runs;
  }

  /** The override pass of `createTOC` over one group's instances. */
  method FillInstances(items: seq<TocItem>) returns (layers: seq<Layer>)
    ensures layers == FilledAll(items)
  {
    layers := [];
    var i := 0;
    while i < |items|
      invariant 0 <= i <= |items|
      invariant layers == FilledAll(items[..i])
    {
      assert items[..i + 1][..i] == items[..i];
      var instance := items[i].instance;
      var title := EntryTitle(items[i].entry);
      var written;
      instance, written := SetOverrideText(instance, "<tocPageNumber>", Str(NatToString(items[i].entry.pageNumber)));
      instance, written := SetOverrideText(instance, "<tocPageTitle>", Str(title));
      instance, written := SetOverrideText(instance, "<tocSectionTitle>", Str(title));
      layers := layers + [instance];
      i := i + 1;
    }
    assert items[..i] == items;
  }

  // ---------------------------------------------------------------------
  // what the loop of createTOC promises

  /** All placed instances: those of the closed groups, then the open group. */
  function Items(runs: seq<TocRun>): seq<TocItem>
  {
    if runs == [] then [] else Items(runs[..|runs| - 1]) + runs[|runs| - 1].items
  }

  /** The entries the instances stand for. */
  function EntriesOf(items: seq<TocItem>): (r: seq<TocEntry>)
    ensures |r| == |items|
  {
    if items == [] then [] else EntriesOf(items[..|items| - 1]) + [items[|items| - 1].entry]
  }

  /** The total height of the instances. */
  function SumHeights(items: seq<TocItem>): int
  {
    if items == [] then 0 else SumHeights(items[..|items| - 1]) + items[|items| - 1].instance.frame.height
  }

  /** Each instance sits at the left edge, right below the ones before it. */
  predicate Stacked(items: seq<TocItem>)
  {
    forall k :: 0 <= k < |items| ==> items[k].instance.frame.x == 0 && items[k].instance.frame.y == SumHeights(items[..k])
  }

  /** A closed group is one entry, or a section entry followed by entries
      that are not sections; with section headings only it is one entry; it
      is named after its first entry. */
  predicate RunShaped(run: TocRun, showSectionsOnly: bool)
  {
    && |run.items| >= 1
    && run.name == GroupName(run.items[0].entry)
    && (showSectionsOnly ==> |run.items| == 1)
    && (|run.items| > 1 ==> IsSection(run.items[0].entry))
    && (forall k :: 1 <= k < |run.items| ==> !IsSection(run.items[k].entry))
  }

  predicate RunsShaped(runs: seq<TocRun>, showSectionsOnly: bool)
  {
    forall r :: 0 <= r < |runs| ==> RunShaped(runs[r], showSectionsOnly)
  }

  /** An open group is a section entry and entries after it that are not
      sections, and the next entry does not head a section. */
  predicate OpenShaped(setup: TocSetup, entries: seq<TocEntry>, n: nat, b: Building)
  {
    && (b.curGroup == [] ==> !b.isPartOfSection)
    && (b.curGroup != [] ==>
          && !setup.showSectionsOnly && b.isPartOfSection
          && n < |entries| && !IsSection(entries[n])
          && IsSection(b.curGroup[0].entry)
          && b.curGroupName == GroupName(b.curGroup[0].entry)
          && forall k :: 1 <= k < |b.curGroup| ==> !IsSection(b.curGroup[k].entry))
  }

  /** All instances placed so far, in order. */
  function AllItems(b: Building): seq<TocItem>
  {
    Items(b.runs) + b.curGroup
  }

  /** The loop has placed one instance per listed entry so far, in order. */
  predicate Counted(setup: TocSetup, entries: seq<TocEntry>, n: nat, b: Building)
    requires n <= |entries|
  {
    && EntriesOf(AllItems(b)) == ListedEntries(entries[..n], setup.showSectionsOnly)
    && b.count == |AllItems(b)|
    && (b.instance.Some? <==> AllItems(b) != [])
  }

  /** The closed groups and the open one have their shapes. */
  predicate Shaped(setup: TocSetup, entries: seq<TocEntry>, n: nat, b: Building)
  {
    RunsShaped(b.runs, setup.showSectionsOnly) && OpenShaped(setup, entries, n, b)
  }

  /** The instances sit one below the other and `runningTop` is their bottom. */
  predicate StackedState(b: Building)
  {
    Stacked(AllItems(b)) && b.runningTop == SumHeights(AllItems(b))
  }

  /** One more instance at the end of the stack. */
  lemma StackedAppend(items: seq<TocItem>, item: TocItem)
    requires Stacked(items)
    requires item.instance.frame.x == 0 && item.instance.frame.y == SumHeights(items)
    ensures Stacked(items + [item])
    ensures SumHeights(items + [item]) == SumHeights(items) + item.instance.frame.height
  {
    var all := items + [item];
    assert all[..|items|] == items;
    forall k | 0 <= k < |all|
      ensures all[k].instance.frame.x == 0 && all[k].instance.frame.y == SumHeights(all[..k])
    {
      if k < |items| {
        assert all[..k] == items[..k];
      }
    }
  }

  /** The entries of one more instance. */
  lemma EntriesOfAppend(items: seq<TocItem>, item: TocItem)
    ensures EntriesOf(items + [item]) == EntriesOf(items) + [item.entry]
  {
    assert (items + [item])[..|items|] == items;
  }

  /** Closing a group moves its instances, in order, to the closed ones. */
  lemma ItemsAppend(runs: seq<TocRun>, run: TocRun)
    ensures Items(runs + [run]) == Items(runs) + run.items
  {
    assert (runs + [run])[..|runs|] == runs;
  }

  /** The listed entries of one more entry. */
  lemma ListedStep(entries: seq<TocEntry>, n: nat, showSectionsOnly: bool)
    requires n < |entries|
    ensures ListedEntries(entries[..n + 1], showSectionsOnly)
            == ListedEntries(entries[..n], showSectionsOnly) + (if Listed(entries[n], showSectionsOnly) then [entries[n]] else [])
  {
    assert entries[..n + 1][..n] == entries[..n];
  }

  /** A placed instance comes after all the earlier ones, closed or not. */
  lemma AllAfter(b: Building, e: TocEntry, inst: Layer, part: bool, closes: bool)
    ensures AllItems(After(b, e, inst, part, closes)) == AllItems(b) + [TocItem(e, inst)]
  {
    var name := if b.curGroup == [] then GroupName(e) else b.curGroupName;
    if closes {
      ItemsAppend(b.runs, TocRun(name, b.curGroup + [TocItem(e, inst)]));
    }
  }

  /** A turn that places an instance keeps the count. */
  lemma TurnCounted(setup: TocSetup, entries: seq<TocEntry>, n: nat, b: Building, inst: Layer, part: bool, closes: bool)
    requires n < |entries| && Counted(setup, entries, n, b) && Listed(entries[n], setup.showSectionsOnly)
    ensures Counted(setup, entries, n + 1, After(b, entries[n], inst, part, closes))
  {
    AllAfter(b, entries[n], inst, part, closes);
    EntriesOfAppend(AllItems(b), TocItem(entries[n], inst));
    ListedStep(entries, n, setup.showSectionsOnly);
  }

  /** A turn that places an instance keeps the shapes. */
  lemma TurnShaped(setup: TocSetup, entries: seq<TocEntry>, n: nat, b: Building, inst: Layer, part: bool, closes: bool)
    requires n < |entries| && Shaped(setup, entries, n, b) && Listed(entries[n], setup.showSectionsOnly)
    requires part == (IsSection(entries[n]) || b.isPartOfSection)
    requires closes == Closes(setup, entries, n, part)
    ensures Shaped(setup, entries, n + 1, After(b, entries[n], inst, part, closes))
  {
    var e := entries[n];
    var name := if b.curGroup == [] then GroupName(e) else b.curGroupName;
    if closes {
      RunClosed(setup, entries, n, b, part, name, TocItem(e, inst));
    } else {
      var cur := b.curGroup + [TocItem(e, inst)];
      assert cur[0].entry == if b.curGroup == [] then e else b.curGroup[0].entry;
    }
  }

  /** A turn that places an instance at `runningTop` keeps the stack. */
  lemma TurnStacked(b: Building, e: TocEntry, inst: Layer, part: bool, closes: bool)
    requires StackedState(b) && inst.frame.x == 0 && inst.frame.y == b.runningTop
    ensures StackedState(After(b, e, inst, part, closes))
  {
    var a := After(b, e, inst, part, closes);
    AllAfter(b, e, inst, part, closes);
    StackedAppend(AllItems(b), TocItem(e, inst));
    assert a.runningTop == b.runningTop + inst.frame.height;
    assert Stacked(AllItems(a));
  }

  /** What a turn that places an instance does, in terms of `After`. */
  lemma StepPlaces(setup: TocSetup, entries: seq<TocEntry>, n: nat, b: Building)
    requires n < |entries| && Step(setup, entries, n, b).Done? && Listed(entries[n], setup.showSectionsOnly)
    ensures var picked := PickInstance(setup, entries[n], b).value;
      && PickInstance(setup, entries[n], b).Done?
      && picked.1 == (IsSection(entries[n]) || b.isPartOfSection)
      && Step(setup, entries, n, b).value
         == After(b, entries[n], Placed(picked.0, entries[n], b.runningTop), picked.1, Closes(setup, entries, n, picked.1))
  {
  }

  /** One turn of the loop keeps the count. */
  lemma StepCounted(setup: TocSetup, entries: seq<TocEntry>, n: nat, b: Building)
    requires n < |entries| && Counted(setup, entries, n, b) && Step(setup, entries, n, b).Done?
    ensures Counted(setup, entries, n + 1, Step(setup, entries, n, b).value)
  {
    var e := entries[n];
    ListedStep(entries, n, setup.showSectionsOnly);
    if Listed(e, setup.showSectionsOnly) {
      StepPlaces(setup, entries, n, b);
      var picked := PickInstance(setup, e, b).value;
      TurnCounted(setup, entries, n, b, Placed(picked.0, e, b.runningTop), picked.1, Closes(setup, entries, n, picked.1));
    }
  }

  /** One turn of the loop keeps the shapes. */
  lemma StepShaped(setup: TocSetup, entries: seq<TocEntry>, n: nat, b: Building)
    requires n < |entries| && Shaped(setup, entries, n, b) && Step(setup, entries, n, b).Done?
    ensures Shaped(setup, entries, n + 1, Step(setup, entries, n, b).value)
  {
    var e := entries[n];
    if Listed(e, setup.showSectionsOnly) {
      StepPlaces(setup, entries, n, b);
      var picked := PickInstance(setup, e, b).value;
      TurnShaped(setup, entries, n, b, Placed(picked.0, e, b.runningTop), picked.1, Closes(setup, entries, n, picked.1));
    }
  }

  /** One turn of the loop keeps the stack. */
  lemma StepStacked(setup: TocSetup, entries: seq<TocEntry>, n: nat, b: Building)
    requires n < |entries| && StackedState(b) && Step(setup, entries, n, b).Done?
    ensures StackedState(Step(setup, entries, n, b).value)
  {
    var e := entries[n];
    if Listed(e, setup.showSectionsOnly) {
      StepPlaces(setup, entries, n, b);
      var picked := PickInstance(setup, e, b).value;
      TurnStacked(b, e, Placed(picked.0, e, b.runningTop), picked.1, Closes(setup, entries, n, picked.1));
    }
  }

  /** The group a turn closes has the shape of a closed group. */
  lemma RunClosed(setup: TocSetup, entries: seq<TocEntry>, n: nat, b: Building, part: bool, name: string, item: TocItem)
    requires n < |entries| && OpenShaped(setup, entries, n, b) && RunsShaped(b.runs, setup.showSectionsOnly)
    requires item.entry == entries[n]
    requires name == if b.curGroup == [] then GroupName(item.entry) else b.curGroupName
    requires b.curGroup == [] && part ==> IsSection(item.entry)
    ensures RunsShaped(b.runs + [TocRun(name, b.curGroup + [item])], setup.showSectionsOnly)
  {
    var run := TocRun(name, b.curGroup + [item]);
    assert RunShaped(run, setup.showSectionsOnly);
  }

  /** Whatever holds at the start and survives every turn holds after any
      number of turns. */
  lemma {:induction false} BuildKeeps(setup: TocSetup, entries: seq<TocEntry>, n: nat, P: (nat, Building) -> bool)
    requires n <= |entries|
    requires P(0, Start)
    requires forall k: nat, b: Building :: k < |entries| && P(k, b) && Step(setup, entries, k, b).Done? ==>
      P(k + 1, Step(setup, entries, k, b).value)
    ensures Build(setup, entries, n).Done? ==> P(n, Build(setup, entries, n).value)
  {
    if n > 0 {
      BuildKeeps(setup, entries, n - 1, P);
      if Build(setup, entries, n).Done? {
        var b := Build(setup, entries, n - 1).value;
        assert Build(setup, entries, n) == Step(setup, entries, n - 1, b);
      }
    }
  }

  /** The loop keeps its count from the start. */
  lemma BuildCounted(setup: TocSetup, entries: seq<TocEntry>, n: nat)
    requires n <= |entries|
    ensures Build(setup, entries, n).Done? ==> Counted(setup, entries, n, Build(setup, entries, n).value)
  {
    assert AllItems(Start) == [];
    forall k: nat, b: Building | k < |entries| && Counted(setup, entries, k, b) && Step(setup, entries, k, b).Done?
      ensures Counted(setup, entries, k + 1, Step(setup, entries, k, b).value)
    {
      StepCounted(setup, entries, k, b);
    }
    BuildKeeps(setup, entries, n, (k: nat, b: Building) => k <= |entries| && Counted(setup, entries, k, b));
  }

  /** The loop keeps its shapes from the start. */
  lemma BuildShaped(setup: TocSetup, entries: seq<TocEntry>, n: nat)
    requires n <= |entries|
    ensures Build(setup, entries, n).Done? ==> Shaped(setup, entries, n, Build(setup, entries, n).value)
  {
    forall k: nat, b: Building | k < |entries| && Shaped(setup, entries, k, b) && Step(setup, entries, k, b).Done?
      ensures Shaped(setup, entries, k + 1, Step(setup, entries, k, b).value)
    {
      StepShaped(setup, entries, k, b);
    }
    BuildKeeps(setup, entries, n, (k: nat, b: Building) => Shaped(setup, entries, k, b));
  }

  /** The loop keeps its stack from the start. */
  lemma BuildStacked(setup: TocSetup, entries: seq<TocEntry>, n: nat)
    requires n <= |entries|
    ensures Build(setup, entries, n).Done? ==> StackedState(Build(setup, entries, n).value)
  {
    assert AllItems(Start) == [];
    forall k: nat, b: Building | k < |entries| && StackedState(b) && Step(setup, entries, k, b).Done?
      ensures StackedState(Step(setup, entries, k, b).value)
    {
      StepStacked(setup, entries, k, b);
    }
    BuildKeeps(setup, entries, n, (k: nat, b: Building) => StackedState(b));
  }

  /** When the loop of `createTOC` finishes it has counted and placed every
      listed entry once, in order, each instance right below the one before;
      no group is left open; each group is one entry or a section and the
      entries after it that are not sections, named after its first entry. */
  lemma BuildMeaning(setup: TocSetup, entries: seq<TocEntry>)
    ensures Build(setup, entries, |entries|).Done? ==>
      var b := Build(setup, entries, |entries|).value;
      && EntriesOf(Items(b.runs)) == ListedEntries(entries, setup.showSectionsOnly)
      && b.count == |ListedEntries(entries, setup.showSectionsOnly)|
      && b.curGroup == []
      && RunsShaped(b.runs, setup.showSectionsOnly)
      && Stacked(Items(b.runs))
      && b.runningTop == SumHeights(Items(b.runs))
  {
    BuildCounted(setup, entries, |entries|);
    BuildShaped(setup, entries, |entries|);
    BuildStacked(setup, entries, |entries|);
    assert entries[..|entries|] == entries;
    if Build(setup, entries, |entries|).Done? {
      var b := Build(setup, entries, |entries|).value;
      assert AllItems(b) == Items(b.runs);
    }
  }

  // ---------------------------------------------------------------------
  // when createTOC throws

  /** Whether an entry gets an instance: a section entry needs the section
      master, a page entry the page master, and an entry with neither title
      an instance from an earlier entry. */
  predicate CanPlace(setup: TocSetup, e: TocEntry, hasPrevious: bool)
  {
    if IsSection(e) then setup.sectionMaster.Some?
    else if e.pageTitle != Undef then setup.pageMaster.Some?
    else hasPrevious
  }

  predicate CanPlaceAll(setup: TocSetup, listed: seq<TocEntry>)
  {
    forall k :: 0 <= k < |listed| ==> CanPlace(setup, listed[k], k > 0)
  }

  /** One more listed entry can be placed exactly when the earlier ones can
      and it can, after them. */
  lemma CanPlaceAppend(setup: TocSetup, before: seq<TocEntry>, e: TocEntry)
    ensures CanPlaceAll(setup, before + [e]) <==> CanPlaceAll(setup, before) && CanPlace(setup, e, |before| > 0)
  {
    var after := before + [e];
    if CanPlaceAll(setup, after) {
      assert CanPlace(setup, after[|before|], |before| > 0);
      forall k | 0 <= k < |before| ensures CanPlace(setup, before[k], k > 0) {
        assert after[k] == before[k];
      }
    }
  }

  /** With the group present, a turn throws exactly when its entry is listed
      and cannot get an instance. */
  lemma StepSucceeds(setup: TocSetup, entries: seq<TocEntry>, n: nat, b: Building)
    requires setup.hasGroup && n < |entries| && Counted(setup, entries, n, b)
    ensures Step(setup, entries, n, b).Done?
        <==> (Listed(entries[n], setup.showSectionsOnly) ==>
                CanPlace(setup, entries[n], |ListedEntries(entries[..n], setup.showSectionsOnly)| > 0))
  {
    assert |EntriesOf(AllItems(b))| == |AllItems(b)|;
  }

  /** With the group present, the loop throws exactly when some listed entry
      cannot get an instance. */
  lemma {:induction false} BuildSucceeds(setup: TocSetup, entries: seq<TocEntry>, n: nat)
    requires setup.hasGroup && n <= |entries|
    ensures Build(setup, entries, n).Done? <==> CanPlaceAll(setup, ListedEntries(entries[..n], setup.showSectionsOnly))
  {
    if n > 0 {
      BuildSucceeds(setup, entries, n - 1);
      BuildCounted(setup, entries, n - 1);
      ListedStep(entries, n - 1, setup.showSectionsOnly);
      var before := ListedEntries(entries[..n - 1], setup.showSectionsOnly);
      var e := entries[n - 1];
      if Listed(e, setup.showSectionsOnly) {
        CanPlaceAppend(setup, before, e);
      } else {
        assert before + [] == before;
        assert ListedEntries(entries[..n], setup.showSectionsOnly) == before;
      }
      if Build(setup, entries, n - 1).Done? {
        var b := Build(setup, entries, n - 1).value;
        assert Build(setup, entries, n) == Step(setup, entries, n - 1, b);
        StepSucceeds(setup, entries, n - 1, b);
      } else {
        assert Build(setup, entries, n).TypeError?;
      }
    } else {
      assert ListedEntries(entries[..0], setup.showSectionsOnly) == [];
    }
  }

  /** `createTOC` returns normally exactly when the group is there and holds
      no other symbol instance and every listed entry can get an instance. */
  lemma CreateSucceeds(showSectionsOnly: bool, masters: seq<Layer>, tocGroup: Option<Layer>,
                       freshOverrides: map<string, JsValue>, fit: seq<Layer> -> Frame, entries: seq<TocEntry>)
    ensures CreateSpec(showSectionsOnly, masters, tocGroup, freshOverrides, fit, entries).Done?
        <==> && tocGroup.Some?
             && StrayInstances(tocGroup.value) == []
             && CanPlaceAll(SetupOf(showSectionsOnly, masters, tocGroup, freshOverrides), ListedEntries(entries, showSectionsOnly))
  {
    if tocGroup.Some? {
      BuildSucceeds(SetupOf(showSectionsOnly, masters, tocGroup, freshOverrides), entries, |entries|);
      assert entries[..|entries|] == entries;
    }
  }

  /** The groups added to the table: one per closed group, in order, each a
      group layer named after its first entry whose layers are its filled
      instances. */
  lemma {:induction false} RunGroupsMeaning(runs: seq<TocRun>, fit: seq<Layer> -> Frame)
    ensures forall r :: 0 <= r < |runs| ==>
      && RunGroups(runs, fit)[r].cls == LayerGroup
      && RunGroups(runs, fit)[r].name == runs[r].name
      && RunGroups(runs, fit)[r].layers == FilledAll(runs[r].items)
  {
    if runs != [] {
      RunGroupsMeaning(runs[..|runs| - 1], fit);
    }
  }

  /** After the loop `createTOC` keeps what the group held and adds, after
      it, one group layer per closed group, named as the group was and
      holding its filled instances; it throws when the group is missing or
      already holds a symbol instance. */
  lemma FinishMeaning(tocGroup: Option<Layer>, runs: seq<TocRun>, fit: seq<Layer> -> Frame)
    ensures Finish(tocGroup, runs, fit).Done? <==> tocGroup.Some? && StrayInstances(tocGroup.value) == []
    ensures Finish(tocGroup, runs, fit).Done? ==>
      var before := tocGroup.value.layers;
      var g := Finish(tocGroup, runs, fit).value;
      && g == tocGroup.value.(layers := g.layers)
      && |g.layers| == |before| + |runs|
      && g.layers[..|before|] == before
      && (forall r :: 0 <= r < |runs| ==>
            && g.layers[|before| + r].cls == LayerGroup
            && g.layers[|before| + r].name == runs[r].name
            && g.layers[|before| + r].layers == FilledAll(runs[r].items))
  {
    if Finish(tocGroup, runs, fit).Done? {
      RunGroupsMeaning(runs, fit);
      var before := tocGroup.value.layers;
      var added := RunGroups(runs, fit);
      var g := Finish(tocGroup, runs, fit).value;
      assert g.layers == before + added;
      forall r | 0 <= r < |runs|
        ensures g.layers[|before| + r] == added[r]
      {
      }
    }
  }

  /** `createTOC` returns what follows its loop, and the groups of the loop
      hold every listed entry once, in order, each group one entry or a
      section and the entries after it that are not sections. */
  lemma CreateMeaning(showSectionsOnly: bool, masters: seq<Layer>, tocGroup: Option<Layer>,
                      freshOverrides: map<string, JsValue>, fit: seq<Layer> -> Frame, entries: seq<TocEntry>)
    requires CreateSpec(showSectionsOnly, masters, tocGroup, freshOverrides, fit, entries).Done?
    ensures var b := Build(SetupOf(showSectionsOnly, masters, tocGroup, freshOverrides), entries, |entries|);
      && b.Done?
      && CreateSpec(showSectionsOnly, masters, tocGroup, freshOverrides, fit, entries) == Finish(tocGroup, b.value.runs, fit)
      && RunsShaped(b.value.runs, showSectionsOnly)
      && EntriesOf(Items(b.value.runs)) == ListedEntries(entries, showSectionsOnly)
  {
    BuildMeaning(SetupOf(showSectionsOnly, masters, tocGroup, freshOverrides), entries);
  }
}
