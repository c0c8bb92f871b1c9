# documentorganizer in Dafny

This project models the core of the *documentorganizer* Sketch plugin and proves properties of the model. The plugin:

- numbers the section and page titles on the artboards of a page and names the artboards after them;
- builds and lays out a table of contents (TOC) from those titles;
- numbers the callouts on an artboard and rebuilds the callout list beside them;
- checks that a page is set up for all of this;
- collects what it did into a success toast and an error alert.

Every host object (artboard, group, symbol instance, master, text layer, rectangle) is a plain record: `Layers.Layer`. It holds a class tag, an objectID, a name, an integer frame, its direct child layers, a string value, the children of its symbol master, and the instance's override map.

A host call that can throw in the plugin, such as `.trim()` on an undefined title or `.newSymbolInstance()` on an undefined master, becomes the `TypeError` case of `Js.Outcome`. A throw is a result, not a precondition.

Modules, one per file:

- `Js` (js.dfy): JavaScript values and string built-ins: `indexOf`, `replace`, `substring`, `substr`, `toString`, `String.fromCharCode`.
- `Layers` (layers.dfy): the layer record; `children()`, `allArtboards`, `layersWithClass`, `layerWithName`, `layersWithName`.
- `Sorting` (sorting.dfy): the three in-place sorts of common.js, proved against a stable insertion sort.
- `Symbols` (symbols.dfy): the override operations of symbolfunctions.js.
- `Settings` (settings.dfy): the `valuesForStorage` table and a store class with `storedValue` and `setStoredValue`.
- `Titles` (titles.dfy): `prefixEndIndex`, `addSectionNumbers`, `removeSectionNumbers` and `numberToLetters`.
- `Callouts` (callouts.dfy): `sortedCallouts`, `updateCalloutsOnArtboard`, `layoutCalloutDescriptions`.
- `Numbering` (numbering.dfy): the artboard walk `numberAndNameArtboards` and its `tocArray`.
- `Toc` (toc.dfy): `initializeTOC` and `createTOC`.
- `TocLayout` (toc_layout.dfy): `layoutTOC` and `tableOfContents`.
- `Setup` (setup.dfy): `checkPageSetup`.
- `Summary` (summary.dfy): the two messages built by `displaySummary`.

The pattern is the same throughout:

- Each loop of the plugin is a `method` with a `while` loop.
- Its `ensures` ties the result to a specification function.
- Lemmas state what that function means.

The settings the plugin reads from the store are explicit parameters:

- `useSections`, the dash and the sections-only flag;
- the column spacing;
- whether the TOC is checked.

`Settings` shows separately what the store gives for each of these.

## Model

| member | source | states |
|---|---|---|
| Js.NatToStringRoundTrip | documentorganizer.sketchplugin/Contents/Sketch/main.js:145 | `n.toString()` is a string of decimal digits whose value is `n` |
| Js.NatToStringInjective | documentorganizer.sketchplugin/Contents/Sketch/main.js:334 | different page numbers give different texts |
| Js.IndexOfFrom | documentorganizer.sketchplugin/Contents/Sketch/common.js:66 | `indexOf` finds the first occurrence of the needle at or after the start, or -1 when there is none |
| Js.IndexOfCharFound | documentorganizer.sketchplugin/Contents/Sketch/main.js:467 | `indexOf` of a character finds it exactly when it is in the string |
| Js.RemoveFirst | documentorganizer.sketchplugin/Contents/Sketch/common.js:67 | `replace` with a string pattern removes exactly the first occurrence, and nothing when there is none |
| Js.Substr | documentorganizer.sketchplugin/Contents/Sketch/common.js:75 | `substr(start, length)` in range is the slice of that length |
| Js.CharFromCode | documentorganizer.sketchplugin/Contents/Sketch/main.js:520-521 | `String.fromCharCode` takes its argument modulo 2^16, a code outside the surrogate range giving that character |
| Layers.LayersWithClass | documentorganizer.sketchplugin/Contents/Sketch/main.js:143 | the class filter, as a loop, equals `FilterClass` |
| Layers.FilterClassMembers | documentorganizer.sketchplugin/Contents/Sketch/common.js:5 | the filter keeps exactly the layers of the class |
| Layers.FilterClassAppend | documentorganizer.sketchplugin/Contents/Sketch/common.js:5 | the filter keeps the input order |
| Layers.AllArtboardsMembers | documentorganizer.sketchplugin/Contents/Sketch/common.js:4-6 | `allArtboards` keeps exactly the artboard-class layers of the page, and is empty exactly when there is none |
| Layers.NamedLayersMembers | documentorganizer.sketchplugin/Contents/Sketch/common.js:96-106 | `layersWithName` holds exactly the children matching class and name |
| Layers.NamedLayersAppend | documentorganizer.sketchplugin/Contents/Sketch/common.js:96-106 | `layersWithName` keeps the original order |
| Layers.LayersWithName | documentorganizer.sketchplugin/Contents/Sketch/common.js:96-106 | the loop collects every child of the class and name, in order |
| Layers.LayerWithName | documentorganizer.sketchplugin/Contents/Sketch/common.js:85-94 | the first child matching class and name, with no match before it, or undefined exactly when none matches |
| Layers.NamedLayersHead | documentorganizer.sketchplugin/Contents/Sketch/common.js:85-106 | the first matching child is the head of `layersWithName` |
| Sorting.SortPermutes | documentorganizer.sketchplugin/Contents/Sketch/common.js:115 | the sort is a permutation of its input |
| Sorting.SortSorted | documentorganizer.sketchplugin/Contents/Sketch/common.js:115 | the sort orders by non-decreasing key |
| Sorting.SortStable | documentorganizer.sketchplugin/Contents/Sketch/common.js:115 | layers with equal keys keep their input order, as `Array.prototype.sort` does |
| Sorting.RowSortIgnoresMinimum | documentorganizer.sketchplugin/Contents/Sketch/common.js:117 | subtracting `minY` does not change the row order |
| Sorting.MinYOf | documentorganizer.sketchplugin/Contents/Sketch/common.js:110-114 | the running minimum from `MAX_SAFE_INTEGER` is at most every `y`, and is one of them unless it stays `MAX_SAFE_INTEGER` |
| Sorting.SortLayersByRows | documentorganizer.sketchplugin/Contents/Sketch/common.js:109-117 | the array becomes a permutation ordered by `(y - minY) * 100 + x`, with `minY` the least `y` |
| Sorting.SortByHorizontalPosition | documentorganizer.sketchplugin/Contents/Sketch/common.js:119-121 | the array becomes a permutation ordered by non-decreasing `x` |
| Sorting.ArtboardReadingOrder | documentorganizer.sketchplugin/Contents/Sketch/common.js:127-129 | the artboards sorted by rows are a permutation of the page's artboards, ordered by the row key `(y - minY) * 100 + x` |
| Sorting.SortByVerticalPosition | documentorganizer.sketchplugin/Contents/Sketch/common.js:123-125 | the array becomes a permutation ordered by non-decreasing `y` |
| Symbols.SetOverrideMeaning | documentorganizer.sketchplugin/Contents/Sketch/symbolfunctions.js:3-19 | without a writable text child nothing changes and undefined returns; otherwise only the entry of the first one changes, to `newText`; no key is ever added |
| Symbols.SetOverrideText | documentorganizer.sketchplugin/Contents/Sketch/symbolfunctions.js:3-19 | the loop returns `newText` when it writes, keeps the key set, and equals `SetOverride` |
| Symbols.SetThenGet | documentorganizer.sketchplugin/Contents/Sketch/symbolfunctions.js:3-19 | with one text child of the name and a write, `getOverrideText` then returns `newText` |
| Symbols.SetKeepsOtherSlots | documentorganizer.sketchplugin/Contents/Sketch/symbolfunctions.js:3-19 | writing one slot leaves the text of another slot as it was |
| Symbols.GetOverrideText | documentorganizer.sketchplugin/Contents/Sketch/symbolfunctions.js:60-69 | the entry of the first text child of the name; defined only when such a child exists |
| Symbols.InstanceHasOverride | documentorganizer.sketchplugin/Contents/Sketch/symbolfunctions.js:36-45 | true exactly when some master child of any class has the name |
| Symbols.TextSlotIsSlot | documentorganizer.sketchplugin/Contents/Sketch/symbolfunctions.js:3-69 | reading or writing text needs a slot of the name, so it implies `instanceHasOverride` |
| Symbols.GetInstanceDefaultOverrideText | documentorganizer.sketchplugin/Contents/Sketch/symbolfunctions.js:48-57 | the master's string value of the first text child of the name, whatever the instance's overrides |
| Symbols.GetOverrideLayerFromSymbol | documentorganizer.sketchplugin/Contents/Sketch/symbolfunctions.js:71-80 | the first child of the name, of any class, or undefined when there is none |
| Symbols.SymbolsWithOverride | documentorganizer.sketchplugin/Contents/Sketch/symbolfunctions.js:21-34 | the nested loop equals its specification, which keeps each symbol once per matching master child |
| Symbols.SymbolsWithOverrideMembers | documentorganizer.sketchplugin/Contents/Sketch/symbolfunctions.js:21-34 | every symbol returned comes from the input and has the slot |
| Symbols.SymbolsWithOverrideOnce | documentorganizer.sketchplugin/Contents/Sketch/symbolfunctions.js:21-34 | when no master has two children of the name, the result is the symbols having the slot, each once, in input order |
| Symbols.SymbolMasterWithOverrideName | documentorganizer.sketchplugin/Contents/Sketch/symbolfunctions.js:82-95 | the first master in document order with a text child of the name, or undefined when no master has one |
| Settings.SettingsObjectFromName | documentorganizer.sketchplugin/Contents/Sketch/settings.js:237-244 | the first table row with the name, or undefined when no row has it |
| Settings.StoredValueIn | documentorganizer.sketchplugin/Contents/Sketch/settings.js:211-223 | undefined for an unknown name; the default when the key is unset or null; else the stored value |
| Settings.SettingsStore.StoredValue | documentorganizer.sketchplugin/Contents/Sketch/settings.js:211-223 | the read equals `StoredValueIn` on the store |
| Settings.SettingsStore.SetStoredValue | documentorganizer.sketchplugin/Contents/Sketch/settings.js:226-234 | an unknown name writes nothing and returns undefined; a known one writes its key only and returns the value; a following read gives the value back unless it is nullish |
| Settings.SetKeepsOtherSettings | documentorganizer.sketchplugin/Contents/Sketch/settings.js:5-10 | keys are distinct, so writing one setting leaves the others |
| Settings.SetThenGet | documentorganizer.sketchplugin/Contents/Sketch/settings.js:211-231 | a write followed by a read of the same name gives the value, or the default for a nullish value |
| Settings.KnownNames | documentorganizer.sketchplugin/Contents/Sketch/settings.js:5-10 | the table knows exactly its four names |
| Settings.UnknownSettingsUndefined | documentorganizer.sketchplugin/Contents/Sketch/settings.js:222 | `useTOC`, `tocShowSectionsOnly` and `roundToNearestPixel` always read as undefined |
| Settings.ShowSectionsOnlyNeverHolds | documentorganizer.sketchplugin/Contents/Sketch/main.js:267 | as written, the sections-only test of `createTOC` never holds |
| Settings.ShowSectionsOnlyFollowsDialog | documentorganizer.sketchplugin/Contents/Sketch/settings.js:7 | the intended test follows the stored radio index, and is off by default |
| Settings.DashAsWrittenIsIndex | documentorganizer.sketchplugin/Contents/Sketch/main.js:202 | as written, the default dash is the text `"1"` |
| Settings.DashGlyph | documentorganizer.sketchplugin/Contents/Sketch/settings.js:8 | the intended dash is the dropdown glyph at the stored index |
| Settings.DashGlyphDefault | documentorganizer.sketchplugin/Contents/Sketch/settings.js:8 | with nothing stored the dash is the en dash |
| Settings.UseSections | documentorganizer.sketchplugin/Contents/Sketch/settings.js:9 | sections are on by default |
| Titles.PrefixEndIndex | documentorganizer.sketchplugin/Contents/Sketch/main.js:185-197 | the index, in the trimmed text, of the first character outside digits, space, `.`, `-`, en and em dash; 0 when every character is inside the set |
| Titles.PrefixEndUntrimmed | documentorganizer.sketchplugin/Contents/Sketch/main.js:185-197 | for text without leading whitespace, that index is the first non-prefix character of the text itself |
| Titles.AddSectionNumbers | documentorganizer.sketchplugin/Contents/Sketch/main.js:199-213 | `"s d rest"` when the page-in-section is 0, `"s.p d rest"` otherwise, the bare rest with sections off |
| Titles.RemoveSectionNumbers | documentorganizer.sketchplugin/Contents/Sketch/main.js:215-220 | undefined exactly for a falsy text, else the text after its numbering |
| Titles.RenumberIdempotent | documentorganizer.sketchplugin/Contents/Sketch/main.js:185-219 | for a title that does not start with whitespace, has a character past its old numbering that is neither a prefix character nor whitespace, and a dash of prefix characters, numbering twice equals numbering once, and removing the numbers gives the rest. The last condition is needed: `"12\u00A0"` numbers to `"1 – 12\u00A0"` and then to `"1 – 1 – 12\u00A0"`, because the trim drops the no-break space, so the scan finds no character that ends the numbering and returns 0 |
| Titles.NumberToLettersSingle | documentorganizer.sketchplugin/Contents/Sketch/main.js:519-523 | 0..25 give the single letter `chr(65 + n)` |
| Titles.NumberToLettersDouble | documentorganizer.sketchplugin/Contents/Sketch/main.js:519-523 | 26..701 give `chr(64 + n / 26)` followed by `chr(65 + n % 26)` |
| Titles.NumberToLettersAreLetters | documentorganizer.sketchplugin/Contents/Sketch/main.js:519-523 | up to 701 the code is capital letters only |
| Titles.NumberToLettersInjective | documentorganizer.sketchplugin/Contents/Sketch/main.js:519-523 | different numbers below 26 * (0xD800 - 64) give different codes |
| Titles.NumberToLettersPastZZ | documentorganizer.sketchplugin/Contents/Sketch/main.js:520 | 702 gives `[A`: the code leaves the alphabet |
| Callouts.SortedCallouts | documentorganizer.sketchplugin/Contents/Sketch/main.js:571-588 | the loop equals `SortedCalloutsSpec`: the grouped callouts group by group, then the ungrouped ones |
| Callouts.SortedCalloutsOrder | documentorganizer.sketchplugin/Contents/Sketch/main.js:571-588 | only callouts; groups in increasing `x`, a permutation of the top-level groups; each group's callouts row-sorted; the ungrouped ones in increasing `y` |
| Callouts.SectionPrefix | documentorganizer.sketchplugin/Contents/Sketch/main.js:467 | the artboard name before its first space, plus `.`; only `.` when the name has no space |
| Callouts.CalloutNumbersDistinct | documentorganizer.sketchplugin/Contents/Sketch/main.js:477 | two callouts of an artboard never share a number (with letter codes, up to 26 * (0xD800 - 64) callouts) |
| Callouts.ListEntriesMeaning | documentorganizer.sketchplugin/Contents/Sketch/main.js:471-487 | the numbering loop throws exactly when some description is undefined |
| Callouts.ListEntriesLines | documentorganizer.sketchplugin/Contents/Sketch/main.js:471-487 | otherwise one list line per callout, in order, with its description and number `prefix + k` or `numberToLetters(k - 1)` |
| Callouts.RenumberAllMeaning | documentorganizer.sketchplugin/Contents/Sketch/main.js:478-486 | each callout is renumbered with the number and description of its own list line, in order |
| Callouts.RenumberedKeepsDescription | documentorganizer.sketchplugin/Contents/Sketch/main.js:480-481 | the two description writes leave the description as it was read |
| Callouts.NumberCallouts | documentorganizer.sketchplugin/Contents/Sketch/main.js:471-487 | the loop equals `ListEntries` and `RenumberAll` |
| Callouts.WithoutInstancesMembers | documentorganizer.sketchplugin/Contents/Sketch/main.js:496-499 | emptying the list group keeps exactly its layers that are not instances |
| Callouts.StackInstances | documentorganizer.sketchplugin/Contents/Sketch/main.js:547-561 | the layout loop equals `Stacked`, and `runningTop` is the summed height |
| Callouts.StackedMeaning | documentorganizer.sketchplugin/Contents/Sketch/main.js:549-561 | each instance gets the group width and `y` = the sum of padding plus measured height over the instances before it; other layers are unchanged |
| Callouts.LayoutCalloutDescriptions | documentorganizer.sketchplugin/Contents/Sketch/main.js:526-566 | the method equals `LayoutSpec` |
| Callouts.LayoutMeaning | documentorganizer.sketchplugin/Contents/Sketch/main.js:563-565 | the group keeps its width and is as tall as the full sum; the rectangle takes the group's size |
| Callouts.LayoutPlaces | documentorganizer.sketchplugin/Contents/Sketch/main.js:547-561 | each laid-out layer is the group's layer at the same index, placed below the summed heights of the layers before it at the group's width, with the master's padding |
| Callouts.LayoutStacks | documentorganizer.sketchplugin/Contents/Sketch/main.js:547-561 | the laid-out layers are the group's layers stacked at its width |
| Callouts.AddListInstances | documentorganizer.sketchplugin/Contents/Sketch/main.js:504-513 | one fresh instance per list line is added at the end, in order |
| Callouts.ListInstancesMeaning | documentorganizer.sketchplugin/Contents/Sketch/main.js:504-513 | one new instance per list line, in order, each named with its line's callout number |
| Callouts.UpdateCalloutsList | documentorganizer.sketchplugin/Contents/Sketch/main.js:488-515 | with callouts, the laid-out list ends with one instance per callout in callout order, named with that callout's number; a list found on the artboard keeps none of its old instances |
| Callouts.UpdateCalloutsOnArtboard | documentorganizer.sketchplugin/Contents/Sketch/main.js:461-517 | the method equals `UpdateCalloutsSpec` |
| Callouts.UpdateCalloutsMeaning | documentorganizer.sketchplugin/Contents/Sketch/main.js:461-517 | the count is the number of callouts `sortedCallouts` finds, one updated callout each; the list is rebuilt exactly when the count is positive |
| Numbering.NumberAndNameArtboards | documentorganizer.sketchplugin/Contents/Sketch/main.js:129-183 | the walk equals `NumberAndNameSpec` |
| Numbering.InstanceStepCounts | documentorganizer.sketchplugin/Contents/Sketch/main.js:144-165 | per instance, `sectionNumber` rises by 1 for a `<sectionTitle>` slot, `sectionPageNumber` restarts at 0 there and rises by 1 for a `<pageTitle>` slot, and `titlesAdded` counts both |
| Numbering.InstancesWalkCounts | documentorganizer.sketchplugin/Contents/Sketch/main.js:144-166 | over an artboard's instances the counts add up |
| Numbering.ArtboardStepCounts | documentorganizer.sketchplugin/Contents/Sketch/main.js:141-178 | one artboard adds the section and title slots of its instances to the counts, moves the page on exactly when a page number was written so far, adds at most one TOC line with the current page, and reports the callouts its update numbered |
| Numbering.ArtboardsWalkCounts | documentorganizer.sketchplugin/Contents/Sketch/main.js:141-178 | over all artboards: one board each, `calloutsUpdated` the sum of the callouts each board's update numbered, the section and title slots summed, the page rising at most one per artboard, at most one TOC line per artboard with page numbers in range and non-decreasing |
| Numbering.NumberAndNameCounts | documentorganizer.sketchplugin/Contents/Sketch/main.js:129-183 | one board per artboard; two summary lines appended, the first `"<n> artboards updated"` with `n` the title slots on the page, the second `"<m> callouts updated"` with `m` the callouts numbered on all the boards; TOC page numbers from the first page number to one past the artboard count, non-decreasing |
| Numbering.ArtboardsWalkAborts | documentorganizer.sketchplugin/Contents/Sketch/main.js:141-178 | a throw on one artboard ends the walk |
| Numbering.InstanceStepTitles | documentorganizer.sketchplugin/Contents/Sketch/main.js:144-165 | per instance, a `<sectionTitle>` slot sets the artboard's section title to its text numbered with the new section count and page-in-section 0, a `<pageTitle>` slot sets its page title to its text (read after the section title was written) numbered with the new section and page counts, otherwise the titles are kept; the first page is found once an instance has a writable `<pageNumber>` |
| Numbering.InstancesWalkTitles | documentorganizer.sketchplugin/Contents/Sketch/main.js:144-166 | over an artboard's instances the titles are those of the last instance carrying each slot (`LastSectionTitle`, `LastPageTitle`), the page-in-section count is `SectionPage`, and the first page is found once some instance takes a page number |
| Numbering.ArtboardStepToc | documentorganizer.sketchplugin/Contents/Sketch/main.js:141-172 | the line one artboard adds is `TocLine` of the section and page titles its instances leave, with the page count it started with |
| Numbering.ArtboardsWalkToc | documentorganizer.sketchplugin/Contents/Sketch/main.js:141-178 | the walk over the artboards builds `tocArray` as `TocFrom`: the artboards' lines concatenated in artboard order, each artboard's line given by its own last titles and the page count reached before it |
| Numbering.NumberAndNameToc | documentorganizer.sketchplugin/Contents/Sketch/main.js:129-183 | the returned `tocArray` is `TocFrom` of the page's artboards from the starting counters |
| Numbering.LastSectionTitleIs | documentorganizer.sketchplugin/Contents/Sketch/main.js:150-152 | the section title the walk leaves is the one `LastSection` names: the text of the last instance with a `<sectionTitle>` slot, renumbered |
| Numbering.LastPageTitleIs | documentorganizer.sketchplugin/Contents/Sketch/main.js:155-158 | the page title the walk leaves is the one `LastPage` names: the text of the last instance with a `<pageTitle>` slot, renumbered |
| Numbering.LastSectionAt | documentorganizer.sketchplugin/Contents/Sketch/main.js:150-152 | when instance `k` is the last with a `<sectionTitle>` slot, the section title is its text numbered with the section count through the artboard and page-in-section 0 |
| Numbering.LastSectionNone | documentorganizer.sketchplugin/Contents/Sketch/main.js:150-152 | an artboard with no `<sectionTitle>` slot has no section title |
| Numbering.LastPageAt | documentorganizer.sketchplugin/Contents/Sketch/main.js:151-158 | when instance `k` is the last with a `<pageTitle>` slot, the page title is its text numbered with the section count and the page-in-section count through instance `k` |
| Numbering.LastPageNone | documentorganizer.sketchplugin/Contents/Sketch/main.js:155-158 | an artboard with no `<pageTitle>` slot has no page title |
| Numbering.NoTitlesNoLine | documentorganizer.sketchplugin/Contents/Sketch/main.js:168-174 | an artboard with neither title slot adds no TOC line |
| Numbering.TocFromAtMostOne | documentorganizer.sketchplugin/Contents/Sketch/main.js:168-174 | each artboard adds at most one TOC line |
| Numbering.NumbersPagesMeaning | documentorganizer.sketchplugin/Contents/Sketch/main.js:146-148 | an artboard's instances find the first page exactly when one of them has a writable `<pageNumber>` |
| Numbering.PageAfterUnstarted | documentorganizer.sketchplugin/Contents/Sketch/main.js:146-178 | while no artboard takes a page number, the page count stays at its start |
| Numbering.PageAfterFirst | documentorganizer.sketchplugin/Contents/Sketch/main.js:146-178 | when artboard `f` is the first to take a page number, the page count after all artboards is the start plus the number of artboards from `f` on |
| Numbering.PageAfterStarted | documentorganizer.sketchplugin/Contents/Sketch/main.js:176-178 | once the first page is found, every artboard moves the page count on by one |
| Toc.InitializeTOC | documentorganizer.sketchplugin/Contents/Sketch/main.js:250-263 | the method gives `InitializedGroup`, and returns true exactly when the group exists |
| Toc.RemoveGroups | documentorganizer.sketchplugin/Contents/Sketch/main.js:255-258 | removing the groups one at a time leaves exactly the layers that are not groups, in order |
| Toc.InitializedMeaning | documentorganizer.sketchplugin/Contents/Sketch/main.js:250-263 | the group is found exactly as `layerWithName` finds it, and is left with no group layer and every other layer |
| Toc.CreateTOC | documentorganizer.sketchplugin/Contents/Sketch/main.js:266-339 | the method equals `CreateSpec`; on return the summary gets `"<n> items added to TOC"` with `n` the number of listed entries; after a throw nothing is added |
| Toc.BuildRuns | documentorganizer.sketchplugin/Contents/Sketch/main.js:283-330 | the loop equals `Build` over all entries |
| Toc.Turn | documentorganizer.sketchplugin/Contents/Sketch/main.js:284-329 | one turn of the loop equals `Step` |
| Toc.BuildKeeps | documentorganizer.sketchplugin/Contents/Sketch/main.js:283-330 | anything true before the loop that every completed turn of `tocArray[i]` preserves is true after any number of completed turns |
| Toc.BuildMeaning | documentorganizer.sketchplugin/Contents/Sketch/main.js:283-330 | at the end the groups concatenate back to the listed entries in order, every group is one entry or a section entry followed by page entries, nothing is left open, and the instances are stacked from the top at `x = 0` |
| Toc.BuildSucceeds | documentorganizer.sketchplugin/Contents/Sketch/main.js:283-330 | with the group present, the loop completes exactly when each listed section entry has the section master, each listed page entry the page master, and an entry with neither title is not the first listed |
| Toc.CreateSucceeds | documentorganizer.sketchplugin/Contents/Sketch/main.js:266-339 | `createTOC` returns normally exactly when the group exists, holds no stray instance, and every listed entry can be placed |
| Toc.FinishMeaning | documentorganizer.sketchplugin/Contents/Sketch/main.js:314-337 | the group keeps its layers and gets one group per closed run, named after it and holding its filled instances |
| Toc.RunGroupsMeaning | documentorganizer.sketchplugin/Contents/Sketch/main.js:318-324 | each added group is a group layer with the run's name and filled instances |
| Toc.MakeGroups | documentorganizer.sketchplugin/Contents/Sketch/main.js:318-337 | the loop builds `RunGroups` |
| Toc.FillInstances | documentorganizer.sketchplugin/Contents/Sketch/main.js:332-337 | the override pass writes page number and title into each instance |
| Toc.CreateMeaning | documentorganizer.sketchplugin/Contents/Sketch/main.js:266-339 | a normal return is `Finish` of the loop's groups, whose shapes hold and whose entries are the listed ones |
| TocLayout.FlowColumns | documentorganizer.sketchplugin/Contents/Sketch/main.js:350-365 | the first loop equals `FlowSpec` |
| TocLayout.FlowGroup | documentorganizer.sketchplugin/Contents/Sketch/main.js:355-365 | one group of the flow equals `FlowStep` |
| TocLayout.FlowShape | documentorganizer.sketchplugin/Contents/Sketch/main.js:350-365 | each column is stacked from the top, a group starts a new column exactly when `curY > 0` and it would reach below `tocH`, and `curY` is the last column's height |
| TocLayout.FlowKeepsGroups | documentorganizer.sketchplugin/Contents/Sketch/main.js:355-365 | the columns concatenate back to the groups in order, each with only its `y` changed |
| TocLayout.ColumnsMeaning | documentorganizer.sketchplugin/Contents/Sketch/main.js:349-365 | the columns of the `<tocGroup>` group keep its groups in order, stacked, and break only where a group does not fit |
| TocLayout.RoundedWidth | documentorganizer.sketchplugin/Contents/Sketch/main.js:368 | `Math.round` leaves the columns plus the spacing within half a pixel per column of the group's width |
| TocLayout.PlaceColumns | documentorganizer.sketchplugin/Contents/Sketch/main.js:369-395 | the nested loops equal `Placement` |
| TocLayout.PlaceColumnMeaning | documentorganizer.sketchplugin/Contents/Sketch/main.js:372-394 | group `j` of column `i` gets `x`, the column width and the pins of its place; nothing else changes |
| TocLayout.PlacementMeaning | documentorganizer.sketchplugin/Contents/Sketch/main.js:369-371 | column `i` sits at `i * (colWidth + colSpacing)` |
| TocLayout.PlacementGrid | documentorganizer.sketchplugin/Contents/Sketch/main.js:369-394 | every column keeps its number of groups, and group `j` of column `i` sits at `i * (colWidth + colSpacing)` with the column width and the pins of its place |
| TocLayout.PinsMeaning | documentorganizer.sketchplugin/Contents/Sketch/main.js:375-393 | height is always fixed; top pinned exactly for the first group of a column; left exactly for column 0; right exactly for the last column when there are several; never both left and right |
| TocLayout.LayoutTOC | documentorganizer.sketchplugin/Contents/Sketch/main.js:341-399 | the method equals `LayoutSpec` |
| TocLayout.LayoutSucceeds | documentorganizer.sketchplugin/Contents/Sketch/main.js:345-397 | `layoutTOC` throws exactly when the group or its rectangle is missing |
| TocLayout.LayoutMeaning | documentorganizer.sketchplugin/Contents/Sketch/main.js:367-398 | every group is placed in its column with the column width and pins; the width rounding bound holds; the rectangle takes the group's size |
| TocLayout.TableOfContents | documentorganizer.sketchplugin/Contents/Sketch/main.js:242-247 | initialize, create and lay out in turn, equal to `TableSpec`, with `createTOC`'s summary line |
| TocLayout.TableSucceeds | documentorganizer.sketchplugin/Contents/Sketch/main.js:242-247 | without the group the table always throws; with the group, its rectangle, no stray instance and placeable entries it completes |
| Setup.CheckPageSetup | documentorganizer.sketchplugin/Contents/Sketch/main.js:402-454 | the summary gets exactly `SetupErrors`; the result is `'success'` exactly when there are none, else undefined |
| Setup.SetupSucceedsIffReady | documentorganizer.sketchplugin/Contents/Sketch/main.js:402-454 | the check passes exactly when the page has artboards, the three masters exist, and, with the TOC on, its two masters, group and rectangle exist |
| Setup.SymbolErrorsIffReady | documentorganizer.sketchplugin/Contents/Sketch/main.js:412-426 | no symbol error exactly when the three masters exist |
| Setup.TocErrorsIffReady | documentorganizer.sketchplugin/Contents/Sketch/main.js:433-451 | no TOC error exactly when the TOC masters, group and rectangle exist |
| Setup.NoArtboardsStopsAtOnce | documentorganizer.sketchplugin/Contents/Sketch/main.js:407-410 | a page without artboards gets exactly one line, whatever else is missing |
| Setup.SymbolsBeforeToc | documentorganizer.sketchplugin/Contents/Sketch/main.js:412-432 | one line per missing master; symbol errors stop the check before the TOC part |
| Setup.GroupOrRect | documentorganizer.sketchplugin/Contents/Sketch/main.js:443-451 | the missing-group and missing-rectangle lines never both appear |
| Setup.SetupErrorsTagged | documentorganizer.sketchplugin/Contents/Sketch/main.js:402-454 | every line the check adds is an error line |
| Setup.FailedSetupAlerts | documentorganizer.sketchplugin/Contents/Sketch/main.js:20-35 | a failed check always produces the error alert |
| Summary.DisplaySummary | documentorganizer.sketchplugin/Contents/Sketch/common.js:60-83 | the method equals `SummarySpec` |
| Summary.CollectMessages | documentorganizer.sketchplugin/Contents/Sketch/common.js:65-72 | the loop builds both messages as the specification does |
| Summary.SuccessMessageIsJoin | documentorganizer.sketchplugin/Contents/Sketch/common.js:69-75 | the toast is the non-error lines joined by `", "` without a trailing separator |
| Summary.ErrorMessageIsLines | documentorganizer.sketchplugin/Contents/Sketch/common.js:66-68 | the error text is each error line without its first `[ERROR]`, followed by two carriage returns |
| Summary.SummaryMeaning | documentorganizer.sketchplugin/Contents/Sketch/common.js:60-83 | a toast exactly when some line is not an error, an alert exactly when some line is, the alert ending with the documentation footer |
| Summary.ErrorInErrors | documentorganizer.sketchplugin/Contents/Sketch/common.js:66 | a line containing `[ERROR]` makes the error list non-empty |

## Left out

- The menu and event handlers (main.js:10-122), the settings dialog and its controls, alertControls.js and the prompts of common.js are user interface. `doc.showMessage` and `UI.alert` are not called: `Summary.SummarySpec` gives the two texts they would show.
- `roundToNearestPixel` and `createCalloutDescriptionGroup`'s 0.72/0.07/0.25 placement use floating point. The new list group's frame is an input (`Callouts.Host`).
- `sizeGroupToContent` is not part of this model. The frame it gives a TOC group is the parameter `fit`. The rebasing of child coordinates inside a resized group is not modelled.
- `setConstrainProportions`, and the proportional rescaling `setWidth` applies while proportions are locked, are not modelled. A width change changes only the width.
- `TocLayout.LayoutTOC` takes the column spacing as an integer parameter and does not model the `Number()` conversion of the stored setting. It takes the `<tocGroup>` group as an input, rather than searching the page again. The group's own frame after `addLayers` is taken as it was before.
- Host mutations that happen before a throw are not kept. The model returns only the error. Examples: the groups `layoutTOC` moves before the missing `tocRect` throws, and the masters a failing `createTOC` instantiated.
- The model works on values. Updated layers are returned, not written back into the page tree by identity. In particular it does not capture that a TOC instance reused after a missing-title entry is the same object in two groups: `Toc.PickInstance` reuses its value.
- The expando properties `instance.pageTitle` and `instance.pageNumber` are carried by `Toc.TocItem` beside the instance.
- `sortArtboards` is modelled only through its sort (`Sorting.ArtboardReadingOrder`). `moveToLayer_beforeLayer` and the selection are host calls.
- `dateFromTemplate`, `getOverrideLayerfromSymbolMaster`, `instancesWithOverride`, `layersWithClass`, `toArray` and `sizeGroupToContent` are not defined in the plugin files this model follows. `layersWithClass` is modelled as the exact-class filter `Layers.LayersWithClass`, and `toArray` as returning the layer sequence unchanged (`Callouts.ToArray` where the array is then sorted in place). `instancesWithOverride` is modelled by `symbolsWithOverride`. `getOverrideLayerfromSymbolMaster` is read as `getOverrideLayerfromSymbol` applied to the master: `Callouts.LayoutSpec` takes the padding as the master's frame less the frame of the master's `<calloutListDescription>` override layer (`Callouts.ListDescriptionSlot`). Wrapped-text measurement is the parameter `measure`.
- `String.fromCharCode` of a lone surrogate code is not a Dafny `char`. `Js.CharFromCode` gives U+FFFD there, which only matters for callout numbers past 26 * (0xD800 - 64).
- The settings `useSections`, dash, sections-only, column spacing and whether the TOC is checked are parameters. `Settings` states what the store gives for each. In particular `Settings.UnknownSettingsUndefined` shows that `storedValue('useTOC')` is always undefined, so with the shipped table the handlers never build or check the TOC.
- Numbering.ArtboardStepCounts: states the counts, and at most one TOC line with the current page. What the line holds is stated by `Numbering.ArtboardStepToc`. The callouts an artboard adds are counted by `Callouts.UpdateCalloutsSpec`.
- Numbering.ArtboardsWalkCounts: states the counts, the callout total and the bounds. What `tocArray` holds, and its artboard order, is stated by `Numbering.ArtboardsWalkToc`.
- Numbering.NumberAndNameCounts: states the counts, both summary lines and the bounds. What `tocArray` holds is stated by `Numbering.NumberAndNameToc`.
- Numbering.ArtboardsWalkToc, Numbering.NumberAndNameToc, Numbering.InstancesWalkTitles, Numbering.InstanceStepTitles: assume that the children of each instance's master have pairwise distinct `objectID`s, as Sketch gives every layer its own. Otherwise writing `<pageNumber>` could change the text found for a title slot.
- Callouts.CalloutName: strings are sequences of code points, so `substring(0, 30)` (`Js.Substring`) keeps 30 code points where JavaScript keeps 30 UTF-16 units. The two differ for text outside the Basic Multilingual Plane, and a surrogate pair split at unit 30 has no counterpart here.

## Findings

| source | as written | input that shows it | evidently intended | confidence | as-written member | corrected member |
|---|---|---|---|---|---|---|
| documentorganizer.sketchplugin/Contents/Sketch/main.js:267 | `storedValue('tocShowSectionsOnly') == 0`, but the table row is named `tocShowColumnsOnly`, so the value is undefined and the test is always false | any store, including one where the dialog chose sections only | the test reads the row the dialog writes (`organize_document_showTOCSectionsOnly`) | not executed | Settings.ShowSectionsOnlyNeverHolds | Settings.ShowSectionsOnlyFollowsDialog |
| documentorganizer.sketchplugin/Contents/Sketch/main.js:202 | `desiredDash` is the stored `dashType` value, which is the dropdown index (default 1) | the empty store: titles become `"1 1 Intro"` | the glyph at that index of the dash dropdown, the en dash by default | not executed | Settings.DashAsWrittenIsIndex | Settings.DashGlyphDefault |
