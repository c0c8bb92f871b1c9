/** settings.js: the table of stored settings and the key-value store behind
    `Settings.settingForKey` / `setSettingForKey`. */
module Settings {
  import opened Js

  /** One row of `valuesForStorage`. */
  datatype StorageEntry = StorageEntry(name: string, key: string, default: JsValue)

  /** `valuesForStorage` */
  const ValuesForStorage: seq<StorageEntry> := [
    StorageEntry("tocColumnSpacing", "organize_document_columnSpacing", Num(50)),
    StorageEntry("tocShowColumnsOnly", "organize_document_showTOCSectionsOnly", Num(0)),
    StorageEntry("dashType", "organize_document_dashType", Num(1)),
    StorageEntry("useSections", "organize_document_useSections", Num(1))
  ]

  /** The first table row, from `from` on, with the given name. */
  function EntryFrom(table: seq<StorageEntry>, name: string, from: nat): (r: Option<nat>)
    requires from <= |table|
    ensures r.Some? ==> from <= r.value < |table| && table[r.value].name == name
                        && forall j :: from <= j < r.value ==> table[j].name != name
    ensures r.None? ==> forall j :: from <= j < |table| ==> table[j].name != name
    decreases |table| - from
  {
    if from == |table| then None
    else if table[from].name == name then Some(from)
    else EntryFrom(table, name, from + 1)
  }

  /** Specification of `settingsObjectFromName(name)`. */
  function EntryNamed(name: string): Option<StorageEntry>
  {
    match EntryFrom(ValuesForStorage, name, 0)
    case None => None
    case Some(i) => Some(ValuesForStorage[i])
  }

  /** `settingsObjectFromName(name)`: the first table row with that name, else undefined. */
  method SettingsObjectFromName(name: string) returns (r: Option<StorageEntry>)
    ensures r == EntryNamed(name)
    ensures r.Some? ==> r.value in ValuesForStorage && r.value.name == name
    ensures r.None? ==> forall e :: e in ValuesForStorage ==> e.name != name
  {
    var i := 0;
    while i < |ValuesForStorage|
      invariant 0 <= i <= |ValuesForStorage|
      invariant EntryFrom(ValuesForStorage, name, 0) == EntryFrom(ValuesForStorage, name, i)
    {
      var val := ValuesForStorage[i];
      if val.name == name {
        return Some(val);
      }
      i := i + 1;
    }
    return None;
  }

  /** `Settings.settingForKey(key)` on a store: undefined when the key is unset. */
  function SettingForKey(store: map<string, JsValue>, key: string): JsValue
  {
    if key in store then store[key] else Undefined
  }

  /** Specification of `storedValue(name)`: undefined for a name outside the
      table; the table default when the stored value is loosely equal to
      undefined (so null counts as unset); the stored value otherwise. */
  function StoredValueIn(store: map<string, JsValue>, name: string): (r: JsValue)
    ensures EntryNamed(name).None? ==> r == Undefined
    ensures EntryNamed(name).Some? ==>
      var e := EntryNamed(name).value;
      r == if IsNullish(SettingForKey(store, e.key)) then e.default else SettingForKey(store, e.key)
  {
    match EntryNamed(name)
    case None => Undefined
    case Some(obj) =>
      var retVal := SettingForKey(store, obj.key);
      if IsNullish(retVal) then obj.default else retVal
  }

  /** The store behind the host's `Settings` module. */
  class SettingsStore {
    var store: map<string, JsValue>

    constructor(initial: map<string, JsValue>)
      ensures store == initial
    {
      store := initial;
    }

    /** `storedValue(name)` */
    method StoredValue(name: string) returns (r: JsValue)
      ensures r == StoredValueIn(store, name)
      ensures EntryNamed(name).None? ==> r == Undefined
      ensures EntryNamed(name).Some? && !IsNullish(SettingForKey(store, EntryNamed(name).value.key)) ==>
                r == store[EntryNamed(name).value.key]
    {
      var obj := SettingsObjectFromName(name);
      if obj.Some? {
        r := SettingForKey(store, obj.value.key);
        if IsNullish(r) {
          return obj.value.default;
        } else {
          return r;
        }
      }
      return Undefined;
    }

    /** `setStoredValue(name, value)`: for a table name, writes `value` under
        that name's key and returns it; otherwise writes nothing and returns
        undefined. */
    method SetStoredValue(name: string, value: JsValue) returns (r: JsValue)
      modifies this
      ensures EntryNamed(name).None? ==> r == Undefined && store == old(store)
      ensures EntryNamed(name).Some? ==> r == value && store == old(store)[EntryNamed(name).value.key := value]
      ensures StoredValueIn(store, name) == if EntryNamed(name).None? then Undefined
                                             else if IsNullish(value) then EntryNamed(name).value.default
                                             else value
    {
      var obj := SettingsObjectFromName(name);
      if obj.Some? {
        store := store[obj.value.key := value];
        return value;
      }
      return Undefined;
    }
  }

  /** No two table rows share a key, so writing one setting leaves the others. */
  lemma {:induction false} SetKeepsOtherSettings(store: map<string, JsValue>, name: string, other: string, value: JsValue)
    requires EntryNamed(name).Some? && other != name
    ensures StoredValueIn(store[EntryNamed(name).value.key := value], other) == StoredValueIn(store, other)
  {
    var i := EntryFrom(ValuesForStorage, name, 0).value;
    var o := EntryFrom(ValuesForStorage, other, 0);
    if o.Some? {
      assert o.value != i;
      assert ValuesForStorage[o.value].key != ValuesForStorage[i].key;
    }
  }

  /** A write followed by a read of the same table name gives the value back,
      unless the value is null or undefined, which reads as the default. */
  lemma SetThenGet(store: map<string, JsValue>, name: string, value: JsValue)
    requires EntryNamed(name).Some?
    ensures var after := store[EntryNamed(name).value.key := value];
      StoredValueIn(after, name) == if IsNullish(value) then EntryNamed(name).value.default else value
  {
  }

  /** The names the table knows are exactly those of its four rows. */
  lemma {:induction false} KnownNames(name: string)
    ensures EntryNamed(name).Some? <==>
      name in {"tocColumnSpacing", "tocShowColumnsOnly", "dashType", "useSections"}
  {
    if name == "tocColumnSpacing" {
      assert EntryFrom(ValuesForStorage, name, 0) == Some(0);
    } else if name == "tocShowColumnsOnly" {
      assert EntryFrom(ValuesForStorage, name, 0) == Some(1);
    } else if name == "dashType" {
      assert EntryFrom(ValuesForStorage, name, 0) == Some(2);
    } else if name == "useSections" {
      assert EntryFrom(ValuesForStorage, name, 0) == Some(3);
    }
  }

  /** `useTOC`, `tocShowSectionsOnly` and `roundToNearestPixel` are not in the
      table, so whatever the store holds they read as undefined and the TOC
      and pixel-rounding steps of the menu commands never run. */
  lemma UnknownSettingsUndefined(store: map<string, JsValue>)
    ensures StoredValueIn(store, "useTOC") == Undefined
    ensures StoredValueIn(store, "tocShowSectionsOnly") == Undefined
    ensures StoredValueIn(store, "roundToNearestPixel") == Undefined
  {
    KnownNames("useTOC");
    KnownNames("tocShowSectionsOnly");
    KnownNames("roundToNearestPixel");
  }

  /** The sections-only test of `createTOC` as written:
      `storedValue('tocShowSectionsOnly') == 0`. */
  function ShowSectionsOnlyAsWritten(store: map<string, JsValue>): bool
  {
    var v := StoredValueIn(store, "tocShowSectionsOnly");
    v == Num(0) || v == Str("0") || v == Str("") || v == Bool(false)
  }

  /** As written the test never holds: the name is not in the table. */
  lemma ShowSectionsOnlyNeverHolds(store: map<string, JsValue>)
    ensures !ShowSectionsOnlyAsWritten(store)
  {
    UnknownSettingsUndefined(store);
  }

  /** The intended test: the settings dialog stores the radio index of
      "Section headings only", 1, under `tocShowColumnsOnly`. */
  function ShowSectionsOnly(store: map<string, JsValue>): (r: bool)
    ensures r <==> StoredValueIn(store, "tocShowColumnsOnly") == Num(1)
  {
    StoredValueIn(store, "tocShowColumnsOnly") == Num(1)
  }

  /** With nothing stored the TOC lists all pages; once the dialog stores 1 it
      lists section headings only, and 0 switches that off again. */
  lemma ShowSectionsOnlyFollowsDialog(store: map<string, JsValue>)
    ensures !ShowSectionsOnly(map[])
    ensures ShowSectionsOnly(store["organize_document_showTOCSectionsOnly" := Num(1)])
    ensures !ShowSectionsOnly(store["organize_document_showTOCSectionsOnly" := Num(0)])
  {
    assert EntryFrom(ValuesForStorage, "tocShowColumnsOnly", 0) == Some(1);
  }

  /** The dash `addSectionNumbers` inserts as written: the stored `dashType`
      rendered by the template literal. */
  function DashAsWritten(store: map<string, JsValue>): string
  {
    ToDisplayString(StoredValueIn(store, "dashType"))
  }

  /** With nothing stored, titles come out as `"1 1 Intro"`: the dash is the
      dropdown index 1, not a dash. */
  lemma DashAsWrittenIsIndex()
    ensures DashAsWritten(map[]) == "1"
  {
    assert EntryFrom(ValuesForStorage, "dashType", 0) == Some(2);
  }

  /** The glyphs of the dash dropdown, in order. */
  const DashGlyphs: seq<string> := ["-", "\U{2013}", "\U{2014}"]

  /** The intended dash: the dropdown item at the stored index; an index
      outside the list selects item 0, as the dropdown itself does. */
  function DashGlyph(store: map<string, JsValue>): (r: string)
    ensures r in DashGlyphs
    ensures var v := StoredValueIn(store, "dashType"); v.Num? && 0 <= v.n < 3 ==> r == DashGlyphs[v.n]
  {
    var v := StoredValueIn(store, "dashType");
    if v.Num? && 0 <= v.n < |DashGlyphs| then DashGlyphs[v.n] else DashGlyphs[0]
  }

  /** With nothing stored the dash is the en dash, item 1 of the dropdown. */
  lemma DashGlyphDefault()
    ensures DashGlyph(map[]) == "\U{2013}"
  {
    assert EntryFrom(ValuesForStorage, "dashType", 0) == Some(2);
  }

  /** `if (storedValue('useSections'))` */
  function UseSections(store: map<string, JsValue>): (r: bool)
    ensures store == map[] ==> r
  {
    assert EntryFrom(ValuesForStorage, "useSections", 0) == Some(3);
    Truthy(StoredValueIn(store, "useSections"))
  }
}
