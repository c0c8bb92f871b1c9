/** symbolfunctions.js: the override slots of symbol instances. A slot is a
    child of the instance's master; the instance's `overrides` map that child's
    objectID to its text. Every search walks the master's children in order
    and stops at the first hit. */
module Symbols {
  import opened Js
  import opened Layers

  /** A master child holding the text of slot `name`. */
  predicate IsTextNamed(c: Layer, name: string)
  {
    c.cls == TextLayer && c.name == name
  }

  /** `overrides[id] !== undefined` */
  predicate HasEntry(overrides: map<string, JsValue>, id: string)
  {
    id in overrides && overrides[id] != Undefined
  }

  /** The child `setOverrideText` may write: a text child of that name whose objectID has an entry. */
  predicate IsWritable(c: Layer, name: string, overrides: map<string, JsValue>)
  {
    IsTextNamed(c, name) && HasEntry(overrides, c.objectID)
  }

  /** The first index from `from` on whose child is a text layer named `name`. */
  function TextChildFrom(cs: seq<Layer>, name: string, from: nat): (r: Option<nat>)
    requires from <= |cs|
    ensures r.Some? ==> from <= r.value < |cs|
    decreases |cs| - from
  {
    if from == |cs| then None
    else if IsTextNamed(cs[from], name) then Some(from)
    else TextChildFrom(cs, name, from + 1)
  }

  /** `TextChildFrom` finds the first text child of the name, or tells that there is none. */
  lemma {:induction false} TextChildFromMeaning(cs: seq<Layer>, name: string, from: nat)
    requires from <= |cs|
    ensures var r := TextChildFrom(cs, name, from);
      && (r.Some? ==> IsTextNamed(cs[r.value], name) && forall j :: from <= j < r.value ==> !IsTextNamed(cs[j], name))
      && (r.None? ==> forall j :: from <= j < |cs| ==> !IsTextNamed(cs[j], name))
    decreases |cs| - from
  {
    if from < |cs| && !IsTextNamed(cs[from], name) {
      TextChildFromMeaning(cs, name, from + 1);
    }
  }

  /** The first index from `from` on whose child, of any class, is named `name`. */
  function NamedChildFrom(cs: seq<Layer>, name: string, from: nat): (r: Option<nat>)
    requires from <= |cs|
    ensures r.Some? ==> from <= r.value < |cs|
    decreases |cs| - from
  {
    if from == |cs| then None
    else if cs[from].name == name then Some(from)
    else NamedChildFrom(cs, name, from + 1)
  }

  /** `NamedChildFrom` finds the first child of the name, or tells that there is none. */
  lemma {:induction false} NamedChildFromMeaning(cs: seq<Layer>, name: string, from: nat)
    requires from <= |cs|
    ensures var r := NamedChildFrom(cs, name, from);
      && (r.Some? ==> cs[r.value].name == name && forall j :: from <= j < r.value ==> cs[j].name != name)
      && (r.None? ==> forall j :: from <= j < |cs| ==> cs[j].name != name)
    decreases |cs| - from
  {
    if from < |cs| && cs[from].name != name {
      NamedChildFromMeaning(cs, name, from + 1);
    }
  }

  /** The first index from `from` on whose child `setOverrideText` may write. */
  function WritableChildFrom(cs: seq<Layer>, name: string, overrides: map<string, JsValue>, from: nat): (r: Option<nat>)
    requires from <= |cs|
    ensures r.Some? ==> from <= r.value < |cs|
    decreases |cs| - from
  {
    if from == |cs| then None
    else if IsWritable(cs[from], name, overrides) then Some(from)
    else WritableChildFrom(cs, name, overrides, from + 1)
  }

  /** `WritableChildFrom` finds the first writable child of the name, or tells that there is none. */
  lemma {:induction false} WritableChildFromMeaning(cs: seq<Layer>, name: string, overrides: map<string, JsValue>, from: nat)
    requires from <= |cs|
    ensures var r := WritableChildFrom(cs, name, overrides, from);
      && (r.Some? ==> IsWritable(cs[r.value], name, overrides)
                      && forall j :: from <= j < r.value ==> !IsWritable(cs[j], name, overrides))
      && (r.None? ==> forall j :: from <= j < |cs| ==> !IsWritable(cs[j], name, overrides))
    decreases |cs| - from
  {
    if from < |cs| && !IsWritable(cs[from], name, overrides) {
      WritableChildFromMeaning(cs, name, overrides, from + 1);
    }
  }

  /** Specification of `setOverrideText(instance, name, newText)`: the new
      instance and the value returned. */
  function SetOverride(inst: Layer, name: string, newText: JsValue): (r: (Layer, JsValue))
    ensures r.0 == inst.(overrides := r.0.overrides)
    ensures r.1 == newText || r.1 == Undefined
  {
    match WritableChildFrom(inst.masterChildren, name, inst.overrides, 0)
    case None => (inst, Undefined)
    case Some(i) =>
      var id := inst.masterChildren[i].objectID;
      (inst.(overrides := inst.overrides[id := newText]), newText)
  }

  /** Without a writable child nothing changes and undefined comes back;
      with one, exactly that child's entry gets the new text, which is returned. */
  lemma SetOverrideMeaning(inst: Layer, name: string, newText: JsValue)
    ensures WritableChildFrom(inst.masterChildren, name, inst.overrides, 0).None? ==>
      SetOverride(inst, name, newText) == (inst, Undefined)
    ensures WritableChildFrom(inst.masterChildren, name, inst.overrides, 0).Some? ==>
      var r := SetOverride(inst, name, newText);
      var id := inst.masterChildren[WritableChildFrom(inst.masterChildren, name, inst.overrides, 0).value].objectID;
      && r.1 == newText
      && r.0.overrides[id] == newText
      && forall other :: other in inst.overrides && other != id ==> r.0.overrides[other] == inst.overrides[other]
    ensures SetOverride(inst, name, newText).0.overrides.Keys == inst.overrides.Keys
  {
    WritableChildFromMeaning(inst.masterChildren, name, inst.overrides, 0);
  }

  /** `setOverrideText(instance, name, newText)`: writes `newText` into the
      entry of the first same-named text child that already has one, and
      returns it; returns undefined and writes nothing when there is none. */
  method SetOverrideText(inst: Layer, name: string, newText: JsValue) returns (updated: Layer, r: JsValue)
    ensures (updated, r) == SetOverride(inst, name, newText)
    ensures updated.overrides.Keys == inst.overrides.Keys
    ensures r == newText <== WritableChildFrom(inst.masterChildren, name, inst.overrides, 0).Some?
  {
    SetOverrideMeaning(inst, name, newText);
    var children := inst.masterChildren;
    var i := 0;
    while i < |children|
      invariant 0 <= i <= |children|
      invariant WritableChildFrom(children, name, inst.overrides, 0) == WritableChildFrom(children, name, inst.overrides, i)
    {
      var child := children[i];
      if child.cls == TextLayer && child.name == name {
        var objectID := child.objectID;
        if objectID in inst.overrides && inst.overrides[objectID] != Undefined {
          var overrides := inst.overrides;
          overrides := overrides[objectID := newText];
          updated := inst.(overrides := overrides);
          return updated, newText;
        }
      }
      i := i + 1;
    }
    return inst, Undefined;
  }

  /** Specification of `getOverrideText(instance, name)`: the entry of the first
      same-named text child, undefined when there is no such child or entry. */
  function OverrideText(inst: Layer, name: string): JsValue
  {
    match TextChildFrom(inst.masterChildren, name, 0)
    case None => Undefined
    case Some(i) =>
      var id := inst.masterChildren[i].objectID;
      if id in inst.overrides then inst.overrides[id] else Undefined
  }

  /** `getOverrideText(instance, name)` */
  method GetOverrideText(inst: Layer, name: string) returns (r: JsValue)
    ensures r == OverrideText(inst, name)
    ensures r != Undefined ==> exists i :: 0 <= i < |inst.masterChildren| && IsTextNamed(inst.masterChildren[i], name)
  {
    var children := inst.masterChildren;
    var i := 0;
    while i < |children|
      invariant 0 <= i <= |children|
      invariant TextChildFrom(children, name, 0) == TextChildFrom(children, name, i)
    {
      var child := children[i];
      if child.cls == TextLayer && child.name == name {
        return if child.objectID in inst.overrides then inst.overrides[child.objectID] else Undefined;
      }
      i := i + 1;
    }
    return Undefined;
  }

  /** Specification of `instanceHasOverride(instance, name)`. */
  function HasOverride(inst: Layer, name: string): bool
  {
    NamedChildFrom(inst.masterChildren, name, 0).Some?
  }

  /** `instanceHasOverride(instance, name)`: some master child, of any class, has the name. */
  method InstanceHasOverride(inst: Layer, name: string) returns (b: bool)
    ensures b == HasOverride(inst, name)
    ensures b <==> exists i :: 0 <= i < |inst.masterChildren| && inst.masterChildren[i].name == name
  {
    var children := inst.masterChildren;
    NamedChildFromMeaning(children, name, 0);
    var i := 0;
    while i < |children|
      invariant 0 <= i <= |children|
      invariant forall j :: 0 <= j < i ==> children[j].name != name
    {
      if children[i].name == name {
        return true;
      }
      i := i + 1;
    }
    return false;
  }

  /** Writing and reading need a text child of the name; having the slot needs
      only a child of that name, of any class. */
  lemma TextSlotIsSlot(inst: Layer, name: string, newText: JsValue)
    ensures OverrideText(inst, name) != Undefined ==> HasOverride(inst, name)
    ensures SetOverride(inst, name, newText).0 != inst ==> HasOverride(inst, name)
  {
    var cs := inst.masterChildren;
    TextChildFromMeaning(cs, name, 0);
    NamedChildFromMeaning(cs, name, 0);
    WritableChildFromMeaning(cs, name, inst.overrides, 0);
    if OverrideText(inst, name) != Undefined {
      var i := TextChildFrom(cs, name, 0).value;
      assert cs[i].name == name;
    }
    if SetOverride(inst, name, newText).0 != inst {
      var i := WritableChildFrom(cs, name, inst.overrides, 0).value;
      assert cs[i].name == name;
    }
  }

  /** When the master has exactly one text child named `name` and
      `setOverrideText` wrote to it, `getOverrideText` then reads the new text. */
  lemma {:induction false} SetThenGet(inst: Layer, name: string, newText: JsValue, i: nat)
    requires i < |inst.masterChildren| && IsTextNamed(inst.masterChildren[i], name)
    requires forall j :: 0 <= j < |inst.masterChildren| && j != i ==> !IsTextNamed(inst.masterChildren[j], name)
    requires WritableChildFrom(inst.masterChildren, name, inst.overrides, 0).Some?
    ensures OverrideText(SetOverride(inst, name, newText).0, name) == newText
  {
    var cs := inst.masterChildren;
    WritableChildFromMeaning(cs, name, inst.overrides, 0);
    TextChildFromMeaning(cs, name, 0);
    SetOverrideMeaning(inst, name, newText);
    var w := WritableChildFrom(cs, name, inst.overrides, 0).value;
    assert w == i;
    var t := TextChildFrom(cs, name, 0);
    assert t == Some(i);
  }

  /** Writing one slot leaves every other slot's text as it was, provided the
      two slots live in different master children. */
  lemma SetKeepsOtherSlots(inst: Layer, name: string, other: string, newText: JsValue)
    requires var t := TextChildFrom(inst.masterChildren, other, 0);
             var w := WritableChildFrom(inst.masterChildren, name, inst.overrides, 0);
             t.Some? && w.Some? ==> inst.masterChildren[t.value].objectID != inst.masterChildren[w.value].objectID
    ensures OverrideText(SetOverride(inst, name, newText).0, other) == OverrideText(inst, other)
  {
  }

  /** Specification of `getInstanceDefaultOverrideText(instance, name)`: the
      master's own text of the first same-named text child. */
  function DefaultOverrideText(inst: Layer, name: string): Option<string>
  {
    match TextChildFrom(inst.masterChildren, name, 0)
    case None => None
    case Some(i) => Some(inst.masterChildren[i].stringValue)
  }

  /** `getInstanceDefaultOverrideText(instance, name)`: reads the master, never the instance's overrides. */
  method GetInstanceDefaultOverrideText(inst: Layer, name: string) returns (r: Option<string>)
    ensures r == DefaultOverrideText(inst, name)
    ensures r.Some? ==> exists i :: 0 <= i < |inst.masterChildren| && IsTextNamed(inst.masterChildren[i], name)
                                    && r.value == inst.masterChildren[i].stringValue
    ensures forall ov :: r == DefaultOverrideText(inst.(overrides := ov), name)
  {
    var children := inst.masterChildren;
    TextChildFromMeaning(children, name, 0);
    var i := 0;
    while i < |children|
      invariant 0 <= i <= |children|
      invariant TextChildFrom(children, name, 0) == TextChildFrom(children, name, i)
    {
      if children[i].cls == TextLayer && children[i].name == name {
        return Some(children[i].stringValue);
      }
      i := i + 1;
    }
    return None;
  }

  /** Specification of `getOverrideLayerfromSymbol(symbol, name)`: the first of
      `symbol.children()` named `name`, of any class. */
  function OverrideLayerOf(symbol: Layer, name: string): Option<Layer>
  {
    var cs := Children(symbol);
    match NamedChildFrom(cs, name, 0)
    case None => None
    case Some(i) => Some(cs[i])
  }

  /** `getOverrideLayerfromSymbol(symbol, name)` */
  method GetOverrideLayerFromSymbol(symbol: Layer, name: string) returns (r: Option<Layer>)
    ensures r == OverrideLayerOf(symbol, name)
    ensures r.Some? ==> r.value.name == name && exists j :: 0 <= j < |Children(symbol)| && Children(symbol)[j] == r.value
    ensures r.None? ==> forall j :: 0 <= j < |Children(symbol)| ==> Children(symbol)[j].name != name
  {
    var children := Children(symbol);
    NamedChildFromMeaning(children, name, 0);
    var i := 0;
    while i < |children|
      invariant 0 <= i <= |children|
      invariant NamedChildFrom(children, name, 0) == NamedChildFrom(children, name, i)
    {
      if children[i].name == name {
        return Some(children[i]);
      }
      i := i + 1;
    }
    return None;
  }

  /** The number of master children named `name`, of any class. */
  function CountNamed(cs: seq<Layer>, name: string): nat
  {
    if cs == [] then 0
    else CountNamed(cs[..|cs| - 1], name) + (if cs[|cs| - 1].name == name then 1 else 0)
  }

  /** `r` repeated `n` times. */
  function Repeat(x: Layer, n: nat): (r: seq<Layer>)
    ensures |r| == n && forall k :: 0 <= k < n ==> r[k] == x
  {
    if n == 0 then [] else Repeat(x, n - 1) + [x]
  }

  /** Specification of `symbolsWithOverride(symbols, name)`: each symbol once
      per master child named `name`, in input order. */
  function SymbolsWithOverrideSpec(symbols: seq<Layer>, name: string): seq<Layer>
  {
    if symbols == [] then []
    else
      var s := symbols[|symbols| - 1];
      SymbolsWithOverrideSpec(symbols[..|symbols| - 1], name) + Repeat(s, CountNamed(s.masterChildren, name))
  }

  /** `symbolsWithOverride(symbols, name)`: the `continue` only moves the inner
      loop on, so a symbol is pushed once for every matching child. */
  method SymbolsWithOverride(symbols: seq<Layer>, name: string) returns (r: seq<Layer>)
    ensures r == SymbolsWithOverrideSpec(symbols, name)
  {
    r := [];
    var i := 0;
    while i < |symbols|
      invariant 0 <= i <= |symbols|
      invariant r == SymbolsWithOverrideSpec(symbols[..i], name)
    {
      var symbol := symbols[i];
      var children := symbol.masterChildren;
      ghost var before := r;
      var j := 0;
      while j < |children|
        invariant 0 <= j <= |children|
        invariant r == before + Repeat(symbol, CountNamed(children[..j], name))
      {
        assert children[..j + 1][..j] == children[..j];
        if children[j].name == name {
          r := r + [symbol];
          j := j + 1;
          continue;
        }
        j := j + 1;
      }
      assert children[..j] == children;
      assert symbols[..i + 1][..i] == symbols[..i];
      i := i + 1;
    }
    assert symbols[..i] == symbols;
  }

  /** A master has the slot exactly when it has at least one child of that name. */
  lemma {:induction false} CountNamedPositive(cs: seq<Layer>, name: string)
    ensures CountNamed(cs, name) > 0 <==> exists i :: 0 <= i < |cs| && cs[i].name == name
  {
    if cs != [] {
      CountNamedPositive(cs[..|cs| - 1], name);
      assert forall i :: 0 <= i < |cs| - 1 ==> cs[..|cs| - 1][i] == cs[i];
    }
  }

  /** The symbols that have the slot, each once, in order. */
  function WithOverride(symbols: seq<Layer>, name: string): seq<Layer>
  {
    if symbols == [] then []
    else
      var s := symbols[|symbols| - 1];
      WithOverride(symbols[..|symbols| - 1], name) + (if HasOverride(s, name) then [s] else [])
  }

  /** When no master has two children of that name, `symbolsWithOverride` is
      just the order-preserving filter by `instanceHasOverride`. */
  lemma {:induction false} SymbolsWithOverrideOnce(symbols: seq<Layer>, name: string)
    requires forall k :: 0 <= k < |symbols| ==> CountNamed(symbols[k].masterChildren, name) <= 1
    ensures SymbolsWithOverrideSpec(symbols, name) == WithOverride(symbols, name)
  {
    if symbols != [] {
      var s := symbols[|symbols| - 1];
      SymbolsWithOverrideOnce(symbols[..|symbols| - 1], name);
      CountNamedPositive(s.masterChildren, name);
      var cs := s.masterChildren;
      NamedChildFromMeaning(cs, name, 0);
      assert HasOverride(s, name) <==> exists i :: 0 <= i < |cs| && cs[i].name == name;
      assert Repeat(s, CountNamed(cs, name)) == if HasOverride(s, name) then [s] else [];
    }
  }

  /** Every symbol `symbolsWithOverride` returns has the slot and comes from the input. */
  lemma {:induction false} SymbolsWithOverrideMembers(symbols: seq<Layer>, name: string)
    ensures forall k :: 0 <= k < |SymbolsWithOverrideSpec(symbols, name)| ==>
      var x := SymbolsWithOverrideSpec(symbols, name)[k]; x in symbols && HasOverride(x, name)
  {
    if symbols != [] {
      var s := symbols[|symbols| - 1];
      var front := symbols[..|symbols| - 1];
      SymbolsWithOverrideMembers(front, name);
      CountNamedPositive(s.masterChildren, name);
      var r := SymbolsWithOverrideSpec(symbols, name);
      var a := SymbolsWithOverrideSpec(front, name);
      var b := Repeat(s, CountNamed(s.masterChildren, name));
      assert r == a + b;
      forall k | 0 <= k < |r| ensures r[k] in symbols && HasOverride(r[k], name) {
        if k < |a| {
          assert r[k] == a[k] && a[k] in front;
        } else {
          assert r[k] == b[k - |a|] == s;
          NamedChildFromMeaning(s.masterChildren, name, 0);
          assert HasOverride(s, name) <==> exists i :: 0 <= i < |s.masterChildren| && s.masterChildren[i].name == name;
        }
      }
    }
  }

  /** `symbolMasterWithOverrideName` looks at every child of a master, in
      `children()` order, for a text layer of the name. */
  predicate MasterHasTextSlot(master: Layer, name: string)
  {
    TextChildFrom(Children(master), name, 0).Some?
  }

  /** The first master, from `from` on, having a text child named `name`. */
  function MasterWithTextFrom(masters: seq<Layer>, name: string, from: nat): (r: Option<nat>)
    requires from <= |masters|
    ensures r.Some? ==> from <= r.value < |masters|
    decreases |masters| - from
  {
    if from == |masters| then None
    else if MasterHasTextSlot(masters[from], name) then Some(from)
    else MasterWithTextFrom(masters, name, from + 1)
  }

  /** `MasterWithTextFrom` finds the first master with the slot, or tells that there is none. */
  lemma {:induction false} MasterWithTextFromMeaning(masters: seq<Layer>, name: string, from: nat)
    requires from <= |masters|
    ensures var r := MasterWithTextFrom(masters, name, from);
      && (r.Some? ==> MasterHasTextSlot(masters[r.value], name)
                      && forall j :: from <= j < r.value ==> !MasterHasTextSlot(masters[j], name))
      && (r.None? ==> forall j :: from <= j < |masters| ==> !MasterHasTextSlot(masters[j], name))
    decreases |masters| - from
  {
    if from < |masters| && !MasterHasTextSlot(masters[from], name) {
      MasterWithTextFromMeaning(masters, name, from + 1);
    }
  }

  /** Specification of `symbolMasterWithOverrideName(doc, name)` over the
      document's masters in `allSymbols()` order. */
  function MasterWithOverrideName(masters: seq<Layer>, name: string): Option<Layer>
  {
    match MasterWithTextFrom(masters, name, 0)
    case None => None
    case Some(i) => Some(masters[i])
  }

  /** `symbolMasterWithOverrideName(doc, name)`: the first master in document
      order with a text child of that name, else undefined. */
  method SymbolMasterWithOverrideName(masters: seq<Layer>, name: string) returns (r: Option<Layer>)
    ensures r == MasterWithOverrideName(masters, name)
    ensures r.Some? ==> r.value in masters && MasterHasTextSlot(r.value, name)
    ensures r.None? ==> forall m :: m in masters ==> !MasterHasTextSlot(m, name)
  {
    MasterWithTextFromMeaning(masters, name, 0);
    var i := 0;
    while i < |masters|
      invariant 0 <= i <= |masters|
      invariant MasterWithTextFrom(masters, name, 0) == MasterWithTextFrom(masters, name, i)
    {
      var symbolMaster := masters[i];
      var children := Children(symbolMaster);
      var j := 0;
      while j < |children|
        invariant 0 <= j <= |children|
        invariant TextChildFrom(children, name, 0) == TextChildFrom(children, name, j)
      {
        var child := children[j];
        if child.cls == TextLayer && child.name == name {
          return Some(symbolMaster);
        }
        j := j + 1;
      }
      i := i + 1;
    }
    return None;
  }
}
