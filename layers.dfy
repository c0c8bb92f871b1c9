/** The host's layer tree as plain records, and the lookups of common.js that
    only read it: the artboard filter and the class-and-name searches. */
module Layers {
  import opened Js

  /** The host classes the plugin tests with `layer.class() === …`. */
  datatype LayerClass =
    | Artboard        // MSArtboardGroup
    | LayerGroup      // MSLayerGroup
    | SymbolInstance  // MSSymbolInstance
    | SymbolMaster    // MSSymbolMaster
    | TextLayer       // MSTextLayer
    | RectangleShape  // MSRectangleShape
    | OtherLayer

  datatype Frame = Frame(x: int, y: int, width: int, height: int)

  /** One host layer. `layers` are its direct children (`layers()`);
      `masterChildren` is what `symbolMaster().children()` answers for a symbol
      instance; `overrides` maps a master child's objectID to the instance's
      override text; `stringValue` is a text layer's text. */
  datatype Layer = Layer(
    cls: LayerClass,
    objectID: string,
    name: string,
    frame: Frame,
    layers: seq<Layer>,
    stringValue: string,
    masterChildren: seq<Layer>,
    overrides: map<string, JsValue>)

  /** `layer.children()`: the layer itself followed by all its descendants, depth first. */
  function Children(l: Layer): (r: seq<Layer>)
    ensures |r| >= 1 && r[0] == l
    decreases l
  {
    [l] + ChildrenOfAll(l.layers)
  }

  function ChildrenOfAll(ls: seq<Layer>): seq<Layer>
    decreases ls
  {
    if ls == [] then [] else Children(ls[0]) + ChildrenOfAll(ls[1..])
  }

  /** `layersWithClass(layers, cls)`: the layers of class `cls`, in order. */
  function FilterClass(ls: seq<Layer>, cls: LayerClass): (r: seq<Layer>)
    ensures |r| <= |ls|
    ensures forall k :: 0 <= k < |r| ==> r[k].cls == cls
  {
    if ls == [] then []
    else (if ls[0].cls == cls then [ls[0]] else []) + FilterClass(ls[1..], cls)
  }

  /** The filter keeps exactly the layers of the class. */
  lemma {:induction false} FilterClassMembers(ls: seq<Layer>, cls: LayerClass)
    ensures forall x :: x in FilterClass(ls, cls) <==> x in ls && x.cls == cls
  {
    if ls != [] {
      FilterClassMembers(ls[1..], cls);
      assert forall x :: x in ls <==> x == ls[0] || x in ls[1..];
    }
  }

  /** `layersWithClass(layers, cls)` */
  method LayersWithClass(ls: seq<Layer>, cls: LayerClass) returns (r: seq<Layer>)
    ensures r == FilterClass(ls, cls)
  {
    r := [];
    var i := |ls|;
    while i > 0
      invariant 0 <= i <= |ls|
      invariant r == FilterClass(ls[i..], cls)
    {
      i := i - 1;
      assert ls[i..] == [ls[i]] + ls[i + 1..];
      if ls[i].cls == cls {
        r := [ls[i]] + r;
      }
    }
  }

  /** The class filter commutes with concatenation, so it keeps the input order. */
  lemma {:induction false} FilterClassAppend(a: seq<Layer>, b: seq<Layer>, cls: LayerClass)
    ensures FilterClass(a + b, cls) == FilterClass(a, cls) + FilterClass(b, cls)
  {
    if a != [] {
      var head := if a[0].cls == cls then [a[0]] else [];
      assert (a + b)[0] == a[0] && (a + b)[1..] == a[1..] + b;
      FilterClassAppend(a[1..], b, cls);
      calc {
        FilterClass(a + b, cls);
        head + FilterClass(a[1..] + b, cls);
        head + (FilterClass(a[1..], cls) + FilterClass(b, cls));
        (head + FilterClass(a[1..], cls)) + FilterClass(b, cls);
      }
    } else {
      assert a + b == b;
    }
  }

  /** A list all of whose layers have the class is kept whole. */
  lemma {:induction false} FilterClassAll(ls: seq<Layer>, cls: LayerClass)
    requires forall k :: 0 <= k < |ls| ==> ls[k].cls == cls
    ensures FilterClass(ls, cls) == ls
  {
    if ls != [] {
      FilterClassAll(ls[1..], cls);
    }
  }

  /** `allArtboards(page)`: the artboard-class layers of the page, in order. */
  function AllArtboards(pageLayers: seq<Layer>): (r: seq<Layer>)
    ensures forall k :: 0 <= k < |r| ==> r[k].cls == Artboard
  {
    FilterClass(pageLayers, Artboard)
  }

  /** The artboards are exactly the page's layers of the artboard class. */
  lemma AllArtboardsMembers(pageLayers: seq<Layer>)
    ensures forall x :: x in AllArtboards(pageLayers) <==> x in pageLayers && x.cls == Artboard
    ensures AllArtboards(pageLayers) == [] <==> forall x :: x in pageLayers ==> x.cls != Artboard
  {
    FilterClassMembers(pageLayers, Artboard);
    if AllArtboards(pageLayers) != [] {
      assert AllArtboards(pageLayers)[0] in AllArtboards(pageLayers);
    }
  }

  predicate Matches(l: Layer, cls: LayerClass, name: string)
  {
    l.cls == cls && l.name == name
  }

  /** Specification of `layersWithName`: the layers of class `cls` named `name`, in order. */
  function NamedLayers(ls: seq<Layer>, cls: LayerClass, name: string): (r: seq<Layer>)
    ensures |r| <= |ls|
    ensures forall k :: 0 <= k < |r| ==> Matches(r[k], cls, name)
  {
    if ls == [] then []
    else NamedLayers(ls[..|ls| - 1], cls, name)
         + (if Matches(ls[|ls| - 1], cls, name) then [ls[|ls| - 1]] else [])
  }

  /** `NamedLayers` holds exactly the matching layers of the input. */
  lemma {:induction false} NamedLayersMembers(ls: seq<Layer>, cls: LayerClass, name: string)
    ensures var r := NamedLayers(ls, cls, name);
      && |r| <= |ls|
      && (forall k :: 0 <= k < |r| ==> Matches(r[k], cls, name) && r[k] in ls)
      && (forall k :: 0 <= k < |ls| && Matches(ls[k], cls, name) ==> ls[k] in r)
  {
    if ls != [] {
      var front := ls[..|ls| - 1];
      NamedLayersMembers(front, cls, name);
      assert forall k :: 0 <= k < |front| ==> front[k] == ls[k];
    }
  }

  /** `NamedLayers` commutes with concatenation, so it keeps the input order. */
  lemma {:induction false} NamedLayersAppend(a: seq<Layer>, b: seq<Layer>, cls: LayerClass, name: string)
    ensures NamedLayers(a + b, cls, name) == NamedLayers(a, cls, name) + NamedLayers(b, cls, name)
    decreases |b|
  {
    var ab := a + b;
    if b == [] {
      assert ab == a;
    } else {
      var b' := b[..|b| - 1];
      var x := b[|b| - 1];
      var last := if Matches(x, cls, name) then [x] else [];
      assert ab[..|ab| - 1] == a + b';
      assert ab[|ab| - 1] == x;
      assert NamedLayers(ab, cls, name) == NamedLayers(a + b', cls, name) + last;
      assert NamedLayers(b, cls, name) == NamedLayers(b', cls, name) + last;
      NamedLayersAppend(a, b', cls, name);
    }
  }

  /** When some layer matches, the first matching layer heads `NamedLayers`. */
  lemma {:induction false} NamedLayersHead(ls: seq<Layer>, cls: LayerClass, name: string, i: nat)
    requires i < |ls| && Matches(ls[i], cls, name)
    requires forall j :: 0 <= j < i ==> !Matches(ls[j], cls, name)
    ensures NamedLayers(ls, cls, name) != [] && NamedLayers(ls, cls, name)[0] == ls[i]
  {
    if i < |ls| - 1 {
      NamedLayersHead(ls[..|ls| - 1], cls, name, i);
    } else {
      NamedLayersMembers(ls[..|ls| - 1], cls, name);
    }
  }

  /** `layersWithName(layers, cls, name)`: collects every layer of class `cls` named `name`. */
  method LayersWithName(ls: seq<Layer>, cls: LayerClass, name: string) returns (r: seq<Layer>)
    ensures r == NamedLayers(ls, cls, name)
    ensures forall k :: 0 <= k < |r| ==> Matches(r[k], cls, name)
  {
    r := [];
    var i := 0;
    while i < |ls|
      invariant 0 <= i <= |ls|
      invariant r == NamedLayers(ls[..i], cls, name)
    {
      assert ls[..i + 1][..i] == ls[..i];
      if ls[i].cls == cls && ls[i].name == name {
        r := r + [ls[i]];
      }
      i := i + 1;
    }
    assert ls[..i] == ls;
    NamedLayersMembers(ls, cls, name);
  }

  /** Specification of `layerWithName`: the first layer of class `cls` named `name`. */
  function FirstNamed(ls: seq<Layer>, cls: LayerClass, name: string): Option<Layer>
  {
    var named := NamedLayers(ls, cls, name);
    if named == [] then None else Some(named[0])
  }

  /** `layerWithName(layers, cls, name)`: the first layer of class `cls` named
      `name`, or undefined when there is none; it is the head of `layersWithName`. */
  method LayerWithName(ls: seq<Layer>, cls: LayerClass, name: string) returns (r: Option<Layer>)
    ensures r.Some? ==> exists i :: 0 <= i < |ls| && ls[i] == r.value && Matches(ls[i], cls, name)
                                    && forall j :: 0 <= j < i ==> !Matches(ls[j], cls, name)
    ensures r.None? ==> forall j :: 0 <= j < |ls| ==> !Matches(ls[j], cls, name)
    ensures r == FirstNamed(ls, cls, name)
  {
    var i := 0;
    while i < |ls|
      invariant 0 <= i <= |ls|
      invariant forall j :: 0 <= j < i ==> !Matches(ls[j], cls, name)
    {
      if ls[i].cls == cls && ls[i].name == name {
        NamedLayersHead(ls, cls, name, i);
        return Some(ls[i]);
      }
      i := i + 1;
    }
    NamedLayersMembers(ls, cls, name);
    return None;
  }
}
