/**
 * The scene editor's state: the shape list, the undo history of shape-list
 * snapshots, the selected object, and per-shape keyframes (shape id -> frame ->
 * transform), with the handlers that replace them.
 */
module Playground {
  import opened Wrappers
  import opened Scene

  // ---------------------------------------------------------------------------
  // The shape library and icon lookup

  datatype LibraryEntry = LibraryEntry(id: string, name: string, icon: string)

  /** A named group of library entries; groups are scanned in declaration order. */
  datatype Category = Category(name: string, entries: seq<LibraryEntry>)

  /** The icon of a shape type that no library entry has. */
  const DefaultIcon: string := "⬡"

  const ShapeLibrary: seq<Category> := [
    Category("basic", [
      LibraryEntry("cube", "Cube", "⧈"),
      LibraryEntry("sphere", "Sphere", "○"),
      LibraryEntry("cylinder", "Cylinder", "⌭"),
      LibraryEntry("cone", "Cone", "△"),
      LibraryEntry("torus", "Torus", "◎"),
      LibraryEntry("pyramid", "Pyramid", "△")]),
    Category("platonic", [
      LibraryEntry("tetrahedron", "Tetrahedron", "△"),
      LibraryEntry("octahedron", "Octahedron", "◇"),
      LibraryEntry("dodecahedron", "Dodecahedron", "⬡"),
      LibraryEntry("icosahedron", "Icosahedron", "◈")]),
    Category("geometric", [
      LibraryEntry("prism", "Prism", "⬢"),
      LibraryEntry("capsule", "Capsule", "⬭"),
      LibraryEntry("tube", "Tube", "⌽")]),
    Category("architectural", [
      LibraryEntry("arch", "Arch", "⌓"),
      LibraryEntry("stairs", "Stairs", "⌶"),
      LibraryEntry("wall", "Wall", "▯")]),
    Category("furniture", [
      LibraryEntry("chair", "Chair", "🪑"),
      LibraryEntry("table", "Table", "🪟"),
      LibraryEntry("bed", "Bed", "🛏"),
      LibraryEntry("cabinet", "Cabinet", "🗄")]),
    Category("vehicles", [
      LibraryEntry("car", "Car", "🚗"),
      LibraryEntry("bus", "Bus", "🚌"),
      LibraryEntry("motorcycle", "Motorcycle", "🏍"),
      LibraryEntry("airplane", "Airplane", "✈")]),
    Category("household", [
      LibraryEntry("book", "Book", "📖"),
      LibraryEntry("bottle", "Bottle", "🍶"),
      LibraryEntry("plate", "Plate", "🍽")]),
    Category("characters", [
      LibraryEntry("man", "Man", "👨"),
      LibraryEntry("woman", "Woman", "👩"),
      LibraryEntry("dog", "Dog", "🐕")]),
    Category("electronics", [
      LibraryEntry("phone", "Phone", "📱"),
      LibraryEntry("computer", "Computer", "💻"),
      LibraryEntry("tv", "TV", "📺")])
  ]

  /** `entries.find(item => item.id === shapeType)`, reduced to the icon. */
  function FindIn(entries: seq<LibraryEntry>, shapeType: string): Option<string>
  {
    if |entries| == 0 then None
    else if entries[0].id == shapeType then Some(entries[0].icon)
    else FindIn(entries[1..], shapeType)
  }

  /** The icon the library gives `shapeType`: the first category holding a match
      decides, and with no match anywhere it is DefaultIcon. */
  function LibraryIcon(library: seq<Category>, shapeType: string): string
  {
    if |library| == 0 then DefaultIcon
    else match FindIn(library[0].entries, shapeType)
      case Some(icon) => icon
      case None => LibraryIcon(library[1..], shapeType)
  }

  /** All entries of the library, category after category. */
  function Flatten(library: seq<Category>): seq<LibraryEntry>
  {
    if |library| == 0 then [] else library[0].entries + Flatten(library[1..])
  }

  lemma {:induction false} FindInMiss(entries: seq<LibraryEntry>, shapeType: string)
    requires forall k :: 0 <= k < |entries| ==> entries[k].id != shapeType
    ensures FindIn(entries, shapeType) == None
  {
    if |entries| > 0 {
      FindInMiss(entries[1..], shapeType);
    }
  }

  lemma {:induction false} FindInHit(entries: seq<LibraryEntry>, shapeType: string, k: nat)
    requires k < |entries| && entries[k].id == shapeType
    requires forall j :: 0 <= j < k ==> entries[j].id != shapeType
    ensures FindIn(entries, shapeType) == Some(entries[k].icon)
  {
    if k > 0 {
      FindInHit(entries[1..], shapeType, k - 1);
    }
  }

  /** A type that no entry of the library has gets the default icon. */
  lemma {:induction false} LibraryIconMiss(library: seq<Category>, shapeType: string)
    requires forall e :: e in Flatten(library) ==> e.id != shapeType
    ensures LibraryIcon(library, shapeType) == DefaultIcon
  {
    if |library| > 0 {
      var all := Flatten(library);
      assert all == library[0].entries + Flatten(library[1..]);
      forall k | 0 <= k < |library[0].entries|
        ensures library[0].entries[k].id != shapeType
      {
        assert all[k] == library[0].entries[k];
      }
      FindInMiss(library[0].entries, shapeType);
      forall e | e in Flatten(library[1..]) ensures e.id != shapeType {
        var k :| 0 <= k < |Flatten(library[1..])| && Flatten(library[1..])[k] == e;
        assert all[|library[0].entries| + k] == e;
      }
      LibraryIconMiss(library[1..], shapeType);
    }
  }

  /** Otherwise the icon is that of the first matching entry, in category order. */
  lemma {:induction false} LibraryIconHit(library: seq<Category>, shapeType: string, k: nat)
    requires k < |Flatten(library)| && Flatten(library)[k].id == shapeType
    requires forall j :: 0 <= j < k ==> Flatten(library)[j].id != shapeType
    ensures LibraryIcon(library, shapeType) == Flatten(library)[k].icon
  {
    var all := Flatten(library);
    var first := library[0].entries;
    assert all == first + Flatten(library[1..]);
    if k < |first| {
      forall j | 0 <= j < k ensures first[j].id != shapeType {
        assert all[j] == first[j];
      }
      assert all[k] == first[k];
      FindInHit(first, shapeType, k);
    } else {
      var rest := Flatten(library[1..]);
      forall j | 0 <= j < k - |first| ensures rest[j].id != shapeType {
        assert all[|first| + j] == rest[j];
      }
      assert all[k] == rest[k - |first|];
      forall j | 0 <= j < |first| ensures first[j].id != shapeType {
        assert all[j] == first[j];
      }
      FindInMiss(first, shapeType);
      LibraryIconHit(library[1..], shapeType, k - |first|);
    }
  }

  /** findShapeIcon: scan the categories in order, and in each the entries in
      order; return the icon of the first entry whose id is `shapeType`. */
  method FindShapeIcon(library: seq<Category>, shapeType: string) returns (icon: string)
    ensures icon == LibraryIcon(library, shapeType)
  {
    var c := 0;
    while c < |library|
      invariant 0 <= c <= |library|
      invariant LibraryIcon(library[c..], shapeType) == LibraryIcon(library, shapeType)
    {
      var entries := library[c].entries;
      var k := 0;
      while k < |entries|
        invariant 0 <= k <= |entries|
        invariant FindIn(entries[k..], shapeType) == FindIn(entries, shapeType)
      {
        if entries[k].id == shapeType {
          return entries[k].icon;
        }
        assert entries[k..][1..] == entries[k + 1..];
        k := k + 1;
      }
      assert library[c..][1..] == library[c + 1..];
      c := c + 1;
    }
    return DefaultIcon;
  }

  // ---------------------------------------------------------------------------
  // Shapes, updates and keyframes

  /** What addShape is given: a library type name, or an imported model record. */
  datatype ShapeData = TypeName(name: string) | ImportedShape(shape: Shape)

  /** A stored transform. A component is None where the handler read it from a
      keyframe that did not exist (`undefined`). */
  datatype Keyframe = Keyframe(position: Option<seq<int>>, rotation: Option<seq<int>>, scale: Option<int>)

  /** The properties an update carries, one for each property of a shape; None
      for a property it does not have. */
  datatype Updates = Updates(
    id: Option<int>,
    shapeType: Option<string>,
    icon: Option<string>,
    position: Option<seq<int>>,
    rotation: Option<seq<int>>,
    color: Option<string>,
    scale: Option<int>,
    modelType: Option<string>,
    modelUrl: Option<string>,
    texturePath: Option<string>)

  /** An update that carries no property. */
  const NoUpdates: Updates := Updates(None, None, None, None, None, None, None, None, None, None)

  /** Shape id -> frame -> keyframe. */
  type Keyframes = map<int, map<int, Keyframe>>

  /** The record addShape builds for a library type. */
  function NewShape(id: int, shapeType: string, icon: string): Shape
  {
    Shape(id, shapeType, icon, [0, 0, 0], [0, 0, 0], "#888888", 1, "", "", "")
  }

  /** `{ ...shape, ...updates }`: every property the update carries replaces the
      shape's, and every other property is the shape's. */
  function Merge(shape: Shape, u: Updates): (r: Shape)
    ensures r.id == (if u.id.Some? then u.id.value else shape.id)
    ensures r.shapeType == (if u.shapeType.Some? then u.shapeType.value else shape.shapeType)
    ensures r.icon == (if u.icon.Some? then u.icon.value else shape.icon)
    ensures r.position == (if u.position.Some? then u.position.value else shape.position)
    ensures r.rotation == (if u.rotation.Some? then u.rotation.value else shape.rotation)
    ensures r.color == (if u.color.Some? then u.color.value else shape.color)
    ensures r.scale == (if u.scale.Some? then u.scale.value else shape.scale)
    ensures r.modelType == (if u.modelType.Some? then u.modelType.value else shape.modelType)
    ensures r.modelUrl == (if u.modelUrl.Some? then u.modelUrl.value else shape.modelUrl)
    ensures r.texturePath == (if u.texturePath.Some? then u.texturePath.value else shape.texturePath)
  {
    Shape(
      u.id.GetOr(shape.id),
      u.shapeType.GetOr(shape.shapeType),
      u.icon.GetOr(shape.icon),
      u.position.GetOr(shape.position),
      u.rotation.GetOr(shape.rotation),
      u.color.GetOr(shape.color),
      u.scale.GetOr(shape.scale),
      u.modelType.GetOr(shape.modelType),
      u.modelUrl.GetOr(shape.modelUrl),
      u.texturePath.GetOr(shape.texturePath))
  }

  /** An update that carries nothing leaves the shape as it is. */
  lemma MergeNothing(shape: Shape)
    ensures Merge(shape, NoUpdates) == shape
  {
  }

  /** Merging the same update a second time changes nothing more. */
  lemma MergeTwice(shape: Shape, u: Updates)
    ensures Merge(Merge(shape, u), u) == Merge(shape, u)
  {
  }

  /** `shapes.map(shape => shape.id === id ? { ...shape, ...updates } : shape)`. */
  function ApplyUpdates(shapes: seq<Shape>, id: int, u: Updates): (r: seq<Shape>)
    ensures |r| == |shapes|
    ensures forall i :: 0 <= i < |shapes| && shapes[i].id == id ==> r[i] == Merge(shapes[i], u)
    ensures forall i :: 0 <= i < |shapes| && shapes[i].id != id ==> r[i] == shapes[i]
  {
    if |shapes| == 0 then []
    else [if shapes[0].id == id then Merge(shapes[0], u) else shapes[0]] + ApplyUpdates(shapes[1..], id, u)
  }

  /** Applying the same update twice is the same as applying it once. */
  lemma ApplyUpdatesIdempotent(shapes: seq<Shape>, id: int, u: Updates)
    ensures ApplyUpdates(ApplyUpdates(shapes, id, u), id, u) == ApplyUpdates(shapes, id, u)
  {
    var once := ApplyUpdates(shapes, id, u);
    var twice := ApplyUpdates(once, id, u);
    forall i | 0 <= i < |shapes| ensures twice[i] == once[i] {
      if shapes[i].id == id {
        assert once[i] == Merge(shapes[i], u);
        MergeTwice(shapes[i], u);
      }
    }
  }

  /** `shapes.filter(shape => shape.id !== id)`. */
  function WithoutId(shapes: seq<Shape>, id: int): (r: seq<Shape>)
    ensures |r| <= |shapes|
    ensures forall s :: s in r <==> s in shapes && s.id != id
  {
    if |shapes| == 0 then []
    else if shapes[0].id == id then WithoutId(shapes[1..], id)
    else [shapes[0]] + WithoutId(shapes[1..], id)
  }

  /** Removal keeps the order of what stays: it distributes over concatenation. */
  lemma {:induction false} WithoutIdAppend(a: seq<Shape>, b: seq<Shape>, id: int)
    ensures WithoutId(a + b, id) == WithoutId(a, id) + WithoutId(b, id)
  {
    if |a| > 0 {
      var ab := a + b;
      assert ab[0] == a[0] && ab[1..] == a[1..] + b;
      WithoutIdAppend(a[1..], b, id);
      if a[0].id == id {
        calc {
          WithoutId(ab, id);
          WithoutId(a[1..] + b, id);
          WithoutId(a[1..], id) + WithoutId(b, id);
        }
      } else {
        calc {
          WithoutId(ab, id);
          [a[0]] + WithoutId(a[1..] + b, id);
          [a[0]] + (WithoutId(a[1..], id) + WithoutId(b, id));
          ([a[0]] + WithoutId(a[1..], id)) + WithoutId(b, id);
        }
      }
    } else {
      assert a + b == b;
    }
  }

  /** A list without the id is left as it is. */
  lemma {:induction false} WithoutAbsentId(shapes: seq<Shape>, id: int)
    requires forall i :: 0 <= i < |shapes| ==> shapes[i].id != id
    ensures WithoutId(shapes, id) == shapes
  {
    if |shapes| > 0 {
      WithoutAbsentId(shapes[1..], id);
    }
  }

  /** The frames stored for `id` (`prev[id]`, or none). */
  function FramesOf(data: Keyframes, id: int): map<int, Keyframe>
  {
    if id in data then data[id] else map[]
  }

  /** `prev[id]?.[frame]`: the stored keyframe, or one whose components are all
      undefined. */
  function KeyframeAt(data: Keyframes, id: int, frame: int): Keyframe
  {
    var frames := FramesOf(data, id);
    if frame in frames then frames[frame] else Keyframe(None, None, None)
  }

  /** The keyframe updateObject writes at `frame` for `id`: each component is the
      update's when it is truthy, otherwise the stored keyframe's. A scale of 0 is
      falsy, so it does not replace the stored scale. */
  function WriteKeyframe(data: Keyframes, id: int, frame: int, u: Updates): (r: Keyframes)
    ensures r.Keys == data.Keys + {id}
    ensures forall other :: other in data && other != id ==> r[other] == data[other]
    ensures r[id].Keys == FramesOf(data, id).Keys + {frame}
    ensures forall f :: f in FramesOf(data, id) && f != frame ==> r[id][f] == data[id][f]
    ensures r[id][frame].position == if u.position.Some? then u.position else KeyframeAt(data, id, frame).position
    ensures r[id][frame].rotation == if u.rotation.Some? then u.rotation else KeyframeAt(data, id, frame).rotation
    ensures r[id][frame].scale ==
      if u.scale.Some? && u.scale.value != 0 then u.scale else KeyframeAt(data, id, frame).scale
  {
    var before := KeyframeAt(data, id, frame);
    var written := Keyframe(
      if u.position.Some? then u.position else before.position,
      if u.rotation.Some? then u.rotation else before.rotation,
      if u.scale.Some? && u.scale.value != 0 then u.scale else before.scale);
    data[id := FramesOf(data, id)[frame := written]]
  }

  // ---------------------------------------------------------------------------
  // The editor

  class Editor {
    var shapes: seq<Shape>
    var history: seq<seq<Shape>>
    var selectedObject: Option<Shape>
    var animationData: Keyframes
    var currentFrame: int

    constructor ()
      ensures shapes == [] && history == [] && selectedObject == None
      ensures animationData == map[] && currentFrame == 0
    {
      shapes, history, selectedObject := [], [], None;
      animationData, currentFrame := map[], 0;
    }

    /** setSelectedObject, as the sidebar and the canvas call it. */
    method Select(shape: Shape)
      modifies this
      ensures selectedObject == Some(shape)
      ensures shapes == old(shapes) && history == old(history)
      ensures animationData == old(animationData) && currentFrame == old(currentFrame)
    {
      selectedObject := Some(shape);
    }

    /** setCurrentFrame, as the canvas and the timeline call it. */
    method SetCurrentFrame(frame: int)
      modifies this
      ensures currentFrame == frame
      ensures shapes == old(shapes) && history == old(history)
      ensures selectedObject == old(selectedObject) && animationData == old(animationData)
    {
      currentFrame := frame;
    }

    /** addShape: remember the current list in the history, then append the new
        shape. A type name becomes a fresh shape with the default transform and a
        keyframe 0 holding that transform; an imported record is appended as it is.
        `freshId` stands for `Date.now()`. */
    method AddShape(data: ShapeData, freshId: int)
      modifies this
      ensures history == old(history) + [old(shapes)]
      ensures |shapes| == |old(shapes)| + 1 && shapes[..|old(shapes)|] == old(shapes)
      ensures data.ImportedShape? ==> shapes[|shapes| - 1] == data.shape
      ensures data.ImportedShape? ==> animationData == old(animationData)
      ensures data.TypeName? ==>
        var added := shapes[|shapes| - 1];
        && added.id == freshId && added.shapeType == data.name
        && added.icon == LibraryIcon(ShapeLibrary, data.name)
        && added.position == [0, 0, 0] && added.rotation == [0, 0, 0]
        && added.color == "#888888" && added.scale == 1
      ensures data.TypeName? ==>
        && animationData.Keys == old(animationData).Keys + {freshId}
        && animationData[freshId] == map[0 := Keyframe(Some([0, 0, 0]), Some([0, 0, 0]), Some(1))]
        && forall id :: id in old(animationData) && id != freshId ==> animationData[id] == old(animationData)[id]
      ensures selectedObject == old(selectedObject) && currentFrame == old(currentFrame)
    {
      match data
      case TypeName(name) =>
        var icon := FindShapeIcon(ShapeLibrary, name);
        var shape := NewShape(freshId, name, icon);
        animationData := animationData[shape.id := map[0 := Keyframe(Some(shape.position), Some(shape.rotation), Some(shape.scale))]];
        history := history + [shapes];
        shapes := shapes + [shape];
      case ImportedShape(shape) =>
        history := history + [shapes];
        shapes := shapes + [shape];
    }

    /** updateObject: with an object selected, merge `u` into every shape with the
        selected id and write the keyframe at the current frame; without one,
        nothing happens. The history is not touched. */
    method UpdateObject(u: Updates)
      modifies this
      ensures selectedObject.None? ==> shapes == old(shapes) && animationData == old(animationData)
      ensures selectedObject.Some? ==>
        && shapes == ApplyUpdates(old(shapes), selectedObject.value.id, u)
        && animationData == WriteKeyframe(old(animationData), selectedObject.value.id, currentFrame, u)
      ensures history == old(history) && selectedObject == old(selectedObject)
      ensures currentFrame == old(currentFrame)
    {
      if selectedObject.None? {
        return;
      }
      var id := selectedObject.value.id;
      animationData := WriteKeyframe(animationData, id, currentFrame, u);
      shapes := ApplyUpdates(shapes, id, u);
    }

    /** deleteShape: with an object selected, drop every shape with its id and that
        id's keyframes, and clear the selection; without one, nothing happens.
        Deletion is not recorded in the history. */
    method DeleteShape()
      modifies this
      ensures old(selectedObject).None? ==>
        shapes == old(shapes) && animationData == old(animationData) && selectedObject == None
      ensures old(selectedObject).Some? ==>
        && shapes == WithoutId(old(shapes), old(selectedObject).value.id)
        && animationData == old(animationData) - {old(selectedObject).value.id}
        && selectedObject == None
      ensures history == old(history) && currentFrame == old(currentFrame)
    {
      if selectedObject.Some? {
        var id := selectedObject.value.id;
        animationData := animationData - {id};
        shapes := WithoutId(shapes, id);
        selectedObject := None;
      }
    }

    /** undo: restore the most recent snapshot and drop it from the history; with
        an empty history, nothing happens. Keyframes and selection stay. */
    method Undo()
      modifies this
      ensures |old(history)| > 0 ==>
        shapes == old(history)[|old(history)| - 1] && history == old(history)[..|old(history)| - 1]
      ensures |old(history)| == 0 ==> shapes == old(shapes) && history == old(history)
      ensures selectedObject == old(selectedObject) && animationData == old(animationData)
      ensures currentFrame == old(currentFrame)
    {
      if |history| > 0 {
        shapes := history[|history| - 1];
        history := history[..|history| - 1];
      }
    }

    /** unselect: clear the selection and nothing else. */
    method Unselect()
      modifies this
      ensures selectedObject == None
      ensures shapes == old(shapes) && history == old(history)
      ensures animationData == old(animationData) && currentFrame == old(currentFrame)
    {
      selectedObject := None;
    }
  }

  /** Undo right after addShape gives back the shape list and the history as they
      were. The new shape's keyframes, however, stay behind. */
  method UndoAfterAdd(e: Editor, data: ShapeData, freshId: int)
    modifies e
    ensures e.shapes == old(e.shapes) && e.history == old(e.history)
    ensures e.selectedObject == old(e.selectedObject)
    ensures data.TypeName? ==> freshId in e.animationData
  {
    e.AddShape(data, freshId);
    e.Undo();
  }

  /** Deleting the selected object leaves no shape with its id and no keyframes
      for it, and a second delete finds nothing selected. */
  method DeleteRemovesShape(e: Editor)
    modifies e
    requires e.selectedObject.Some?
    ensures forall s :: s in e.shapes ==> s.id != old(e.selectedObject).value.id
    ensures old(e.selectedObject).value.id !in e.animationData
    ensures e.selectedObject == None && e.history == old(e.history)
  {
    e.DeleteShape();
  }
}
