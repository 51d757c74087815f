/**
 * The list of extra 3D scene elements (cubes, spheres, ...) and the
 * selected one.
 */
module SceneElements {
  import opened Base
  import opened Sorting
  import opened CameraInterpolation

  datatype ElementType = Cube | Sphere | Cylinder | Plane

  datatype MaterialType = Standard | Metallic | Glass

  datatype SceneElement = SceneElement(
    id: string, elementType: ElementType, position: Vec3, scale: Vec3, rotation: Vec3,
    color: string, material: MaterialType)

  /** A `Partial<SceneElement>`: each present field replaces the element's. */
  datatype ElementUpdates = ElementUpdates(
    id: Option<string>, elementType: Option<ElementType>, position: Option<Vec3>, scale: Option<Vec3>,
    rotation: Option<Vec3>, color: Option<string>, material: Option<MaterialType>)

  /** The element `addElement(type)` creates, with `element-<stamp>` as its id. */
  function NewElement(elementType: ElementType, stamp: string): (e: SceneElement)
    ensures e.id == "element-" + stamp && e.elementType == elementType
    ensures e.position == Vec3(0.0, 0.0, -5.0) && e.scale == Vec3(1.0, 1.0, 1.0)
    ensures e.rotation == Vec3(0.0, 0.0, 0.0)
    ensures e.color == "#8b5cf6" && e.material == Standard
  {
    SceneElement("element-" + stamp, elementType, Vec3(0.0, 0.0, -5.0), Vec3(1.0, 1.0, 1.0),
      Vec3(0.0, 0.0, 0.0), "#8b5cf6", Standard)
  }

  /** `{ ...el, ...updates }` */
  function MergeElement(e: SceneElement, u: ElementUpdates): (r: SceneElement)
    ensures r.id == (if u.id.Some? then u.id.value else e.id)
    ensures r.elementType == (if u.elementType.Some? then u.elementType.value else e.elementType)
    ensures r.position == (if u.position.Some? then u.position.value else e.position)
    ensures r.scale == (if u.scale.Some? then u.scale.value else e.scale)
    ensures r.rotation == (if u.rotation.Some? then u.rotation.value else e.rotation)
    ensures r.color == (if u.color.Some? then u.color.value else e.color)
    ensures r.material == (if u.material.Some? then u.material.value else e.material)
  {
    SceneElement(
      if u.id.Some? then u.id.value else e.id,
      if u.elementType.Some? then u.elementType.value else e.elementType,
      if u.position.Some? then u.position.value else e.position,
      if u.scale.Some? then u.scale.value else e.scale,
      if u.rotation.Some? then u.rotation.value else e.rotation,
      if u.color.Some? then u.color.value else e.color,
      if u.material.Some? then u.material.value else e.material)
  }

  /** With no fields given, merging changes nothing. */
  lemma MergeNothing(e: SceneElement)
    ensures MergeElement(e, ElementUpdates(None, None, None, None, None, None, None)) == e
  {
  }

  /** `elements.map(el => el.id === id ? { ...el, ...updates } : el)` */
  function UpdatedElements(els: seq<SceneElement>, id: string, u: ElementUpdates): (r: seq<SceneElement>)
    ensures |r| == |els|
    ensures forall i :: 0 <= i < |els| && els[i].id != id ==> r[i] == els[i]
    ensures forall i :: 0 <= i < |els| && els[i].id == id ==> r[i] == MergeElement(els[i], u)
  {
    seq(|els|, i requires 0 <= i < |els| => if els[i].id == id then MergeElement(els[i], u) else els[i])
  }

  /** `elements.filter(el => el.id !== id)` */
  function RemovedElements(els: seq<SceneElement>, id: string): (r: seq<SceneElement>)
    ensures forall e :: e in r <==> e in els && e.id != id
    ensures |r| <= |els|
  {
    Filter(els, (e: SceneElement) => e.id != id)
  }

  /** An update addressed to an id no element has leaves the list as it was. */
  lemma UpdateMissingId(els: seq<SceneElement>, id: string, u: ElementUpdates)
    requires forall e :: e in els ==> e.id != id
    ensures UpdatedElements(els, id, u) == els
  {
  }

  /** Removing an id no element has leaves the list as it was. */
  lemma {:induction false} RemoveMissingId(els: seq<SceneElement>, id: string)
    requires forall e :: e in els ==> e.id != id
    ensures RemovedElements(els, id) == els
    decreases |els|
  {
    if els != [] {
      RemoveMissingId(els[1..], id);
      assert els == [els[0]] + els[1..];
    }
  }

  /** The index of the first element with the given id (`elements.find`). */
  function FindIndex(els: seq<SceneElement>, id: string): (r: Option<nat>)
    ensures r.Some? ==> r.value < |els| && els[r.value].id == id
    ensures r.Some? ==> forall j :: 0 <= j < r.value ==> els[j].id != id
    ensures r.None? <==> forall e :: e in els ==> e.id != id
    decreases |els|
  {
    if els == [] then None
    else if els[0].id == id then Some(0)
    else
      var rest := FindIndex(els[1..], id);
      assert forall e :: e in els ==> e == els[0] || e in els[1..];
      if rest.None? then None else Some(rest.value + 1)
  }

  /** `selectedElement`: the first element whose id is the selected id. */
  function FindSelected(els: seq<SceneElement>, selectedId: Option<string>): (r: Option<SceneElement>)
    ensures selectedId.None? ==> r.None?
    ensures r.Some? ==> r.value in els && Some(r.value.id) == selectedId
    ensures selectedId.Some? && (exists e :: e in els && e.id == selectedId.value) ==> r.Some?
    ensures r.Some? ==> exists i :: 0 <= i < |els| && els[i] == r.value && forall j :: 0 <= j < i ==> els[j].id != r.value.id
  {
    if selectedId.None? then None
    else
      var i := FindIndex(els, selectedId.value);
      if i.None? then None else Some(els[i.value])
  }

  /** The scene-element store of the editor (`useSceneElements`). */
  class SceneStore {
    var elements: seq<SceneElement>
    var selectedElementId: Option<string>

    constructor()
      ensures elements == [] && selectedElementId == None
    {
      elements := [];
      selectedElementId := None;
    }

    /** `addElement(type)`, with the `Date.now()` text passed as `stamp`. */
    method AddElement(elementType: ElementType, stamp: string)
      modifies this
      ensures elements == old(elements) + [NewElement(elementType, stamp)]
      ensures selectedElementId == Some("element-" + stamp)
    {
      var newElement := NewElement(elementType, stamp);
      elements := elements + [newElement];
      selectedElementId := Some(newElement.id);
    }

    /** `updateElement(id, updates)` */
    method UpdateElement(id: string, updates: ElementUpdates)
      modifies this
      ensures elements == UpdatedElements(old(elements), id, updates)
      ensures selectedElementId == old(selectedElementId)
    {
      elements := UpdatedElements(elements, id, updates);
    }

    /** `removeElement(id)`: the selection is cleared whichever element it named. */
    method RemoveElement(id: string)
      modifies this
      ensures elements == RemovedElements(old(elements), id)
      ensures selectedElementId == None
    {
      elements := RemovedElements(elements, id);
      selectedElementId := None;
    }

    /** `setSelectedElementId(id)` */
    method SetSelectedElementId(id: Option<string>)
      modifies this
      ensures selectedElementId == id && elements == old(elements)
    {
      selectedElementId := id;
    }

    /** `selectedElement` */
    function SelectedElement(): (r: Option<SceneElement>)
      reads this
      ensures r.Some? ==> r.value in elements && Some(r.value.id) == selectedElementId
      ensures selectedElementId.Some? && (exists e :: e in elements && e.id == selectedElementId.value) ==> r.Some?
      ensures r.Some? ==>
        exists i :: 0 <= i < |elements| && elements[i] == r.value && forall j :: 0 <= j < i ==> elements[j].id != r.value.id
    {
      FindSelected(elements, selectedElementId)
    }
  }

  /** Right after `addElement`, the selected element is the new one. */
  lemma AddedElementIsSelected(els: seq<SceneElement>, elementType: ElementType, stamp: string)
    requires forall e :: e in els ==> e.id != "element-" + stamp
    ensures FindSelected(els + [NewElement(elementType, stamp)], Some("element-" + stamp))
      == Some(NewElement(elementType, stamp))
  {
    var all := els + [NewElement(elementType, stamp)];
    var i := FindIndex(all, "element-" + stamp);
    assert all[|els|].id == "element-" + stamp;
    assert forall j :: 0 <= j < |els| ==> all[j] in els;
  }
}
