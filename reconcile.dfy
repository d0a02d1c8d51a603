/**
 * The reconciliation loop of `run`: for one parsed annotation document, walk
 * the layers in document order and fill a map from region id to
 * `RegionInfo`, creating a record the first time an id is written to.
 *
 * The methods follow the source loop for loop. Each is proved to perform
 * exactly the writes that `ReconcileSpec` assigns to its part of the
 * document, so `Reconcile` ends with the map `RegionsInfo` describes; the
 * lemmas of `ReconcileSpec` state what that map holds.
 *
 * Every method may update the records already in the map it is given and
 * may add fresh ones; no other object changes.
 */
module Reconciler {
  import opened RustStd
  import opened AnnotationTree
  import opened RegionRecords
  import opened ReconcileSpec

  /** The body of the type "4" branch: label the record of each region. */
  method StoreLabels(regionsInfo: map<string, RegionInfo>, regions: seq<Region>) returns (updated: map<string, RegionInfo>)
    requires Distinct(regionsInfo)
    modifies regionsInfo.Values
    ensures Distinct(updated)
    ensures forall o :: o in updated.Values ==> o in regionsInfo.Values || fresh(o)
    ensures View(updated) == ApplyAll(old(View(regionsInfo)), LabelWrites(regions))
  {
    ghost var start := View(regionsInfo);
    updated := regionsInfo;
    for j := 0 to |regions|
      invariant Distinct(updated)
      invariant forall o :: o in updated.Values ==> o in regionsInfo.Values || fresh(o)
      invariant View(updated) == ApplyAll(start, LabelWrites(regions[..j]))
    {
      var r := regions[j];
      var w := LabelWrite(r.id, r.text);
      LabelWritesSnoc(regions, j);
      ApplyAllSnoc(start, LabelWrites(regions[..j]), w);
      updated := Store(updated, w);
    }
    assert regions[..|regions|] == regions;
  }

  /** One `if attrib.name == slot_name` of the attribute loop: store `w` when `named` holds. */
  method StoreIfNamed(regionsInfo: map<string, RegionInfo>, named: bool, w: Write) returns (updated: map<string, RegionInfo>)
    requires Distinct(regionsInfo)
    modifies regionsInfo.Values
    ensures Distinct(updated)
    ensures forall o :: o in updated.Values ==> o in regionsInfo.Values || fresh(o)
    ensures View(updated) == ApplyAll(old(View(regionsInfo)), if named then [w] else [])
  {
    updated := regionsInfo;
    if named {
      ApplyAllSnoc(View(regionsInfo), [], w);
      updated := Store(updated, w);
    }
  }

  /** One attribute of a region of a type "3" layer: its value goes to every slot its name fills. */
  method StoreSlotValue(regionsInfo: map<string, RegionInfo>, slots: Slots, key: string, name: string, x: F32)
    returns (updated: map<string, RegionInfo>)
    requires Distinct(regionsInfo)
    modifies regionsInfo.Values
    ensures Distinct(updated)
    ensures forall o :: o in updated.Values ==> o in regionsInfo.Values || fresh(o)
    ensures View(updated) == ApplyAll(old(View(regionsInfo)), SlotWrites(slots, key, name, x))
  {
    ghost var start := View(regionsInfo);
    ghost var p1: seq<Write> := if name == slots.positivity then [PositivityWrite(key, x)] else [];
    ghost var p2: seq<Write> := if name == slots.numPositive then [NumPositiveWrite(key, x)] else [];
    ghost var p3: seq<Write> := if name == slots.numTotal then [NumTotalWrite(key, x)] else [];
    updated := StoreIfNamed(regionsInfo, name == slots.positivity, PositivityWrite(key, x));
    ghost var v1 := View(updated);
    updated := StoreIfNamed(updated, name == slots.numPositive, NumPositiveWrite(key, x));
    ghost var v2 := View(updated);
    updated := StoreIfNamed(updated, name == slots.numTotal, NumTotalWrite(key, x));
    assert v1 == ApplyAll(start, p1);
    assert v2 == ApplyAll(v1, p2);
    assert View(updated) == ApplyAll(v2, p3);
    ApplyAllAppend(start, p1, p2);
    ApplyAllAppend(start, p1 + p2, p3);
    assert SlotWrites(slots, key, name, x) == p1 + p2 + p3;
  }

  /** The attribute loop of one region of a type "3" layer. */
  method StoreAttributes(regionsInfo: map<string, RegionInfo>, slots: Slots, key: string,
                         regionAttrib: seq<RegionAttributesAttribute>, parse: string -> F32)
    returns (updated: map<string, RegionInfo>)
    requires Distinct(regionsInfo)
    modifies regionsInfo.Values
    ensures Distinct(updated)
    ensures forall o :: o in updated.Values ==> o in regionsInfo.Values || fresh(o)
    ensures View(updated) == ApplyAll(old(View(regionsInfo)), AttributesWrites(slots, key, regionAttrib, parse))
  {
    ghost var start := View(regionsInfo);
    updated := regionsInfo;
    for t := 0 to |regionAttrib|
      invariant Distinct(updated)
      invariant forall o :: o in updated.Values ==> o in regionsInfo.Values || fresh(o)
      invariant View(updated) == ApplyAll(start, AttributesWrites(slots, key, regionAttrib[..t], parse))
    {
      var attrib := regionAttrib[t];
      var x := parse(Trim(attrib.value));
      ghost var done := AttributesWrites(slots, key, regionAttrib[..t], parse);
      AttributesWritesSnoc(slots, key, regionAttrib, parse, t);
      ApplyAllAppend(start, done, SlotWrites(slots, key, attrib.name, x));
      updated := StoreSlotValue(updated, slots, key, attrib.name, x);
    }
    assert regionAttrib[..|regionAttrib|] == regionAttrib;
  }

  /** One region of a type "3" layer: its image file name, then its slot values. */
  method StoreRegionAnalysis(regionsInfo: map<string, RegionInfo>, slots: Slots, r: Region, parse: string -> F32)
    returns (updated: map<string, RegionInfo>)
    requires Distinct(regionsInfo)
    modifies regionsInfo.Values
    ensures Distinct(updated)
    ensures forall o :: o in updated.Values ==> o in regionsInfo.Values || fresh(o)
    ensures View(updated) == ApplyAll(old(View(regionsInfo)), RegionWrites(slots, r, parse))
  {
    ghost var start := View(regionsInfo);
    updated := regionsInfo;
    var loc := FileName(r.imageLocation.UnwrapOr(""));
    if loc.Some? {
      var w := ImageWrite(r.id, loc.value);
      ApplyAllSnoc(start, [], w);
      updated := Store(updated, w);
    }
    ApplyAllAppend(start, ImageWrites(r), AttributesWrites(slots, r.id, AttributesOf(r), parse));
    if r.attributes.attribute.Some? {
      updated := StoreAttributes(updated, slots, r.id, r.attributes.attribute.value, parse);
    }
  }

  /** The region loop of the type "3" branch, once all three slots are named. */
  method StoreAnalysis(regionsInfo: map<string, RegionInfo>, slots: Slots, regions: seq<Region>, parse: string -> F32)
    returns (updated: map<string, RegionInfo>)
    requires Distinct(regionsInfo)
    modifies regionsInfo.Values
    ensures Distinct(updated)
    ensures forall o :: o in updated.Values ==> o in regionsInfo.Values || fresh(o)
    ensures View(updated) == ApplyAll(old(View(regionsInfo)), AnalysisWrites(slots, regions, parse))
  {
    ghost var start := View(regionsInfo);
    updated := regionsInfo;
    for j := 0 to |regions|
      invariant Distinct(updated)
      invariant forall o :: o in updated.Values ==> o in regionsInfo.Values || fresh(o)
      invariant View(updated) == ApplyAll(start, AnalysisWrites(slots, regions[..j], parse))
    {
      ghost var done := AnalysisWrites(slots, regions[..j], parse);
      AnalysisWritesSnoc(slots, regions, parse, j);
      ApplyAllAppend(start, done, RegionWrites(slots, regions[j], parse));
      updated := StoreRegionAnalysis(updated, slots, regions[j], parse);
    }
    assert regions[..|regions|] == regions;
  }

  /**
   * The body of the layer loop: a type "4" layer labels its regions; a type
   * "3" layer whose headers name all three slots records image names and
   * slot values; any other layer, and a type "3" layer without its header
   * list or one of its slots, leaves the map as it is.
   */
  method StoreLayer(regionsInfo: map<string, RegionInfo>, layer: Annotation, parse: string -> F32)
    returns (updated: map<string, RegionInfo>)
    requires Distinct(regionsInfo)
    modifies regionsInfo.Values
    ensures Distinct(updated)
    ensures forall o :: o in updated.Values ==> o in regionsInfo.Values || fresh(o)
    ensures View(updated) == ProcessLayer(old(View(regionsInfo)), layer, parse)
  {
    updated := regionsInfo;
    if layer.annotationType == "4" {
      updated := StoreLabels(regionsInfo, layer.regions.region);
    } else if layer.annotationType == "3" {
      if layer.regions.regionAttributeHeaders.attributeHeader.None? {
        // no header list: this layer is skipped
        return;
      }
      var attributeHeader := layer.regions.regionAttributeHeaders.attributeHeader.value;
      var positivityAttrib := FindHeader(attributeHeader, PositivityPrefix);
      var numPositiveAttrib := FindHeader(attributeHeader, NumPositivePrefix);
      var numTotalAttrib := FindHeader(attributeHeader, NumTotalPrefix);
      // a missing slot skips this layer only
      if positivityAttrib.None? {
        return;
      }
      if numPositiveAttrib.None? {
        return;
      }
      if numTotalAttrib.None? {
        return;
      }
      var slots := Slots(positivityAttrib.value.id, numPositiveAttrib.value.id, numTotalAttrib.value.id);
      assert LayerSlots(layer) == Some(slots);
      updated := StoreAnalysis(regionsInfo, slots, layer.regions.region, parse);
    }
    // every other layer type is ignored
  }

  /**
   * The reconciliation loop over the layers of one document, starting from an
   * empty map. The result holds a fresh record per key and equals
   * `RegionsInfo(annotations, parse)`.
   */
  method Reconcile(annotations: Annotations, parse: string -> F32) returns (regionsInfo: map<string, RegionInfo>)
    ensures Distinct(regionsInfo)
    ensures forall o :: o in regionsInfo.Values ==> fresh(o)
    ensures View(regionsInfo) == RegionsInfo(annotations, parse)
  {
    regionsInfo := map[];
    var layers := annotations.annotation;
    for i := 0 to |layers|
      invariant Distinct(regionsInfo)
      invariant forall o :: o in regionsInfo.Values ==> fresh(o)
      invariant View(regionsInfo) == ApplyAll(map[], LayersWrites(layers[..i], parse))
    {
      ghost var before := ApplyAll(map[], LayersWrites(layers[..i], parse));
      assert ApplyAll(map[], LayersWrites(layers[..i + 1], parse)) == ProcessLayer(before, layers[i], parse) by {
        assert layers[..i + 1][..i] == layers[..i];
        LayersInOrder(map[], layers[..i + 1], parse);
      }
      regionsInfo := StoreLayer(regionsInfo, layers[i], parse);
    }
    assert layers[..|layers|] == layers;
  }
}
