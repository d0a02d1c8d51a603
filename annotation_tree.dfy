/**
 * The deserialised shape of one annotation XML document: an ordered list of
 * annotation layers, each holding its regions and, optionally, the headers
 * that name the generic attribute slots used by those regions.
 *
 * Only the fields the reconciler reads, plus the identifiers and names that
 * identify a layer, are kept; geometry, layer-level attributes, colours and
 * the microns-per-pixel scale are not part of this model.
 */
module AnnotationTree {
  import opened RustStd

  /** One annotation document (the XML root) */
  datatype Annotations = Annotations(annotation: seq<Annotation>)

  /** One annotation layer; `annotationType` "4" is user-drawn, "3" computed by an analysis */
  datatype Annotation = Annotation(
    id: string,
    name: string,
    annotationType: string,
    regions: Regions)

  /** The regions of a layer, with the optional slot headers */
  datatype Regions = Regions(
    regionAttributeHeaders: RegionAttributeHeaders,
    region: seq<Region>)

  /** The `RegionAttributeHeaders` element; its header list may be absent */
  datatype RegionAttributeHeaders = RegionAttributeHeaders(attributeHeader: Option<seq<AttributeHeader>>)

  /** Names the generic attribute slot `id`, e.g. "Positivity = NPositive/NTotal" */
  datatype AttributeHeader = AttributeHeader(id: string, name: string)

  /** One drawn or computed region */
  datatype Region = Region(
    id: string,
    text: string,
    attributes: RegionAttributes,
    imageLocation: Option<string>)

  /** The `Attributes` element of a region; its attribute list may be absent */
  datatype RegionAttributes = RegionAttributes(attribute: Option<seq<RegionAttributesAttribute>>)

  /** One generic attribute: `name` holds the slot id it fills, `value` the text of its value */
  datatype RegionAttributesAttribute = RegionAttributesAttribute(name: string, id: string, value: string)
}
