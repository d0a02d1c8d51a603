# readImageScopeXML region reconciler, in Dafny

`readImageScopeXML` reads ImageScope annotation XML files and prints one CSV
line per region. The core of it is the region reconciler inside `run`. For
one parsed `Annotations` document it walks the annotation layers in document
order and fills a `HashMap<String, RegionInfo>` keyed by region id:

- a type "4" (user-drawn) layer finds or creates the record of each region
  and sets its text label to the region's `Text`, untrimmed;
- a type "3" (analysis) layer needs its `RegionAttributeHeaders` list. It
  resolves three slot ids: the id of the first header whose name starts with
  `"Positivity ="`, with `"Np  ="` (two spaces) and with `"NTotal ="`. Then,
  for every region, it stores the file name of `ImageLocation`, if there is
  one. It also stores `parse(trim(value))` of every attribute whose name is a
  slot id into the matching field. Every write goes to the record keyed by
  the region's own id;
- a type "3" layer without the header list or without one of the three
  slots is skipped, and so is a layer of any other type. The next layer is
  processed as usual.

The project has five modules:

- `RustStd` (`rust_std.dfy`) models the library functions the reconciler
  relies on: `Option`, `str::starts_with`, `str::trim` (exactly, over the
  Unicode `White_Space` characters) and `Path::file_name` (over
  `/`-separated paths).
- `AnnotationTree` (`annotation_tree.dfy`) holds the deserialised document
  as datatypes.
- `RegionRecords` (`region_info.dfy`) holds the `RegionInfo` class with its
  setters, and the map of records. Every change the reconciler makes is "find
  or insert the record, then set one field". It is described by a `Write`,
  and a run of writes by `ApplyAll`.
- `ReconcileSpec` (`reconcile_spec.dfy`) is the specification: the writes
  each layer performs, and lemmas that state their effect. The effect of a
  layer on each record is stated against independent "last match"
  definitions. The keys of the final map are stated directly.
- `Reconciler` (`reconcile.dfy`) is the imperative reconciler. It keeps the
  source's loops over layers, regions and attributes, and updates records in
  place. It is proved to end with exactly the map that `ReconcileSpec`
  describes.

The model follows the code as written, also where later revisions of the tool behave differently:

- only three slots exist (positivity, Np, NTotal);
- type "3" values go to the record of the region's own id, since `Region`
  has no field that refers to another region;
- the label is stored untrimmed;
- a missing header list or slot skips only the layer, despite the comment
  at src/lib.rs:123 that speaks of skipping the file;
- no warning is produced for a layer id that occurs twice.

`f32` values are their IEEE 754 bit patterns (`bv32`). The conversion
`value.trim().parse::<f32>().unwrap_or(NAN)` is the parameter `parse`
applied to `Trim(value)`, so NaN is one result among others.

## Model

| member | source | states |
|---|---|---|
| RustStd.Trim | src/lib.rs:165 | the result is no longer than the input and neither starts nor ends with Unicode whitespace |
| RustStd.TrimSlice | src/lib.rs:165 | the trimmed string is the slice of the input that follows its leading whitespace, and everything outside that slice is whitespace |
| RustStd.TrimOfTrimmed | src/lib.rs:165 | trimming a string that has no whitespace at either end returns it unchanged |
| RustStd.FileName | src/lib.rs:144-146 | a file name, when there is one, is not empty, `.` or `..` and contains no `/` |
| RustStd.JoinSplit | src/lib.rs:144 | splitting a path at its separators and joining the pieces gives the path back |
| RustStd.FileNameOfEmpty | src/lib.rs:144 | the empty path, which is what an absent `ImageLocation` becomes, has no file name |
| RustStd.FileNameOfName | src/lib.rs:144-146 | a plain name is its own file name |
| RustStd.FileNameOfJoin | src/lib.rs:144-146 | the file name of `dir/n` is `n` for any directory part `dir` |
| RustStd.FileNameTrailingSlash | src/lib.rs:144 | a trailing `/` does not change the file name |
| RegionRecords.RegionInfo.constructor | src/lib.rs:18-20 | a new record has all five fields absent |
| RegionRecords.RegionInfo.SetTextLabel | src/lib.rs:43-45 | sets the label and leaves the other four fields unchanged |
| RegionRecords.RegionInfo.SetNumPositive | src/lib.rs:48-50 | sets the positive count and leaves the other four fields unchanged |
| RegionRecords.RegionInfo.SetNumTotal | src/lib.rs:53-55 | sets the total count and leaves the other four fields unchanged |
| RegionRecords.RegionInfo.SetPositivity | src/lib.rs:57-59 | sets the positivity and leaves the other four fields unchanged |
| RegionRecords.RegionInfo.SetImageLocation | src/lib.rs:65-67 | sets the image location and leaves the other four fields unchanged |
| RegionRecords.Apply | src/lib.rs:43-67 | calling one setter with `Some(v)` makes that field `v` and changes no other field |
| RegionRecords.StepEffect | src/lib.rs:109-113 | find-or-insert then set: the key is added if missing, every other record is unchanged, and only the written field of the key's record changes |
| RegionRecords.ApplyAllKeys | src/lib.rs:109-111 | records are never removed: after a run of writes the keys are the old keys plus the keys written to |
| RegionRecords.ApplyAllUntouched | src/lib.rs:109-111 | a key that no write names keeps its record |
| RegionRecords.LastWriteWins | src/lib.rs:100-194 | after a run of writes, each field of each record holds the last value written to it, or its value from before when nothing was written |
| RegionRecords.ApplyAllAppend | src/lib.rs:100 | running two runs of writes one after the other equals running their concatenation |
| RegionRecords.EntryOrInsert | src/lib.rs:109-111 | `entry(key).or_insert(RegionInfo::new())`: returns the existing record, or inserts a fresh empty one, and the other records stay as they were |
| RegionRecords.CallSetter | src/lib.rs:113 | calls the setter the write names, so the record's contents become `Apply` of the write |
| RegionRecords.SetRecord | src/lib.rs:113 | calling the setter on the record stored at one key changes that key's contents to `Apply` of the write and no other key's contents |
| RegionRecords.Store | src/lib.rs:109-113 | one find-or-insert-then-set on the map of records: the contents of the map take one `Step`; records stay distinct and only the records already there, or a fresh one, are involved |
| ReconcileSpec.FindIndex | src/lib.rs:120-122 | the index found is that of the first header whose name starts with the prefix; no earlier header's name does |
| ReconcileSpec.FindHeader | src/lib.rs:120-122 | `iter().find(starts_with)`: present exactly when some header name has the prefix, and then it is the first such header |
| ReconcileSpec.ResolveSlots | src/lib.rs:120-139 | the three slot ids resolve exactly when each prefix occurs, and each is the id of the first header with its prefix |
| ReconcileSpec.LabelWritesIndex | src/lib.rs:106-113 | a type "4" layer performs one label write per region, in region order, keyed by the region's id and carrying its text |
| ReconcileSpec.LabelWritesLast | src/lib.rs:106-113 | among a type "4" layer's writes, the last one to a key's label carries the text of the last region with that id, and no other field is written |
| ReconcileSpec.LabelLayerEffect | src/lib.rs:102-115 | after a type "4" layer, the label of each record is the untrimmed text of the last region with that id, if any; every other field is kept |
| ReconcileSpec.LabelWritesKeys | src/lib.rs:106-111 | a type "4" layer writes to exactly the ids of its regions |
| ReconcileSpec.NoImageLocation | src/lib.rs:144-146 | a region without `ImageLocation` has no file name, writes no image location, and writes only its slot values |
| ReconcileSpec.SlotWritesLast | src/lib.rs:159-182 | one attribute writes `parse(trim(value))` to every numeric field whose slot id equals its name, through three independent tests |
| ReconcileSpec.AttributesWritesLast | src/lib.rs:156-183 | over a region's attributes, the last write to a numeric field comes from the last attribute named by that field's slot |
| ReconcileSpec.RegionWritesLast | src/lib.rs:141-184 | one type "3" region writes its image file name and its slot values to its own id's record, and nothing to other keys |
| ReconcileSpec.AnalysisWritesLast | src/lib.rs:141-185 | over a type "3" layer, the last write to a field of key `k` comes from the last region with id `k` that provides it |
| ReconcileSpec.AnalysisLayerEffect | src/lib.rs:116-185 | after a type "3" layer with resolved slots, each record's image location is the file name from the last region with its id that has one, and each numeric field is the parsed value of the last attribute filling its slot; fields with no such source, and the label, are kept |
| ReconcileSpec.SlotWritesKeys | src/lib.rs:159-182 | an attribute writes to its region's record exactly when its name is one of the three slot ids |
| ReconcileSpec.AttributesWritesKeys | src/lib.rs:156-183 | a region's attributes write to its record exactly when one of them fills a slot |
| ReconcileSpec.RegionWritesKeys | src/lib.rs:141-184 | a type "3" region writes to its record exactly when it has an image file name or a slot-filling attribute |
| ReconcileSpec.AnalysisWritesKeys | src/lib.rs:141-185 | a type "3" layer writes to exactly the ids of its contributing regions |
| ReconcileSpec.SkippedLayer | src/lib.rs:116-192 | a type "3" layer without its header list or one of the three slots, and a layer of any other type, leaves the map unchanged |
| ReconcileSpec.LayerKeys | src/lib.rs:100-192 | a layer keeps every key and adds exactly the region ids it writes to |
| ReconcileSpec.LayersInOrder | src/lib.rs:100 | layers are processed one after the other, in document order |
| ReconcileSpec.DocIdsMembers | src/lib.rs:100 | an id is added by the layers together exactly when some layer adds it |
| ReconcileSpec.LayersWritesKeys | src/lib.rs:100-194 | processing a run of layers keeps every key and adds the ids those layers add |
| ReconcileSpec.RegionsInfoKeys | src/lib.rs:97-194 | a key is in the final map exactly when some layer adds it: a region of a type "4" layer, or a contributing region of a type "3" layer whose slots resolve |
| Reconciler.StoreLabels | src/lib.rs:106-114 | the region loop of a type "4" layer performs exactly that layer's label writes on the map |
| Reconciler.StoreIfNamed | src/lib.rs:159-166 | one `if attrib.name == slot` test stores the write exactly when the name matches |
| Reconciler.StoreSlotValue | src/lib.rs:159-182 | the three tests on one attribute perform exactly that attribute's slot writes |
| Reconciler.StoreAttributes | src/lib.rs:156-184 | the attribute loop of a region performs exactly its attributes' writes |
| Reconciler.StoreRegionAnalysis | src/lib.rs:142-184 | one type "3" region's image write, then its attribute writes |
| Reconciler.StoreAnalysis | src/lib.rs:141-185 | the region loop of a type "3" layer performs exactly that layer's writes |
| Reconciler.StoreLayer | src/lib.rs:101-192 | the body of the layer loop updates the map's contents to `ProcessLayer` of the layer, including the skipped cases |
| Reconciler.Reconcile | src/lib.rs:97-194 | starting from an empty map, the layer loop ends with distinct, freshly created records whose contents are `RegionsInfo` of the document |

## Left out

- Directory listing and the case-insensitive `.xml` extension filter (src/lib.rs:84-89): filesystem I/O.
- `parse_xml` (src/lib.rs:72-78): the file read and the `quick_xml`/serde deserialisation are a foreign library. The model takes the parsed `Annotations` tree as input, so the panic on malformed XML is not modelled.
- The CSV header and rows (src/lib.rs:82, 196-199) and the `eprintln!` warnings (src/lib.rs:125, 129, 133, 187) are output only. A skipped layer is modelled by its effect on the map, which is none. HashMap iteration order only affects the order of the output rows.
- RegionRecords.RegionInfo.TextLabel: this getter and the other four (src/lib.rs:23-40, 61-63) are plain field reads without contracts, since only the CSV output reads them.
- Real `f32` parsing and NaN (src/lib.rs:165, 173, 181): floating point. The parse, including `unwrap_or(NAN)`, is the uninterpreted parameter `parse`.
- `Path::file_name` is modelled for `/`-separated paths only. Windows separators and prefixes are not modelled. `OsStr::to_str` always succeeds here, because the path comes from a valid UTF-8 `String`.
- The commented-out `xml-rs` scanner (src/lib.rs:205-290) is dead code.
- src/main.rs is not part of this model: it only handles command-line arguments.
- Fields the reconciler never reads (`microns_per_pixel`, layer-level attributes, region type, geometry, `negative_roa`, `analyze`, `display_color`) are left out of the datatypes.
- The `HashMap` is a Dafny `map` from id to `RegionInfo` objects. Hashing and capacity are not modelled.
