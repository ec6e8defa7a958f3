/** Catalog ingestion (scripts/ingest_catalog.py): each TMF633 Service
    Catalog ServiceSpecification fetched from the provisioning platform is
    turned into a text document for embedding and a string-only metadata
    dict; specifications without an id are skipped, and the rest are added
    to the vector collection in one batch. Authentication, the HTTP fetch and
    the collection itself are external. */
module CatalogIngest {
  import opened Wrappers
  import Strings
  import Sequences

  /** An entry of `serviceSpecCharacteristic`; only its name is read. */
  datatype SpecCharacteristic = SpecCharacteristic(name: Option<string>)

  /** The keys of a ServiceSpecification dict that ingestion reads; None for
      a key that is absent. Values are given in their rendered text form. */
  datatype ServiceSpecification = ServiceSpecification(
    id: Option<string>,
    uuid: Option<string>,
    name: Option<string>,
    description: Option<string>,
    category: Option<string>,
    version: Option<string>,
    lifecycleStatus: Option<string>,
    serviceType: Option<string>,
    serviceSpecCharacteristic: Option<seq<SpecCharacteristic>>,
    tags: Option<seq<string>>)

  // ---------------------------------------------------------------------
  // The text document

  /** `parts` with `"<prefix><text>"` appended when the key is present. */
  function WithSegment(parts: seq<string>, prefix: string, text: Option<string>): (r: seq<string>)
    requires prefix != ""
    ensures r == [] <==> parts == [] && text.None?
    ensures (forall x | x in parts :: x != "") ==> forall x | x in r :: x != ""
  {
    if text.Some? then parts + [prefix + text.value] else parts
  }

  /** A present field appends exactly one segment, `"<prefix><text>"`, after
      the parts already written; an absent field appends nothing. */
  lemma SegmentAppended(parts: seq<string>, prefix: string, text: Option<string>)
    requires prefix != ""
    ensures |WithSegment(parts, prefix, text)| == |parts| + (if text.Some? then 1 else 0)
    ensures WithSegment(parts, prefix, text)[..|parts|] == parts
    ensures text.Some? ==> WithSegment(parts, prefix, text)[|parts|] == prefix + text.value
  {
  }

  /** `char.get("name", "")` for each characteristic. */
  function CharacteristicName(c: SpecCharacteristic): string {
    if c.name.Some? then c.name.value else ""
  }

  /** The characteristic names joined by ", ", or None when the key is
      absent or the list is empty. */
  function CharacteristicsText(spec: ServiceSpecification): Option<string> {
    if spec.serviceSpecCharacteristic.Some? && spec.serviceSpecCharacteristic.value != [] then
      Some(Strings.Join(Sequences.Map(spec.serviceSpecCharacteristic.value, CharacteristicName), ", "))
    else None
  }

  /** The tags joined by ", " whenever the key is present, even for an empty list. */
  function TagsText(spec: ServiceSpecification): Option<string> {
    if spec.tags.Some? then Some(Strings.Join(spec.tags.value, ", ")) else None
  }

  /** The segments in the order they are written. */
  function DocumentSegments(spec: ServiceSpecification): seq<string> {
    var p1 := WithSegment([], "Service: ", spec.name);
    var p2 := WithSegment(p1, "Description: ", spec.description);
    var p3 := WithSegment(p2, "Category: ", spec.category);
    var p4 := WithSegment(p3, "Version: ", spec.version);
    var p5 := WithSegment(p4, "Characteristics: ", CharacteristicsText(spec));
    var p6 := WithSegment(p5, "Type: ", spec.serviceType);
    WithSegment(p6, "Tags: ", TagsText(spec))
  }

  /** The document of a specification: its segments joined by " | ". */
  function ServiceDocument(spec: ServiceSpecification): string {
    Strings.Join(DocumentSegments(spec), " | ")
  }

  /** The document is empty exactly when the specification has none of the
      recognised keys (an empty characteristic list counting as absent). */
  lemma EmptyDocumentIff(spec: ServiceSpecification)
    ensures ServiceDocument(spec) == "" <==>
      spec.name.None? && spec.description.None? && spec.category.None? && spec.version.None?
      && (spec.serviceSpecCharacteristic.None? || spec.serviceSpecCharacteristic.value == [])
      && spec.serviceType.None? && spec.tags.None?
  {
    Strings.JoinEmptyIff(DocumentSegments(spec), " | ");
    if spec.serviceSpecCharacteristic.Some? {
      assert |Sequences.Map(spec.serviceSpecCharacteristic.value, CharacteristicName)|
          == |spec.serviceSpecCharacteristic.value|;
    }
  }

  /** `create_service_document`. */
  method CreateServiceDocument(spec: ServiceSpecification) returns (document: string)
    ensures document == ServiceDocument(spec)

  {
    var parts: seq<string> := [];
    if spec.name.Some? {
      parts := parts + ["Service: " + spec.name.value];
    }
    ghost var p1 := WithSegment([], "Service: ", spec.name);
    assert parts == p1;
    if spec.description.Some? {
      parts := parts + ["Description: " + spec.description.value];
    }
    ghost var p2 := WithSegment(p1, "Description: ", spec.description);
    assert parts == p2;
    if spec.category.Some? {
      parts := parts + ["Category: " + spec.category.value];
    }
    ghost var p3 := WithSegment(p2, "Category: ", spec.category);
    assert parts == p3;
    if spec.version.Some? {
      parts := parts + ["Version: " + spec.version.value];
    }
    ghost var p4 := WithSegment(p3, "Version: ", spec.version);
    assert parts == p4;
    if spec.serviceSpecCharacteristic.Some? {
      var charNames := Sequences.Map(spec.serviceSpecCharacteristic.value, CharacteristicName);
      if charNames != [] {
        parts := parts + ["Characteristics: " + Strings.Join(charNames, ", ")];
      }
    }
    ghost var p5 := WithSegment(p4, "Characteristics: ", CharacteristicsText(spec));
    assert parts == p5;
    if spec.serviceType.Some? {
      parts := parts + ["Type: " + spec.serviceType.value];
    }
    ghost var p6 := WithSegment(p5, "Type: ", spec.serviceType);
    assert parts == p6;
    if spec.tags.Some? {
      parts := parts + ["Tags: " + Strings.Join(spec.tags.value, ", ")];
    }
    assert parts == WithSegment(p6, "Tags: ", TagsText(spec));
    document := Strings.Join(parts, " | ");
  }

  /** The document the mock catalog writes for each of its services. */
  function MockDocument(name: string, description: string, category: string, serviceType: string): string {
    "Service: " + name + " | Description: " + description + " | Category: " + category + " | Type: " + serviceType
  }

  /** A mock service as a specification: its `type` plays the part of
      `serviceType`, and it has no other recognised key. */
  function MockSpecification(name: string, description: string, category: string, serviceType: string): ServiceSpecification {
    ServiceSpecification(None, None, Some(name), Some(description), Some(category), None,
                         None, Some(serviceType), None, None)
  }

  lemma MockSegments(name: string, description: string, category: string, serviceType: string)
    ensures DocumentSegments(MockSpecification(name, description, category, serviceType))
         == ["Service: " + name, "Description: " + description, "Category: " + category, "Type: " + serviceType]
  {
  }

  /** The mock format is the document `create_service_document` builds for
      the corresponding specification. */
  lemma MockDocumentMatchesServiceDocument(name: string, description: string, category: string, serviceType: string)
    ensures MockDocument(name, description, category, serviceType)
         == ServiceDocument(MockSpecification(name, description, category, serviceType))
  {
    var sep := " | ";
    MockSegments(name, description, category, serviceType);
    Strings.JoinFour("Service: " + name, "Description: " + description, "Category: " + category, "Type: " + serviceType, sep);
    var a := "Service: " + name;
    Strings.Regroup(a, sep, "Description: ", description);
    assert sep + "Description: " == " | Description: ";
    var ab := a + " | Description: " + description;
    Strings.Regroup(ab, sep, "Category: ", category);
    assert sep + "Category: " == " | Category: ";
    var abc := ab + " | Category: " + category;
    Strings.Regroup(abc, sep, "Type: ", serviceType);
    assert sep + "Type: " == " | Type: ";
  }

  // ---------------------------------------------------------------------
  // The metadata

  /** `extract_metadata` as a value. */
  function Metadata(spec: ServiceSpecification): map<string, string> {
    var m0: map<string, string> := map[];
    var m1 := if spec.name.Some? then m0["name" := spec.name.value] else m0;
    var m2 := if spec.category.Some? then m1["category" := spec.category.value] else m1;
    var m3 := if spec.version.Some? then m2["version" := spec.version.value] else m2;
    var m4 := if spec.lifecycleStatus.Some? then m3["status" := spec.lifecycleStatus.value] else m3;
    var m5 := if spec.serviceType.Some? then m4["type" := spec.serviceType.value] else m4;
    if spec.serviceSpecCharacteristic.Some? then
      m5["num_characteristics" := Strings.NatToString(|spec.serviceSpecCharacteristic.value|)]
    else m5
  }

  /** A key of the metadata appears exactly when its source field is
      present; `lifecycleStatus` is stored as "status", `serviceType` as
      "type", and "num_characteristics" is the decimal count of the
      characteristic list. */
  lemma MetadataKeys(spec: ServiceSpecification)
    ensures Metadata(spec).Keys <= {"name", "category", "version", "status", "type", "num_characteristics"}
    ensures ("name" in Metadata(spec) <==> spec.name.Some?) && ("name" in Metadata(spec) ==> Metadata(spec)["name"] == spec.name.value)
    ensures ("category" in Metadata(spec) <==> spec.category.Some?)
         && ("category" in Metadata(spec) ==> Metadata(spec)["category"] == spec.category.value)
    ensures ("version" in Metadata(spec) <==> spec.version.Some?)
         && ("version" in Metadata(spec) ==> Metadata(spec)["version"] == spec.version.value)
    ensures ("status" in Metadata(spec) <==> spec.lifecycleStatus.Some?)
         && ("status" in Metadata(spec) ==> Metadata(spec)["status"] == spec.lifecycleStatus.value)
    ensures ("type" in Metadata(spec) <==> spec.serviceType.Some?)
         && ("type" in Metadata(spec) ==> Metadata(spec)["type"] == spec.serviceType.value)
    ensures ("num_characteristics" in Metadata(spec) <==> spec.serviceSpecCharacteristic.Some?)
         && ("num_characteristics" in Metadata(spec) ==>
               Strings.IsDigits(Metadata(spec)["num_characteristics"])
               && Strings.ParseDigits(Metadata(spec)["num_characteristics"]) == |spec.serviceSpecCharacteristic.value|)
  {
    if spec.serviceSpecCharacteristic.Some? {
      Strings.ParseNatToString(|spec.serviceSpecCharacteristic.value|);
    }
  }

  /** `extract_metadata`. */
  method ExtractMetadata(spec: ServiceSpecification) returns (metadata: map<string, string>)
    ensures metadata == Metadata(spec)
    ensures metadata.Keys <= {"name", "category", "version", "status", "type", "num_characteristics"}
    ensures ("name" in metadata <==> spec.name.Some?) && ("name" in metadata ==> metadata["name"] == spec.name.value)
    ensures ("category" in metadata <==> spec.category.Some?)
         && ("category" in metadata ==> metadata["category"] == spec.category.value)
    ensures ("version" in metadata <==> spec.version.Some?)
         && ("version" in metadata ==> metadata["version"] == spec.version.value)
    ensures ("status" in metadata <==> spec.lifecycleStatus.Some?)
         && ("status" in metadata ==> metadata["status"] == spec.lifecycleStatus.value)
    ensures ("type" in metadata <==> spec.serviceType.Some?)
         && ("type" in metadata ==> metadata["type"] == spec.serviceType.value)
    ensures ("num_characteristics" in metadata <==> spec.serviceSpecCharacteristic.Some?)
         && ("num_characteristics" in metadata ==>
               Strings.IsDigits(metadata["num_characteristics"])
               && Strings.ParseDigits(metadata["num_characteristics"]) == |spec.serviceSpecCharacteristic.value|)
  {
    metadata := map[];
    if spec.name.Some? {
      metadata := metadata["name" := spec.name.value];
    }
    if spec.category.Some? {
      metadata := metadata["category" := spec.category.value];
    }
    if spec.version.Some? {
      metadata := metadata["version" := spec.version.value];
    }
    if spec.lifecycleStatus.Some? {
      metadata := metadata["status" := spec.lifecycleStatus.value];
    }
    if spec.serviceType.Some? {
      metadata := metadata["type" := spec.serviceType.value];
    }
    if spec.serviceSpecCharacteristic.Some? {
      metadata := metadata["num_characteristics" := Strings.NatToString(|spec.serviceSpecCharacteristic.value|)];
    }
    MetadataKeys(spec);
  }

  // ---------------------------------------------------------------------
  // The batch

  /** `spec.get("id") or spec.get("uuid")`: a missing or empty id falls back
      to the uuid; None when neither is a non-empty string. */
  function ServiceId(spec: ServiceSpecification): (r: Option<string>)
    ensures r.Some? ==> r.value != ""
    ensures r.Some? <==> (spec.id.Some? && spec.id.value != "") || (spec.uuid.Some? && spec.uuid.value != "")
    ensures spec.id.Some? && spec.id.value != "" ==> r == spec.id
    ensures !(spec.id.Some? && spec.id.value != "") && spec.uuid.Some? && spec.uuid.value != "" ==> r == spec.uuid
  {
    if spec.id.Some? && spec.id.value != "" then spec.id
    else if spec.uuid.Some? && spec.uuid.value != "" then spec.uuid
    else None
  }

  function HasId(spec: ServiceSpecification): bool {
    ServiceId(spec).Some?
  }

  /** One position of the three aligned lists handed to the collection. */
  datatype Entry = Entry(id: string, document: string, metadata: map<string, string>)

  function EntryOf(spec: ServiceSpecification): Entry {
    Entry(match ServiceId(spec) case Some(id) => id case None => "", ServiceDocument(spec), Metadata(spec))
  }

  /** The entries built from the specifications that have an id, in input order. */
  function Batch(specs: seq<ServiceSpecification>): seq<Entry> {
    Sequences.Map(Sequences.Filter(specs, HasId), EntryOf)
  }

  lemma BatchPrefixSnoc(specs: seq<ServiceSpecification>, i: nat)
    requires i < |specs|
    ensures Batch(specs[..i + 1]) == Batch(specs[..i]) + (if HasId(specs[i]) then [EntryOf(specs[i])] else [])
  {
    Sequences.FilterPrefixSnoc(specs, i, HasId);
  }

  /** Every entry comes from a specification with an id, and there are never
      more entries than specifications. */
  lemma BatchSound(specs: seq<ServiceSpecification>)
    ensures |Batch(specs)| <= |specs|
    ensures forall e | e in Batch(specs) ::
      e.id != "" && exists s | s in specs :: HasId(s) && e == EntryOf(s)
  {
    var kept := Sequences.Filter(specs, HasId);
    forall e | e in Batch(specs)
      ensures e.id != "" && exists s | s in specs :: HasId(s) && e == EntryOf(s)
    {
      var i :| 0 <= i < |kept| && Batch(specs)[i] == e;
      Sequences.MapAt(kept, EntryOf, i);
      assert kept[i] in kept;
    }
  }

  /** A specification is skipped only when it has no id. */
  lemma BatchComplete(specs: seq<ServiceSpecification>, i: nat)
    requires i < |specs| && HasId(specs[i])
    ensures EntryOf(specs[i]) in Batch(specs)
  {
    var kept := Sequences.Filter(specs, HasId);
    Sequences.FilterComplete(specs, HasId, i);
    var j :| 0 <= j < |kept| && kept[j] == specs[i];
    Sequences.MapAt(kept, EntryOf, j);
  }

  /** The entries follow the input order. */
  lemma BatchKeepsInputOrder(specs: seq<ServiceSpecification>)
    ensures exists kept: seq<ServiceSpecification> ::
      Sequences.IsSubsequence(kept, specs) && Batch(specs) == Sequences.Map(kept, EntryOf)
  {
    Sequences.FilterIsSubsequence(specs, HasId);
    var kept := Sequences.Filter(specs, HasId);
    assert Sequences.IsSubsequence(kept, specs) && Batch(specs) == Sequences.Map(kept, EntryOf);
  }

  /** The batch loop of `ingest_catalog` (lines 236-255): three lists kept
      aligned by position, one position per specification that has an id. */
  method BuildBatch(specs: seq<ServiceSpecification>)
    returns (ids: seq<string>, documents: seq<string>, metadatas: seq<map<string, string>>)
    ensures |ids| == |documents| == |metadatas| == |Batch(specs)| <= |specs|
    ensures forall k :: 0 <= k < |ids| ==> Batch(specs)[k] == Entry(ids[k], documents[k], metadatas[k])
  {
    ids, documents, metadatas := [], [], [];
    for i := 0 to |specs|
      invariant |ids| == |documents| == |metadatas| == |Batch(specs[..i])|
      invariant forall k :: 0 <= k < |ids| ==> Batch(specs[..i])[k] == Entry(ids[k], documents[k], metadatas[k])
    {
      var spec := specs[i];
      BatchPrefixSnoc(specs, i);
      var serviceId := spec.id;
      if serviceId.None? || serviceId.value == "" {
        serviceId := spec.uuid;
      }
      if serviceId.None? || serviceId.value == "" {
        continue;
      }
      assert serviceId == ServiceId(spec);
      var document := CreateServiceDocument(spec);
      var metadata := ExtractMetadata(spec);
      assert EntryOf(spec) == Entry(serviceId.value, document, metadata);
      assert Batch(specs[..i + 1]) == Batch(specs[..i]) + [Entry(serviceId.value, document, metadata)];
      ids := ids + [serviceId.value];
      documents := documents + [document];
      metadatas := metadatas + [metadata];
    }
    assert specs[..|specs|] == specs;
    BatchSound(specs);
  }

  /** The one `collection.add` call of an ingestion run. */
  datatype AddCall = AddCall(ids: seq<string>, documents: seq<string>, metadatas: seq<map<string, string>>)

  /** Lines 228-263 of `ingest_catalog`: an empty fetch returns early, and
      the collection is called only when at least one specification had an
      id; the call carries the aligned batch. */
  method IngestSpecifications(specs: seq<ServiceSpecification>) returns (added: Option<AddCall>)
    ensures added.None? <==> Batch(specs) == []
    ensures added.Some? ==>
      |added.value.ids| == |added.value.documents| == |added.value.metadatas| == |Batch(specs)|
      && forall k :: 0 <= k < |added.value.ids| ==>
           Batch(specs)[k] == Entry(added.value.ids[k], added.value.documents[k], added.value.metadatas[k])
  {
    if specs == [] {
      return None;
    }
    var ids, documents, metadatas := BuildBatch(specs);
    if ids != [] {
      added := Some(AddCall(ids, documents, metadatas));
    } else {
      added := None;
    }
  }

  /** Nothing is inserted exactly when no specification has an id. */
  lemma {:induction false} BatchEmptyIff(specs: seq<ServiceSpecification>)
    ensures Batch(specs) == [] <==> forall i :: 0 <= i < |specs| ==> !HasId(specs[i])
  {
    if specs != [] {
      var n := |specs| - 1;
      BatchEmptyIff(specs[..n]);
      BatchPrefixSnoc(specs, n);
      assert specs[..n + 1] == specs;
      assert forall i :: 0 <= i < n ==> specs[..n][i] == specs[i];
    }
  }
}
