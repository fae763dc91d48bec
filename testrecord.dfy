/** The record of the repository's test suite (a title, a physical description, a local subject
    and an electronic location) and what the extraction and the façade make of it. */
module TestRecord {
  import opened Wrappers
  import opened PyStrings
  import opened Marc
  import opened Utils
  import opened Extraction
  import opened Classes
  import Labels

  const TitleField := DataField("245", "0", "0",
    [Subfield("a", "A Title of a CHO"), Subfield("h", "electronic resource"), Subfield("c", "Doe, Jane")])
  const PhysicalField := DataField("300", " ", " ",
    [Subfield("a", "1 online resource (1 map) :"), Subfield("b", "col.")])
  const SubjectField := DataField("690", "", "", [Subfield("a", "Test"), Subfield("b", "Subject")])
  const LocationField := DataField("856", "4", "0", [Subfield("u", "http://example.org/foo")])

  const Record := [TitleField, PhysicalField, SubjectField, LocationField]

  /** Tag tables in which "245" is a title tag, "300" a description tag, and "690" and "856" carry
      their labels from the label table. */
  const RecordLookups := Lookups({"245"}, {"300"}, map["690" := "Local Subject", "856" := LocationLabel])

  const SubjectEntry := MetadataField("Local Subject", "Test Subject")
  const LocationEntry := MetadataField(LocationLabel, "http://example.org/foo")

  /** The labels of the tag tables above are those of the label table. */
  lemma RecordLabelsFromLabelTable()
    ensures forall k :: k in RecordLookups.labels ==> Labels.LabelLookup(k) == Some(RecordLookups.labels[k])
  {
    Labels.LocationAndLocalSubjectLabels();
  }

  /** `[f] + rest` keeps the tag of `f` ahead of those of `rest` exactly when it lies in `tags`. */
  lemma TagsInCons(f: DataField, rest: seq<DataField>, tags: set<string>)
    ensures TagsIn([f] + rest, tags) == (if f.tag in tags then [f.tag] else []) + TagsIn(rest, tags)
  {
    assert ([f] + rest)[1..] == rest;
  }

  /** The shape of the test record over any tag tables: a title field, a description field and two
      labelled fields with different tags, of which only the last is the electronic location. */
  predicate RecordShape(a: DataField, b: DataField, c: DataField, d: DataField, lk: Lookups) {
    && a.tag in lk.titleTags && a.tag !in lk.descriptionTags && a.tag !in lk.labels
    && b.tag !in lk.titleTags && b.tag in lk.descriptionTags && b.tag !in lk.labels
    && c.tag !in lk.titleTags && c.tag !in lk.descriptionTags && c.tag in lk.labels
    && d.tag !in lk.titleTags && d.tag !in lk.descriptionTags && d.tag in lk.labels
    && c.tag != d.tag && lk.labels[c.tag] != LocationLabel && lk.labels[d.tag] == LocationLabel
  }

  /** Of four fields, only the tags of those lying in `tags` are kept: here the first alone, the second
      alone, or the last two. */
  lemma TagsInFour(a: DataField, b: DataField, c: DataField, d: DataField, tags: set<string>)
    ensures a.tag in tags && b.tag !in tags && c.tag !in tags && d.tag !in tags ==> TagsIn([a, b, c, d], tags) == [a.tag]
    ensures a.tag !in tags && b.tag in tags && c.tag !in tags && d.tag !in tags ==> TagsIn([a, b, c, d], tags) == [b.tag]
    ensures a.tag !in tags && b.tag !in tags && c.tag in tags && d.tag in tags ==> TagsIn([a, b, c, d], tags) == [c.tag, d.tag]
  {
    assert [a, b, c, d] == [a] + [b, c, d] && [b, c, d] == [b] + [c, d] && [c, d] == [c] + [d] && [d] == [d] + [];
    TagsInCons(d, [], tags);
    TagsInCons(c, [d], tags);
    TagsInCons(b, [c, d], tags);
    TagsInCons(a, [b, c, d], tags);
  }

  /** Four singletons, or one and a pair, concatenate to the four in order. */
  lemma FourInOrder<T>(w: T, x: T, y: T, z: T)
    ensures [w] + [x] + [y, z] == [w, x, y, z]
  {
  }

  /** The prefixes of a four-element sequence, one element shorter each time. */
  lemma PrefixesOfFour<T>(w: T, x: T, y: T, z: T)
    ensures [w, x, y, z][..3] == [w, x, y] && [w, x, y][..2] == [w, x] && [w, x][..1] == [w] && [w][..0] == []
  {
  }

  /** The loop visits the four tags in document order. */
  lemma ShapeLoopKeys(a: DataField, b: DataField, c: DataField, d: DataField, lk: Lookups)
    requires RecordShape(a, b, c, d, lk)
    ensures LoopKeys([a, b, c, d], lk) == [a.tag, b.tag, c.tag, d.tag]
  {
    var fields := [a, b, c, d];
    assert TagsIn(fields, lk.titleTags) == [a.tag] by {
      TagsInFour(a, b, c, d, lk.titleTags);
    }
    assert TagsIn(fields, lk.descriptionTags) == [b.tag] by {
      TagsInFour(a, b, c, d, lk.descriptionTags);
    }
    assert TagsIn(fields, lk.labels.Keys) == [c.tag, d.tag] by {
      TagsInFour(a, b, c, d, lk.labels.Keys);
    }
    FourInOrder(a.tag, b.tag, c.tag, d.tag);
  }

  /** Each tag names the field at its own position. */
  lemma ShapeFirstIndices(a: DataField, b: DataField, c: DataField, d: DataField, lk: Lookups)
    requires RecordShape(a, b, c, d, lk)
    ensures FirstIndex([a, b, c, d], a.tag) == 0 && FirstIndex([a, b, c, d], b.tag) == 1
    ensures FirstIndex([a, b, c, d], c.tag) == 2 && FirstIndex([a, b, c, d], d.tag) == 3
  {
    assert [a, b, c, d][1..] == [b, c, d] && [b, c, d][1..] == [c, d] && [c, d][1..] == [d];
    assert FirstIndex([c, d], c.tag) == 0 && FirstIndex([c, d], d.tag) == 1;
    assert FirstIndex([b, c, d], c.tag) == 1 && FirstIndex([b, c, d], d.tag) == 2;
  }

  /** The title key is the last title key visited, the description key the last description key. */
  lemma ShapeLastKeys(a: DataField, b: DataField, c: DataField, d: DataField, lk: Lookups)
    requires RecordShape(a, b, c, d, lk)
    ensures LastKeyOf(lk, [a.tag, b.tag, c.tag, d.tag], TitleBranch) == Some(a.tag)
    ensures LastKeyOf(lk, [a.tag, b.tag, c.tag, d.tag], DescriptionBranch) == Some(b.tag)
  {
    var k1, k2, k3 := [a.tag], [a.tag, b.tag], [a.tag, b.tag, c.tag];
    PrefixesOfFour(a.tag, b.tag, c.tag, d.tag);
    assert LastKeyOf(lk, k1, TitleBranch) == Some(a.tag);
    assert LastKeyOf(lk, k2, TitleBranch) == Some(a.tag);
    assert LastKeyOf(lk, k3, TitleBranch) == Some(a.tag);
    assert LastKeyOf(lk, k2, DescriptionBranch) == Some(b.tag);
    assert LastKeyOf(lk, k3, DescriptionBranch) == Some(b.tag);
  }

  /** The metadata list holds one entry per labelled field, in order, and the second is the location. */
  lemma ShapeMetadata(a: DataField, b: DataField, c: DataField, d: DataField, lk: Lookups)
    requires RecordShape(a, b, c, d, lk)
    ensures KeysPresent([a, b, c, d], [a.tag, b.tag, c.tag, d.tag])
    ensures MetadataEntries([a, b, c, d], lk, [a.tag, b.tag, c.tag, d.tag])
            == [MetadataField(lk.labels[c.tag], Combine(c.subfields)), MetadataField(lk.labels[d.tag], Combine(d.subfields))]
  {
    var fields := [a, b, c, d];
    ShapeFirstIndices(a, b, c, d, lk);
    var k1, k2, k3 := [a.tag], [a.tag, b.tag], [a.tag, b.tag, c.tag];
    PrefixesOfFour(a.tag, b.tag, c.tag, d.tag);
    assert KeysPresent(fields, [a.tag, b.tag, c.tag, d.tag]);
    assert MetadataEntries(fields, lk, k1) == [];
    assert MetadataEntries(fields, lk, k2) == [];
    assert MetadataEntries(fields, lk, k3) == [MetadataField(lk.labels[c.tag], Combine(c.subfields))];
  }

  /** The title field's tag is the only one of the four that takes the title branch. */
  lemma ShapeTitleKey(a: DataField, b: DataField, c: DataField, d: DataField, lk: Lookups, k: string)
    requires RecordShape(a, b, c, d, lk) && k in [a.tag, b.tag, c.tag, d.tag] && BranchOf(lk, k) == TitleBranch
    ensures k == a.tag
  {
  }

  /** No title key misses its `a` subfield; the title and the description come from the title and the
      description field. */
  lemma ShapeResolved(a: DataField, b: DataField, c: DataField, d: DataField, lk: Lookups)
    requires RecordShape(a, b, c, d, lk) && FirstA(a.subfields).Some?
    ensures KeysPresent([a, b, c, d], [a.tag, b.tag, c.tag, d.tag])
    ensures !TitleMissesA([a, b, c, d], lk, [a.tag, b.tag, c.tag, d.tag])
    ensures ResolvedTitle([a, b, c, d], lk, [a.tag, b.tag, c.tag, d.tag]) == FirstA(a.subfields).value
    ensures ResolvedDescription([a, b, c, d], lk, [a.tag, b.tag, c.tag, d.tag]) == Combine(b.subfields)
  {
    var fields := [a, b, c, d];
    var keys := [a.tag, b.tag, c.tag, d.tag];
    ShapeFirstIndices(a, b, c, d, lk);
    ShapeLastKeys(a, b, c, d, lk);
    assert KeysPresent(fields, keys);
    assert !TitleMissesA(fields, lk, keys) by {
      forall k | k in keys && BranchOf(lk, k) == TitleBranch ensures FirstA(FirstSubfields(fields, k)).Some? {
        ShapeTitleKey(a, b, c, d, lk, k);
      }
    }
  }

  /** In a pair whose first entry bears another label, the first entry labelled `name` is the second. */
  lemma SecondLabelled(x: MetadataField, y: MetadataField, name: string)
    requires x.name != name && y.name == name
    ensures FirstLabelled([x, y], name) == Some(1)
  {
    assert [x, y][1..] == [y];
  }

  /** The identifier is the value of the second entry, the location. */
  lemma ShapeIdentifier(a: DataField, b: DataField, c: DataField, d: DataField, lk: Lookups)
    requires RecordShape(a, b, c, d, lk)
    ensures KeysPresent([a, b, c, d], [a.tag, b.tag, c.tag, d.tag])
    ensures LocationValue(MetadataEntries([a, b, c, d], lk, [a.tag, b.tag, c.tag, d.tag])) == Combine(d.subfields)
  {
    ShapeMetadata(a, b, c, d, lk);
    var x := MetadataField(lk.labels[c.tag], Combine(c.subfields));
    var y := MetadataField(lk.labels[d.tag], Combine(d.subfields));
    SecondLabelled(x, y, LocationLabel);
  }

  /** `from_dict` on a record of that shape: the title is the first `a` subfield of the title field, the
      description the combined description field, the metadata one entry per labelled field in order,
      and the identifier the value of the location entry. */
  lemma ShapeExtraction(a: DataField, b: DataField, c: DataField, d: DataField, lk: Lookups)
    requires RecordShape(a, b, c, d, lk) && FirstA(a.subfields).Some?
    ensures Extract([a, b, c, d], lk)
            == Success(Extracted(FirstA(a.subfields).value, Combine(b.subfields), Combine(d.subfields),
                                 [MetadataField(lk.labels[c.tag], Combine(c.subfields)),
                                  MetadataField(lk.labels[d.tag], Combine(d.subfields))]))
  {
    ShapeLoopKeys(a, b, c, d, lk);
    ShapeResolved(a, b, c, d, lk);
    ShapeMetadata(a, b, c, d, lk);
    ShapeIdentifier(a, b, c, d, lk);
  }

  /** The tags of the test record lie in the tables as the shape asks. */
  lemma RecordHasShape()
    ensures RecordShape(TitleField, PhysicalField, SubjectField, LocationField, RecordLookups)
  {
    assert "245"[0] == '2' && "300"[0] == '3' && "690"[0] == '6' && "856"[0] == '8';
    assert "Local Subject"[0] != LocationLabel[0];
  }

  /** The subject combines to "Test Subject". */
  lemma SubjectCombined()
    ensures Combine(SubjectField.subfields) == "Test Subject"
  {
    var subfields := [Subfield("a", "Test"), Subfield("b", "Subject")];
    assert Texts(subfields) == ["Test", "Subject"];
    CombineOfTrimmedTexts(subfields);
  }

  /** The electronic location combines to its one text. */
  lemma LocationCombined()
    ensures Combine(LocationField.subfields) == "http://example.org/foo"
  {
    var subfields := [Subfield("u", "http://example.org/foo")];
    assert Texts(subfields) == ["http://example.org/foo"];
    CombineOfTrimmedTexts(subfields);
  }

  /** `from_dict` on the test record: title "A Title of a CHO", the combined physical description,
      the local subject and the electronic location as metadata in that order, and the location as
      the identifier. */
  lemma RecordExtraction()
    ensures Extract(Record, RecordLookups)
            == Success(Extracted("A Title of a CHO", "1 online resource (1 map) : col.",
                                 "http://example.org/foo", [SubjectEntry, LocationEntry]))
  {
    RecordHasShape();
    ShapeExtraction(TitleField, PhysicalField, SubjectField, LocationField, RecordLookups);
    SubjectCombined();
    LocationCombined();
    CombineExample();
  }

  /** `modify_metadata({"Local Subject": "Test Subject"}, "A new subject")` on the extracted record
      replaces the subject's value and leaves the location as it was. */
  lemma RecordModifySubject()
    ensures ModifiedMetadata([SubjectEntry, LocationEntry],
                             PyDict([(PyStr("Local Subject"), PyStr("Test Subject"))]), PyStr("A new subject"))
            == Success([MetadataField("Local Subject", "A new subject"), LocationEntry])
  {
    var fields := [SubjectEntry, LocationEntry];
    assert FirstMatch(fields, PyStr("Local Subject"), PyStr("Test Subject")) == Some(0);
    assert ReplacedAt(fields, 0, "A new subject") == [MetadataField("Local Subject", "A new subject"), LocationEntry];
  }

  /** `remove_metadata({"Local Subject": "Test Subject"})` on the extracted record leaves only the location. */
  lemma RecordRemoveSubject()
    ensures RemovedMetadata([SubjectEntry, LocationEntry], PyDict([(PyStr("Local Subject"), PyStr("Test Subject"))]))
            == Success([LocationEntry])
  {
    var fields := [SubjectEntry, LocationEntry];
    assert FirstMatch(fields, PyStr("Local Subject"), PyStr("Test Subject")) == Some(0);
    assert RemovedAt(fields, 0) == [LocationEntry];
  }

  /** The façade run end to end on the test record: `from_dict`, then `modify_metadata` of the local
      subject; the field list the façade then shows. */
  method ModifySubjectOfRecord() returns (shown: seq<map<string, string>>)
    ensures shown == [map["label" := "Local Subject", "value" := "A new subject"],
                      map["label" := LocationLabel, "value" := "http://example.org/foo"]]
  {
    RecordExtraction();
    RecordModifySubject();
    var made := DataExtraction.FromDict(RecordDict(Record), RecordLookups);
    var extraction := made.value;
    var outcome := extraction.ModifyMetadata(PyDict([(PyStr("Local Subject"), PyStr("Test Subject"))]), PyStr("A new subject"));
    shown := extraction.metadata.GetFields();
  }
}
