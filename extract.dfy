/** The extraction rules of `IIIFMetadataBoxFromMarc.from_dict` in `marc2iiif/classes.py`, stated as
    functions of the decoded record: which keys the loop visits, which branch each key takes, and
    the title, description, metadata list and identifier that result. */
module Extraction {
  import opened Wrappers
  import opened PyStrings
  import opened Marc
  import opened Utils

  /** The title used when no field supplies one. */
  const DefaultTitle := "An untitled Cultural Heritage Object"

  /** The description used when no field supplies one. */
  const DefaultDescription := "This Cultural Heritage Object does not have a description"

  /** The generic label whose first value becomes the identifier. */
  const LocationLabel := "Electronic Location and Access"

  /** `TITLE_LOOKUPS`, `DESCRIPTION_LOOKUPS` and `LABEL_LOOKUP` of the constants module, which is
      not part of this model: the tag tables are a parameter of the extraction. */
  datatype Lookups = Lookups(titleTags: set<string>, descriptionTags: set<string>, labels: map<string, string>)

  /** The branch of the loop a key takes: the title test comes first, then the description
      test, then the generic-label test; a key in none of the tables is never visited. */
  datatype Branch = TitleBranch | DescriptionBranch | MetadataBranch | Skipped

  function BranchOf(lk: Lookups, key: string): Branch {
    if key in lk.titleTags then TitleBranch
    else if key in lk.descriptionTags then DescriptionBranch
    else if key in lk.labels then MetadataBranch
    else Skipped
  }

  /** The tags that only the generic-label branch takes. */
  function GenericTags(lk: Lookups): set<string> {
    lk.labels.Keys - lk.titleTags - lk.descriptionTags
  }

  /** The index of the first field bearing `tag`, or `|fields|` when no field does. */
  function FirstIndex(fields: seq<DataField>, tag: string): (r: nat)
    ensures r <= |fields|
    ensures r < |fields| ==> fields[r].tag == tag
    ensures forall j :: 0 <= j < r ==> fields[j].tag != tag
  {
    if fields == [] then 0
    else if fields[0].tag == tag then 0
    else 1 + FirstIndex(fields[1..], tag)
  }

  /** Some field bears `tag`. */
  predicate HasTag(fields: seq<DataField>, tag: string) {
    FirstIndex(fields, tag) < |fields|
  }

  /** `[x.get(key).get("subfields") for x in fields if x.get(key)][0]`: the subfields of the first field bearing `tag`. */
  function FirstSubfields(fields: seq<DataField>, tag: string): seq<Subfield>
    requires HasTag(fields, tag)
  {
    fields[FirstIndex(fields, tag)].subfields
  }

  /** The comprehensions of lines 274-279: the tag of every field whose tag is in `tags`, in document order. */
  function TagsIn(fields: seq<DataField>, tags: set<string>): (r: seq<string>)
    ensures |r| <= |fields|
    ensures forall t :: t in r <==> t in tags && HasTag(fields, t)
  {
    if fields == [] then []
    else (if fields[0].tag in tags then [fields[0].tag] else []) + TagsIn(fields[1..], tags)
  }

  /** The keys the loop visits: `match_titles + match_descriptions + match_mdata_fields`. Every one
      is the tag of some field and lies in one of the tables. */
  function LoopKeys(fields: seq<DataField>, lk: Lookups): (r: seq<string>)
    ensures forall k :: k in r ==> HasTag(fields, k) && BranchOf(lk, k) != Skipped
  {
    TagsIn(fields, lk.titleTags) + TagsIn(fields, lk.descriptionTags) + TagsIn(fields, lk.labels.Keys)
  }

  /** Every key names a field of the record. */
  predicate KeysPresent(fields: seq<DataField>, keys: seq<string>) {
    forall k :: k in keys ==> HasTag(fields, k)
  }

  /** `[x for x in subfields if 'a' in x.keys()][0].get("a")`: the text of the first `a` subfield,
      or None where the comprehension is empty and indexing it raises. */
  function FirstA(subfields: seq<Subfield>): (r: Option<string>)
    ensures r.None? <==> forall i :: 0 <= i < |subfields| ==> subfields[i].code != "a"
    ensures r.Some? ==> exists i :: 0 <= i < |subfields| && subfields[i] == Subfield("a", r.value)
                                    && forall j :: 0 <= j < i ==> subfields[j].code != "a"
  {
    if subfields == [] then None
    else if subfields[0].code == "a" then Some(subfields[0].text)
    else FirstA(subfields[1..])
  }

  /** The last key of `keys` that takes branch `b`: the loop keeps overwriting the title and the
      description, so the last such key decides them. */
  function LastKeyOf(lk: Lookups, keys: seq<string>, b: Branch): (r: Option<string>)
    ensures r.Some? ==> r.value in keys && BranchOf(lk, r.value) == b
    ensures r.None? <==> forall k :: k in keys ==> BranchOf(lk, k) != b
    ensures r.Some? ==> exists i :: 0 <= i < |keys| && keys[i] == r.value
                                  && forall j :: i < j < |keys| ==> BranchOf(lk, keys[j]) != b
  {
    if keys == [] then None
    else if BranchOf(lk, keys[|keys| - 1]) == b then Some(keys[|keys| - 1])
    else
      var r := LastKeyOf(lk, keys[..|keys| - 1], b);
      assert keys == keys[..|keys| - 1] + [keys[|keys| - 1]];
      assert r.Some? ==> exists i :: 0 <= i < |keys| && keys[i] == r.value
                                  && forall j :: i < j < |keys| ==> BranchOf(lk, keys[j]) != b;
      r
  }

  /** Some title key names a field whose first occurrence has no `a` subfield: line 286 then
      indexes an empty list and `from_dict` raises IndexError. */
  function TitleMissesA(fields: seq<DataField>, lk: Lookups, keys: seq<string>): (r: bool)
    requires KeysPresent(fields, keys)
    ensures r <==> exists i :: 0 <= i < |fields| && fields[i].tag in keys && BranchOf(lk, fields[i].tag) == TitleBranch
                               && FirstIndex(fields, fields[i].tag) == i && FirstA(fields[i].subfields).None?
  {
    var misses := exists k :: k in keys && BranchOf(lk, k) == TitleBranch && FirstA(FirstSubfields(fields, k)).None?;
    assert misses ==> exists i :: 0 <= i < |fields| && fields[i].tag in keys && BranchOf(lk, fields[i].tag) == TitleBranch
                                  && FirstIndex(fields, fields[i].tag) == i && FirstA(fields[i].subfields).None? by {
      if misses {
        var k :| k in keys && BranchOf(lk, k) == TitleBranch && FirstA(FirstSubfields(fields, k)).None?;
        assert fields[FirstIndex(fields, k)].tag == k;
      }
    }
    assert (exists i :: 0 <= i < |fields| && fields[i].tag in keys && BranchOf(lk, fields[i].tag) == TitleBranch
                        && FirstIndex(fields, fields[i].tag) == i && FirstA(fields[i].subfields).None?) ==> misses by {
      if exists i :: 0 <= i < |fields| && fields[i].tag in keys && BranchOf(lk, fields[i].tag) == TitleBranch
                     && FirstIndex(fields, fields[i].tag) == i && FirstA(fields[i].subfields).None? {
        var i :| 0 <= i < |fields| && fields[i].tag in keys && BranchOf(lk, fields[i].tag) == TitleBranch
                 && FirstIndex(fields, fields[i].tag) == i && FirstA(fields[i].subfields).None?;
        assert FirstSubfields(fields, fields[i].tag) == fields[i].subfields;
      }
    }
    misses
  }

  /** The title after the loop has visited `keys`: the default, or the first `a` subfield of the
      first field bearing the last title key. */
  function ResolvedTitle(fields: seq<DataField>, lk: Lookups, keys: seq<string>): (r: string)
    requires KeysPresent(fields, keys) && !TitleMissesA(fields, lk, keys)
    ensures (forall k :: k in keys ==> BranchOf(lk, k) != TitleBranch) ==> r == DefaultTitle
    ensures r == DefaultTitle || exists k :: k in keys && BranchOf(lk, k) == TitleBranch && FirstA(FirstSubfields(fields, k)) == Some(r)
  {
    match LastKeyOf(lk, keys, TitleBranch)
    case None => DefaultTitle
    case Some(k) => FirstA(FirstSubfields(fields, k)).value
  }

  /** The description after the loop has visited `keys`: the default, or the combined subfields of
      the first field bearing the last description key. */
  function ResolvedDescription(fields: seq<DataField>, lk: Lookups, keys: seq<string>): (r: string)
    requires KeysPresent(fields, keys)
    ensures (forall k :: k in keys ==> BranchOf(lk, k) != DescriptionBranch) ==> r == DefaultDescription
    ensures r == DefaultDescription || exists k :: k in keys && BranchOf(lk, k) == DescriptionBranch && r == Combine(FirstSubfields(fields, k))
  {
    match LastKeyOf(lk, keys, DescriptionBranch)
    case None => DefaultDescription
    case Some(k) => Combine(FirstSubfields(fields, k))
  }

  /** The metadata entry for a generic key: its label, and the combined subfields of the first
      field bearing it (whichever occurrence of the tag the key came from). */
  function MetadataEntry(fields: seq<DataField>, lk: Lookups, key: string): MetadataField
    requires HasTag(fields, key) && key in lk.labels
  {
    MetadataField(lk.labels[key], Combine(FirstSubfields(fields, key)))
  }

  /** The metadata list after the loop has visited `keys`: one entry per generic key, in order. */
  function MetadataEntries(fields: seq<DataField>, lk: Lookups, keys: seq<string>): (r: seq<MetadataField>)
    requires KeysPresent(fields, keys)
    ensures |r| <= |keys|
  {
    if keys == [] then []
    else
      var k := keys[|keys| - 1];
      MetadataEntries(fields, lk, keys[..|keys| - 1])
        + (if BranchOf(lk, k) == MetadataBranch then [MetadataEntry(fields, lk, k)] else [])
  }

  /** The index of the first entry labelled `name`, as `[x.value for x in metadata if x.label == name]` finds it. */
  function FirstLabelled(metadata: seq<MetadataField>, name: string): (r: Option<nat>)
    ensures r.Some? ==> r.value < |metadata| && metadata[r.value].name == name
    ensures r.Some? ==> forall j :: 0 <= j < r.value ==> metadata[j].name != name
    ensures r.None? ==> forall j :: 0 <= j < |metadata| ==> metadata[j].name != name
  {
    if metadata == [] then None
    else if metadata[0].name == name then Some(0)
    else match FirstLabelled(metadata[1..], name)
      case None => None
      case Some(i) => Some(i + 1)
  }

  /** Lines 295-298: the identifier is the value of the first "Electronic Location and Access" entry,
      unchanged (no prefix is removed), or "" when there is none. */
  function LocationValue(metadata: seq<MetadataField>): (r: string)
    ensures (forall j :: 0 <= j < |metadata| ==> metadata[j].name != LocationLabel) ==> r == ""
    ensures forall i ::
              (0 <= i < |metadata| && metadata[i].name == LocationLabel
               && forall j :: 0 <= j < i ==> metadata[j].name != LocationLabel) ==> r == metadata[i].value
  {
    match FirstLabelled(metadata, LocationLabel)
    case None => ""
    case Some(i) => metadata[i].value
  }

  /** What `from_dict` builds: title (`label`), description, identifier and metadata list. */
  datatype Extracted = Extracted(title: string, description: string, identifier: string, metadata: seq<MetadataField>)

  /** The metadata list `from_dict` builds. */
  function Metadata(fields: seq<DataField>, lk: Lookups): (r: seq<MetadataField>)
    ensures forall m :: m in r ==> exists k :: k in GenericTags(lk) && HasTag(fields, k) && m == MetadataEntry(fields, lk, k)
  {
    var keys := LoopKeys(fields, lk);
    GenericEntriesOnly(fields, lk, keys);
    MetadataEntries(fields, lk, keys)
  }

  /** Every entry of the metadata list is the entry of a generic key. */
  lemma {:induction false} GenericEntriesOnly(fields: seq<DataField>, lk: Lookups, keys: seq<string>)
    requires KeysPresent(fields, keys)
    ensures forall m :: m in MetadataEntries(fields, lk, keys) ==>
              exists k :: k in GenericTags(lk) && HasTag(fields, k) && m == MetadataEntry(fields, lk, k)
    decreases |keys|
  {
    if keys != [] {
      var init, k := keys[..|keys| - 1], keys[|keys| - 1];
      assert KeysPresent(fields, init) by {
        forall x | x in init ensures HasTag(fields, x) {
          assert x in keys;
        }
      }
      GenericEntriesOnly(fields, lk, init);
      if BranchOf(lk, k) == MetadataBranch {
        assert k in GenericTags(lk) && HasTag(fields, k);
      }
    }
  }

  /** The result of `IIIFMetadataBoxFromMarc.from_dict` on a record whose `"fields"` are `fields`. */
  function Extract(fields: seq<DataField>, lk: Lookups): (r: Result<Extracted, Error>)
    ensures r.Failure? ==> r.error == IndexError
    ensures r.Success? ==> r.value.metadata == Metadata(fields, lk)
    ensures r.Success? ==>
              || r.value.identifier == ""
              || exists j :: 0 <= j < |r.value.metadata| && r.value.metadata[j].name == LocationLabel
                             && r.value.metadata[j].value == r.value.identifier
  {
    var keys := LoopKeys(fields, lk);
    if TitleMissesA(fields, lk, keys) then Failure(IndexError)
    else
      var metadata := Metadata(fields, lk);
      Success(Extracted(ResolvedTitle(fields, lk, keys), ResolvedDescription(fields, lk, keys),
                        LocationValue(metadata), metadata))
  }

  /** Every key drawn from a suffix of the record names a field of the whole record. */
  lemma SuffixTagsPresent(fields: seq<DataField>, n: nat, tags: set<string>)
    requires n <= |fields|
    ensures KeysPresent(fields, TagsIn(fields[n..], tags))
  {
    forall t | t in TagsIn(fields[n..], tags) ensures HasTag(fields, t) {
      var i := FirstIndex(fields[n..], t);
      assert fields[n + i].tag == t;
    }
  }

  /** The metadata list of a concatenation of key lists is the concatenation of their metadata lists. */
  lemma {:induction false} MetadataEntriesAppend(fields: seq<DataField>, lk: Lookups, a: seq<string>, b: seq<string>)
    requires KeysPresent(fields, a) && KeysPresent(fields, b)
    ensures KeysPresent(fields, a + b)
    ensures MetadataEntries(fields, lk, a + b) == MetadataEntries(fields, lk, a) + MetadataEntries(fields, lk, b)
  {
    if b != [] {
      var init := b[..|b| - 1];
      assert (a + b)[..|a + b| - 1] == a + init;
      MetadataEntriesAppend(fields, lk, a, init);
    } else {
      assert a + b == a;
    }
  }

  /** Keys that never take the generic branch add no metadata. */
  lemma {:induction false} MetadataEntriesOfNonGeneric(fields: seq<DataField>, lk: Lookups, keys: seq<string>)
    requires KeysPresent(fields, keys)
    requires forall k :: k in keys ==> BranchOf(lk, k) != MetadataBranch
    ensures MetadataEntries(fields, lk, keys) == []
  {
    if keys != [] {
      MetadataEntriesOfNonGeneric(fields, lk, keys[..|keys| - 1]);
    }
  }

  /** Keys that all take the generic branch give one entry each, in order. */
  lemma {:induction false} MetadataEntriesOfGeneric(fields: seq<DataField>, lk: Lookups, keys: seq<string>)
    requires KeysPresent(fields, keys)
    requires forall j :: 0 <= j < |keys| ==> BranchOf(lk, keys[j]) == MetadataBranch
    ensures forall j :: 0 <= j < |keys| ==> keys[j] in lk.labels && HasTag(fields, keys[j])
    ensures |MetadataEntries(fields, lk, keys)| == |keys|
    ensures forall j :: 0 <= j < |keys| ==> MetadataEntries(fields, lk, keys)[j] == MetadataEntry(fields, lk, keys[j])
  {
    if keys != [] {
      var init := keys[..|keys| - 1];
      MetadataEntriesOfGeneric(fields, lk, init);
      var last := MetadataEntry(fields, lk, keys[|keys| - 1]);
      assert MetadataEntries(fields, lk, keys) == MetadataEntries(fields, lk, init) + [last];
      forall j | 0 <= j < |keys| ensures MetadataEntries(fields, lk, keys)[j] == MetadataEntry(fields, lk, keys[j]) {
        if j < |init| {
          assert init[j] == keys[j];
        }
      }
    }
  }

  /** Among the tags with a generic label, those that are also title or description tags add nothing. */
  lemma {:induction false} LabelKeysGiveGenericEntries(fields: seq<DataField>, lk: Lookups, n: nat)
    requires n <= |fields|
    ensures KeysPresent(fields, TagsIn(fields[n..], lk.labels.Keys))
    ensures KeysPresent(fields, TagsIn(fields[n..], GenericTags(lk)))
    ensures MetadataEntries(fields, lk, TagsIn(fields[n..], lk.labels.Keys))
            == MetadataEntries(fields, lk, TagsIn(fields[n..], GenericTags(lk)))
    decreases |fields| - n
  {
    SuffixTagsPresent(fields, n, lk.labels.Keys);
    SuffixTagsPresent(fields, n, GenericTags(lk));
    if n < |fields| {
      var t := fields[n].tag;
      assert fields[n..][1..] == fields[n + 1..];
      var head := if t in lk.labels.Keys then [t] else [];
      var generic := if t in GenericTags(lk) then [t] else [];
      assert TagsIn(fields[n..], lk.labels.Keys) == head + TagsIn(fields[n + 1..], lk.labels.Keys);
      assert TagsIn(fields[n..], GenericTags(lk)) == generic + TagsIn(fields[n + 1..], GenericTags(lk));
      assert HasTag(fields, t);
      LabelKeysGiveGenericEntries(fields, lk, n + 1);
      MetadataEntriesAppend(fields, lk, head, TagsIn(fields[n + 1..], lk.labels.Keys));
      MetadataEntriesAppend(fields, lk, generic, TagsIn(fields[n + 1..], GenericTags(lk)));
      if t !in GenericTags(lk) {
        MetadataEntriesOfNonGeneric(fields, lk, head);
      }
      assert head == [] ==> head + TagsIn(fields[n + 1..], lk.labels.Keys) == TagsIn(fields[n + 1..], lk.labels.Keys);
    }
  }

  /** The metadata list holds one entry per field whose tag has a generic label and is neither a title
      nor a description tag, in document order; the entry carries the tag's label and the combined
      subfields of the FIRST field bearing that tag, so a repeated tag repeats the first value, and a
      tag in no table adds nothing. */
  lemma MetadataInDocumentOrder(fields: seq<DataField>, lk: Lookups)
    ensures forall t :: t in TagsIn(fields, GenericTags(lk)) ==> t in lk.labels && HasTag(fields, t)
    ensures |Metadata(fields, lk)| == |TagsIn(fields, GenericTags(lk))|
    ensures forall j :: 0 <= j < |Metadata(fields, lk)| ==>
              Metadata(fields, lk)[j] == MetadataEntry(fields, lk, TagsIn(fields, GenericTags(lk))[j])
    ensures forall j, k :: 0 <= j < k < |Metadata(fields, lk)| && TagsIn(fields, GenericTags(lk))[j] == TagsIn(fields, GenericTags(lk))[k]
              ==> Metadata(fields, lk)[j] == Metadata(fields, lk)[k]
  {
    var titles := TagsIn(fields, lk.titleTags);
    var descriptions := TagsIn(fields, lk.descriptionTags);
    var labelled := TagsIn(fields, lk.labels.Keys);
    var generic := TagsIn(fields, GenericTags(lk));
    assert fields[0..] == fields;
    LabelKeysGiveGenericEntries(fields, lk, 0);
    MetadataEntriesAppend(fields, lk, titles, descriptions);
    MetadataEntriesAppend(fields, lk, titles + descriptions, labelled);
    MetadataEntriesOfNonGeneric(fields, lk, titles);
    MetadataEntriesOfNonGeneric(fields, lk, descriptions);
    assert LoopKeys(fields, lk) == titles + descriptions + labelled;
    assert Metadata(fields, lk) == MetadataEntries(fields, lk, labelled);
    assert Metadata(fields, lk) == MetadataEntries(fields, lk, generic);
    forall j | 0 <= j < |generic| ensures BranchOf(lk, generic[j]) == MetadataBranch {
      assert generic[j] in generic;
      assert generic[j] in GenericTags(lk);
    }
    MetadataEntriesOfGeneric(fields, lk, generic);
  }

  /** Without any field bearing a title tag, the title is the default sentinel (and extraction does not fail). */
  lemma TitleDefaultsWithoutTitleTag(fields: seq<DataField>, lk: Lookups)
    requires forall i :: 0 <= i < |fields| ==> fields[i].tag !in lk.titleTags
    ensures Extract(fields, lk).Success?
    ensures Extract(fields, lk).value.title == DefaultTitle
  {
    var keys := LoopKeys(fields, lk);
    forall k | k in keys ensures BranchOf(lk, k) != TitleBranch {
      assert fields[FirstIndex(fields, k)].tag == k;
    }
  }

  /** Without any field bearing a description tag, the description is the default sentinel. */
  lemma DescriptionDefaultsWithoutDescriptionTag(fields: seq<DataField>, lk: Lookups)
    requires forall i :: 0 <= i < |fields| ==> fields[i].tag !in lk.descriptionTags
    ensures Extract(fields, lk).Success? ==> Extract(fields, lk).value.description == DefaultDescription
  {
    var keys := LoopKeys(fields, lk);
    forall k | k in keys ensures BranchOf(lk, k) != DescriptionBranch {
      assert fields[FirstIndex(fields, k)].tag == k;
    }
  }

  /** Extraction fails (IndexError) exactly when a field bearing a title tag shares its tag with a
      first field that has no `a` subfield; a missing title never falls back to the default. */
  lemma ExtractFailsIff(fields: seq<DataField>, lk: Lookups)
    ensures Extract(fields, lk).Failure? <==>
              exists i :: 0 <= i < |fields| && fields[i].tag in lk.titleTags
                          && FirstA(FirstSubfields(fields, fields[i].tag)).None?
    ensures Extract(fields, lk).Failure? ==> Extract(fields, lk).error == IndexError
  {
    var keys := LoopKeys(fields, lk);
    if exists i :: 0 <= i < |fields| && fields[i].tag in lk.titleTags && FirstA(FirstSubfields(fields, fields[i].tag)).None? {
      var i :| 0 <= i < |fields| && fields[i].tag in lk.titleTags && FirstA(FirstSubfields(fields, fields[i].tag)).None?;
      assert fields[i].tag in TagsIn(fields, lk.titleTags);
      assert fields[i].tag in keys;
    }
    if TitleMissesA(fields, lk, keys) {
      var k :| k in keys && BranchOf(lk, k) == TitleBranch && FirstA(FirstSubfields(fields, k)).None?;
      var i := FirstIndex(fields, k);
      assert fields[i].tag == k;
    }
  }

  /** When every field bearing a title tag bears the same tag `t` (as with the single title tag "245"),
      the title is the text of the first `a` subfield of the first such field, and extraction fails
      exactly when that field has no `a` subfield. */
  lemma TitleFromSingleTitleTag(fields: seq<DataField>, lk: Lookups, t: string)
    requires t in lk.titleTags && HasTag(fields, t)
    requires forall i :: 0 <= i < |fields| && fields[i].tag in lk.titleTags ==> fields[i].tag == t
    ensures Extract(fields, lk).Failure? <==> FirstA(FirstSubfields(fields, t)).None?
    ensures Extract(fields, lk).Success? ==> Extract(fields, lk).value.title == FirstA(FirstSubfields(fields, t)).value
  {
    var keys := LoopKeys(fields, lk);
    assert t in TagsIn(fields, lk.titleTags);
    assert t in keys;
    forall k | k in keys && BranchOf(lk, k) == TitleBranch ensures k == t {
      assert fields[FirstIndex(fields, k)].tag == k;
    }
  }

  /** When every field bearing a description tag (and no title tag) bears the same tag `t`, the
      description is the combined subfields of the first such field. */
  lemma DescriptionFromSingleDescriptionTag(fields: seq<DataField>, lk: Lookups, t: string)
    requires t in lk.descriptionTags && t !in lk.titleTags && HasTag(fields, t)
    requires forall i :: 0 <= i < |fields| && fields[i].tag in lk.descriptionTags && fields[i].tag !in lk.titleTags
                         ==> fields[i].tag == t
    ensures Extract(fields, lk).Success? ==> Extract(fields, lk).value.description == Combine(FirstSubfields(fields, t))
  {
    var keys := LoopKeys(fields, lk);
    assert t in TagsIn(fields, lk.descriptionTags);
    assert t in keys;
    forall k | k in keys && BranchOf(lk, k) == DescriptionBranch ensures k == t {
      assert fields[FirstIndex(fields, k)].tag == k;
    }
    assert LastKeyOf(lk, keys, DescriptionBranch) == Some(t);
    assert Extract(fields, lk).Success? ==> Extract(fields, lk).value.description == ResolvedDescription(fields, lk, keys);
  }

  /** One turn of the loop: how visiting one more key changes the outcome, the title, the
      description and the metadata list. */
  lemma LoopStep(fields: seq<DataField>, lk: Lookups, keys: seq<string>, i: nat)
    requires i < |keys| && KeysPresent(fields, keys[..i]) && HasTag(fields, keys[i])
    ensures KeysPresent(fields, keys[..i + 1])
    ensures TitleMissesA(fields, lk, keys[..i + 1]) <==>
              TitleMissesA(fields, lk, keys[..i])
              || (BranchOf(lk, keys[i]) == TitleBranch && FirstA(FirstSubfields(fields, keys[i])).None?)
    ensures !TitleMissesA(fields, lk, keys[..i + 1]) ==>
              ResolvedTitle(fields, lk, keys[..i + 1])
              == if BranchOf(lk, keys[i]) == TitleBranch then FirstA(FirstSubfields(fields, keys[i])).value
                 else ResolvedTitle(fields, lk, keys[..i])
    ensures ResolvedDescription(fields, lk, keys[..i + 1])
            == if BranchOf(lk, keys[i]) == DescriptionBranch then Combine(FirstSubfields(fields, keys[i]))
               else ResolvedDescription(fields, lk, keys[..i])
    ensures MetadataEntries(fields, lk, keys[..i + 1])
            == MetadataEntries(fields, lk, keys[..i])
               + if BranchOf(lk, keys[i]) == MetadataBranch then [MetadataEntry(fields, lk, keys[i])] else []
  {
    var visited, key, next := keys[..i], keys[i], keys[..i + 1];
    assert next == visited + [key];
    assert next[..|next| - 1] == visited;
    assert forall k :: k in next <==> k in visited || k == key;
  }

  /** A title key without `a` among the first keys is one among all of them. */
  lemma PrefixMissesA(fields: seq<DataField>, lk: Lookups, keys: seq<string>, n: nat)
    requires n <= |keys| && KeysPresent(fields, keys)
    ensures KeysPresent(fields, keys[..n])
    ensures TitleMissesA(fields, lk, keys[..n]) ==> TitleMissesA(fields, lk, keys)
  {
    if TitleMissesA(fields, lk, keys[..n]) {
      var k :| k in keys[..n] && BranchOf(lk, k) == TitleBranch && FirstA(FirstSubfields(fields, k)).None?;
      assert k in keys;
    }
  }
}
