/** The classes of `marc2iiif/classes.py`: `IIIFMetadataBoxFromMarc` (here `MetadataBox`), whose field
    list is edited in place, and the `IIIFDataExtractionFromMarc` façade (here `DataExtraction`), which
    edits it under the "one and only one match" rule and builds the manifest. */
module Classes {
  import opened Wrappers
  import opened PyStrings
  import opened Marc
  import opened Utils
  import opened Extraction

  /** `@context` of the manifest: the IIIF Presentation API 2 context. */
  const ManifestContext := "http://iiif.io/api/presentation/2/context.json"

  /** The base that `@id` prefixes to the identifier. */
  const ManifestIdBase := "https://iiif-manifest.lib.uchicago.edu/"

  /** `@type` of the manifest. */
  const ManifestType := "sc:Manifest"

  /** The query `(field_name, field_value)` selects field `f`: both compare equal, which a non-string never does. */
  predicate Matches(f: MetadataField, name: PyValue, value: PyValue) {
    name == PyStr(f.name) && value == PyStr(f.value)
  }

  /** The loop of `_find_field`: the index of the first field matching the query, if any. */
  function FirstMatch(fields: seq<MetadataField>, name: PyValue, value: PyValue): (r: Option<nat>)
    ensures r.Some? ==> r.value < |fields| && Matches(fields[r.value], name, value)
    ensures r.Some? ==> forall j :: 0 <= j < r.value ==> !Matches(fields[j], name, value)
    ensures r.None? <==> forall j :: 0 <= j < |fields| ==> !Matches(fields[j], name, value)
  {
    if fields == [] then None
    else if Matches(fields[0], name, value) then Some(0)
    else match FirstMatch(fields[1..], name, value)
      case None => None
      case Some(i) => Some(i + 1)
  }

  /** `fields.index(target)`: the first position holding `target`, None where `index` raises ValueError. */
  function IndexOf(fields: seq<MetadataField>, target: MetadataField): (r: Option<nat>)
    ensures r.Some? ==> r.value < |fields| && fields[r.value] == target
    ensures r.Some? ==> forall j :: 0 <= j < r.value ==> fields[j] != target
    ensures r.None? <==> target !in fields
  {
    if fields == [] then None
    else if fields[0] == target then Some(0)
    else match IndexOf(fields[1..], target)
      case None => None
      case Some(i) => Some(i + 1)
  }

  /** The field `_find_field` returns is found again by `index` at the position where it matched,
      so the façade edits exactly the first matching entry. */
  lemma {:induction false} FoundFieldIsIndexed(fields: seq<MetadataField>, name: PyValue, value: PyValue)
    requires FirstMatch(fields, name, value).Some?
    ensures IndexOf(fields, fields[FirstMatch(fields, name, value).value]) == FirstMatch(fields, name, value)
  {
    var i := FirstMatch(fields, name, value).value;
    if i > 0 {
      assert !Matches(fields[0], name, value);
      assert fields[0] != fields[i];
      assert FirstMatch(fields[1..], name, value) == Some(i - 1);
      FoundFieldIsIndexed(fields[1..], name, value);
      assert fields[1..][i - 1] == fields[i];
    }
  }

  /** One entry of `get_fields`: the dict `{"label": ..., "value": ...}`. */
  function LabelValue(f: MetadataField): (r: map<string, string>)
    ensures r.Keys == {"label", "value"} && r["label"] == f.name && r["value"] == f.value
  {
    map["label" := f.name, "value" := f.value]
  }

  /** Reads a `{"label": ..., "value": ...}` dict back into a field; None when a key is missing. */
  function FieldOf(m: map<string, string>): (r: Option<MetadataField>)
    ensures r.Some? <==> "label" in m && "value" in m
    ensures forall f :: m == LabelValue(f) ==> r == Some(f)
  {
    if "label" in m && "value" in m then Some(MetadataField(m["label"], m["value"])) else None
  }

  /** `get_fields`: one label/value dict per field, in stored order. */
  function FieldMaps(fields: seq<MetadataField>): (r: seq<map<string, string>>)
    ensures |r| == |fields|
    ensures forall i :: 0 <= i < |r| ==> r[i].Keys == {"label", "value"} && FieldOf(r[i]) == Some(fields[i])
  {
    seq(|fields|, i requires 0 <= i < |fields| => LabelValue(fields[i]))
  }

  /** Reads a list of label/value dicts back into fields; None when one of them is not such a dict. */
  function FieldsOf(maps: seq<map<string, string>>): (r: Option<seq<MetadataField>>)
    ensures r.Some? ==> |r.value| == |maps|
  {
    if maps == [] then Some([])
    else match (FieldOf(maps[0]), FieldsOf(maps[1..]))
      case (Some(f), Some(rest)) => Some([f] + rest)
      case _ => None
  }

  /** The field list can be read back from what `get_fields` returns. */
  lemma {:induction false} FieldMapsRoundTrip(fields: seq<MetadataField>)
    ensures FieldsOf(FieldMaps(fields)) == Some(fields)
  {
    if fields != [] {
      var maps := FieldMaps(fields);
      assert FieldMaps(fields[1..]) == maps[1..];
      FieldMapsRoundTrip(fields[1..]);
      assert [fields[0]] + fields[1..] == fields;
    }
  }

  /** The descriptive part of the manifest `to_dict` builds, keys in the order it sets them
      (`@context`, `@id`, `@type`, `label`, `description`, `metadata`). */
  datatype Manifest = Manifest(context: string, id: string, kind: string, title: string, description: string,
                               metadata: seq<map<string, string>>)

  /** `to_dict` over the box's state: the fixed context and type, `@id` the manifest base followed by the
      identifier, the title and description as stored and the fields as `get_fields` gives them. */
  function ManifestOf(s: Extracted): (r: Manifest)
    ensures r.context == ManifestContext && r.kind == ManifestType
    ensures StartsWith(r.id, ManifestIdBase) && r.id[|ManifestIdBase|..] == s.identifier
    ensures r.title == s.title && r.description == s.description
    ensures |r.metadata| == |s.metadata|
    ensures forall i :: 0 <= i < |r.metadata| ==> r.metadata[i] == LabelValue(s.metadata[i])
  {
    Manifest(ManifestContext, ManifestIdBase + s.identifier, ManifestType, s.title, s.description, FieldMaps(s.metadata))
  }

  /** Reads the box's state back out of a manifest, if it has the shape `to_dict` gives it. */
  function StateOf(m: Manifest): (r: Option<Extracted>)
    ensures r.Some? ==> StartsWith(m.id, ManifestIdBase) && r.value.title == m.title && r.value.description == m.description
  {
    if !StartsWith(m.id, ManifestIdBase) then None
    else match FieldsOf(m.metadata)
      case None => None
      case Some(fields) => Some(Extracted(m.title, m.description, m.id[|ManifestIdBase|..], fields))
  }

  /** The manifest loses nothing of the box: title, description, identifier and fields come back out of it. */
  lemma ManifestRoundTrip(s: Extracted)
    ensures StateOf(ManifestOf(s)) == Some(s)
  {
    FieldMapsRoundTrip(s.metadata);
  }

  /** The list without the entry at position `i`, the others kept in order (`del fields[i]`). */
  function RemovedAt(fields: seq<MetadataField>, i: nat): (r: seq<MetadataField>)
    requires i < |fields|
    ensures |r| == |fields| - 1
    ensures forall j :: 0 <= j < i ==> r[j] == fields[j]
    ensures forall j :: i <= j < |r| ==> r[j] == fields[j + 1]
    ensures multiset(r) + multiset{fields[i]} == multiset(fields)
  {
    assert fields == fields[..i] + [fields[i]] + fields[i + 1..];
    fields[..i] + fields[i + 1..]
  }

  /** The list with the value of the entry at position `i` replaced (`fields[i].value = v`). */
  function ReplacedAt(fields: seq<MetadataField>, i: nat, v: string): (r: seq<MetadataField>)
    requires i < |fields|
    ensures |r| == |fields| && r[i] == MetadataField(fields[i].name, v)
    ensures forall j :: 0 <= j < |r| && j != i ==> r[j] == fields[j]
  {
    fields[i := fields[i].(value := v)]
  }

  /** The query `remove_metadata` and `modify_metadata` read from a dict: its first key and the value stored under it. */
  function QueryOf(items: seq<(PyValue, PyValue)>): (r: (PyValue, PyValue))
    requires items != []
    ensures r == items[0]
  {
    (items[0].0, DictGet(items, items[0].0))
  }

  /** The field `add_metadata` builds from `{"field_name": ..., "field_value": ...}`. */
  function FieldToAdd(arg: PyValue): (r: Result<MetadataField, Error>)
    ensures !arg.PyDict? ==> r == Failure(TypeError)
    ensures arg.PyDict? ==>
              var name := DictGet(arg.items, PyStr("field_name"));
              var value := DictGet(arg.items, PyStr("field_value"));
              && (r.Success? <==> name.PyStr? && name.s != "" && value.PyStr? && value.s != "")
              && (r.Success? ==> r.value == MetadataField(name.s, value.s))
              && (r.Failure? ==> r.error == ValueError)
  {
    if !arg.PyDict? then Failure(TypeError)
    else
      var name := DictGet(arg.items, PyStr("field_name"));
      var value := DictGet(arg.items, PyStr("field_value"));
      if !name.Truthy() || !value.Truthy() then Failure(ValueError)
      else NewMetadataField(name, value)
  }

  /** The field list after `add_metadata(arg)`: a non-dict raises TypeError; a dict must hold non-empty
      strings under "field_name" and "field_value" (ValueError otherwise), and the new field goes last. */
  function AddedMetadata(fields: seq<MetadataField>, arg: PyValue): (r: Result<seq<MetadataField>, Error>)
    ensures !arg.PyDict? ==> r == Failure(TypeError)
    ensures arg.PyDict? ==>
              var name := DictGet(arg.items, PyStr("field_name"));
              var value := DictGet(arg.items, PyStr("field_value"));
              (r.Success? <==> name.PyStr? && name.s != "" && value.PyStr? && value.s != "")
              && (r.Success? ==> r.value == fields + [MetadataField(name.s, value.s)])
              && (r.Failure? ==> r.error == ValueError)
  {
    match FieldToAdd(arg)
    case Failure(e) => Failure(e)
    case Success(f) => Success(fields + [f])
  }

  /** The field list after `remove_metadata(arg)`: a non-dict changes nothing, an empty dict raises
      IndexError, a query that matches no entry raises ValueError, and otherwise the first entry
      matching the query is deleted and the others keep their order. */
  function RemovedMetadata(fields: seq<MetadataField>, arg: PyValue): (r: Result<seq<MetadataField>, Error>)
    ensures !arg.PyDict? ==> r == Success(fields)
    ensures arg.PyDict? && arg.items == [] ==> r == Failure(IndexError)
    ensures arg.PyDict? && arg.items != [] ==>
              var q := QueryOf(arg.items);
              (r.Failure? <==> forall j :: 0 <= j < |fields| ==> !Matches(fields[j], q.0, q.1))
              && (r.Failure? ==> r.error == ValueError)
              && (r.Success? ==> exists i :: 0 <= i < |fields| && Matches(fields[i], q.0, q.1)
                                   && (forall j :: 0 <= j < i ==> !Matches(fields[j], q.0, q.1))
                                   && r.value == fields[..i] + fields[i + 1..])
  {
    if !arg.PyDict? then Success(fields)
    else if arg.items == [] then Failure(IndexError)
    else
      var q := QueryOf(arg.items);
      match FirstMatch(fields, q.0, q.1)
      case None => Failure(ValueError)
      case Some(i) => Success(RemovedAt(fields, i))
  }

  /** The field list after `modify_metadata(arg, newValue)`: TypeError unless `arg` is a dict and
      `newValue` a string, IndexError for an empty dict; otherwise only the value of the first entry
      matching the query changes, and with no match nothing does. */
  function ModifiedMetadata(fields: seq<MetadataField>, arg: PyValue, newValue: PyValue): (r: Result<seq<MetadataField>, Error>)
    ensures !(arg.PyDict? && newValue.PyStr?) ==> r == Failure(TypeError)
    ensures arg.PyDict? && newValue.PyStr? && arg.items == [] ==> r == Failure(IndexError)
    ensures arg.PyDict? && newValue.PyStr? && arg.items != [] ==>
              var q := QueryOf(arg.items);
              r.Success? && |r.value| == |fields|
              && (forall j :: 0 <= j < |fields| ==> r.value[j].name == fields[j].name)
              && (forall j :: 0 <= j < |fields| && r.value[j] != fields[j] ==>
                    Matches(fields[j], q.0, q.1) && forall k :: 0 <= k < j ==> !Matches(fields[k], q.0, q.1))
              && (FirstMatch(fields, q.0, q.1).Some? ==> r.value[FirstMatch(fields, q.0, q.1).value].value == newValue.s)
  {
    if !(arg.PyDict? && newValue.PyStr?) then Failure(TypeError)
    else if arg.items == [] then Failure(IndexError)
    else
      var q := QueryOf(arg.items);
      match FirstMatch(fields, q.0, q.1)
      case None => Success(fields)
      case Some(i) => Success(ReplacedAt(fields, i, newValue.s))
  }

  /** A field appended after entries none of which equals it is the first match of its own label and value. */
  lemma AppendedIsFirstMatch(fields: seq<MetadataField>, f: MetadataField)
    requires forall j :: 0 <= j < |fields| ==> fields[j] != f
    ensures FirstMatch(fields + [f], PyStr(f.name), PyStr(f.value)) == Some(|fields|)
  {
    var all := fields + [f];
    assert Matches(all[|fields|], PyStr(f.name), PyStr(f.value));
    assert forall j :: 0 <= j < |fields| ==> all[j] == fields[j];
  }

  /** `add_metadata({"field_name": n, "field_value": v})` followed by `remove_metadata({n: v})` gives the
      list back, when no entry already had that label and value. */
  lemma AddThenRemoveRestores(fields: seq<MetadataField>, n: string, v: string)
    requires n != "" && v != ""
    requires forall j :: 0 <= j < |fields| ==> fields[j] != MetadataField(n, v)
    ensures AddedMetadata(fields, PyDict([(PyStr("field_name"), PyStr(n)), (PyStr("field_value"), PyStr(v))]))
            == Success(fields + [MetadataField(n, v)])
    ensures RemovedMetadata(fields + [MetadataField(n, v)], PyDict([(PyStr(n), PyStr(v))])) == Success(fields)
  {
    var add := [(PyStr("field_name"), PyStr(n)), (PyStr("field_value"), PyStr(v))];
    assert DictGet(add, PyStr("field_value")) == PyStr(v) by {
      assert add[0].0 != PyStr("field_value");
      assert add[1..][0].0 == PyStr("field_value");
    }
    AppendedIsFirstMatch(fields, MetadataField(n, v));
    var all := fields + [MetadataField(n, v)];
    assert all[..|fields|] + all[|fields| + 1..] == fields;
  }

  /** `remove_metadata` takes away exactly one copy of the entry the query names and nothing else. */
  lemma RemovedMetadataDropsOne(fields: seq<MetadataField>, arg: PyValue)
    requires arg.PyDict? && RemovedMetadata(fields, arg).Success?
    ensures arg.items != []
    ensures var q := QueryOf(arg.items);
            q.0.PyStr? && q.1.PyStr?
            && multiset(RemovedMetadata(fields, arg).value) + multiset{MetadataField(q.0.s, q.1.s)} == multiset(fields)
  {
    var q := QueryOf(arg.items);
    var i := FirstMatch(fields, q.0, q.1).value;
    assert fields[i] == MetadataField(q.0.s, q.1.s);
  }

  /** Changing the first `{n: v}` entry to `w` and then the first `{n: w}` entry back to `v` restores the
      list, when no entry before it already read `{n: w}`. */
  lemma ModifyTwiceRestores(fields: seq<MetadataField>, n: string, v: string, w: string)
    requires FirstMatch(fields, PyStr(n), PyStr(v)).Some?
    requires forall j :: 0 <= j < FirstMatch(fields, PyStr(n), PyStr(v)).value ==> fields[j] != MetadataField(n, w)
    ensures ModifiedMetadata(fields, PyDict([(PyStr(n), PyStr(v))]), PyStr(w)).Success?
    ensures var once := ModifiedMetadata(fields, PyDict([(PyStr(n), PyStr(v))]), PyStr(w)).value;
            ModifiedMetadata(once, PyDict([(PyStr(n), PyStr(w))]), PyStr(v)) == Success(fields)
  {
    var i := FirstMatch(fields, PyStr(n), PyStr(v)).value;
    var once := ReplacedAt(fields, i, w);
    assert Matches(once[i], PyStr(n), PyStr(w));
    assert forall j :: 0 <= j < i ==> once[j] == fields[j];
    assert FirstMatch(once, PyStr(n), PyStr(w)) == Some(i);
    assert ReplacedAt(once, i, v) == fields;
  }

  /** `IIIFMetadataBoxFromMarc`: title (the `label` property), description, identifier and the field list. */
  class MetadataBox {
    var title: string
    var description: string
    var identifier: string
    var fields: seq<MetadataField>

    /** `__init__`: the four attributes as given. */
    constructor (title: string, description: string, identifier: string, fields: seq<MetadataField>)
      ensures this.title == title && this.description == description
      ensures this.identifier == identifier && this.fields == fields
    {
      this.title := title;
      this.description := description;
      this.identifier := identifier;
      this.fields := fields;
    }

    /** The box as a value. */
    function State(): Extracted
      reads this
    {
      Extracted(title, description, identifier, fields)
    }

    /** One turn of the `from_dict` loop: a title key takes the `a` value of its field's subfields (and
        reports that there is none, where indexing the empty comprehension raises), a description key the
        combined subfields, and any other labelled key appends an entry to the metadata list. */
    static method VisitKey(record: seq<DataField>, lk: Lookups, key: string, title: string, description: string,
                           metadata: seq<MetadataField>)
      returns (missesA: bool, newTitle: string, newDescription: string, newMetadata: seq<MetadataField>)
      requires HasTag(record, key)
      ensures missesA <==> BranchOf(lk, key) == TitleBranch && FirstA(FirstSubfields(record, key)).None?
      ensures !missesA ==>
                newTitle == if BranchOf(lk, key) == TitleBranch then FirstA(FirstSubfields(record, key)).value else title
      ensures newDescription == if BranchOf(lk, key) == DescriptionBranch then Combine(FirstSubfields(record, key))
                                else description
      ensures newMetadata == metadata + if BranchOf(lk, key) == MetadataBranch then [MetadataEntry(record, lk, key)] else []
    {
      missesA, newTitle, newDescription, newMetadata := false, title, description, metadata;
      if key in lk.titleTags {
        var a := FirstA(FirstSubfields(record, key));
        if a.None? {
          missesA := true;
        } else {
          newTitle := a.value;
        }
      } else if key in lk.descriptionTags {
        newDescription := CombineSubfields(FirstSubfields(record, key));
      } else if key in lk.labels {
        var value := CombineSubfields(FirstSubfields(record, key));
        newMetadata := metadata + [MetadataField(lk.labels[key], value)];
      }
    }

    /** `from_dict`: builds the box from the record's `"fields"`, or raises IndexError as `Extract` says. */
    static method FromDict(record: seq<DataField>, lk: Lookups) returns (r: Result<MetadataBox, Error>)
      ensures r.Failure? <==> Extract(record, lk).Failure?
      ensures r.Failure? ==> r.error == IndexError
      ensures r.Success? ==> fresh(r.value) && r.value.State() == Extract(record, lk).value
    {
      var keys := TagsIn(record, lk.titleTags) + TagsIn(record, lk.descriptionTags) + TagsIn(record, lk.labels.Keys);
      assert keys == LoopKeys(record, lk);
      var title := DefaultTitle;
      var description := DefaultDescription;
      var metadata: seq<MetadataField> := [];
      for i := 0 to |keys|
        invariant KeysPresent(record, keys[..i])
        invariant !TitleMissesA(record, lk, keys[..i])
        invariant title == ResolvedTitle(record, lk, keys[..i])
        invariant description == ResolvedDescription(record, lk, keys[..i])
        invariant metadata == MetadataEntries(record, lk, keys[..i])
      {
        assert keys[i] in keys;
        LoopStep(record, lk, keys, i);
        var missesA;
        missesA, title, description, metadata := VisitKey(record, lk, keys[i], title, description, metadata);
        if missesA {
          assert Extract(record, lk).Failure? by {
            PrefixMissesA(record, lk, keys, i + 1);
          }
          return Failure(IndexError);
        }
      }
      var identifier := "";
      if metadata != [] {
        match FirstLabelled(metadata, LocationLabel)
        case Some(j) => identifier := metadata[j].value;
        case None =>
      }
      assert Extract(record, lk) == Success(Extracted(title, description, identifier, metadata)) by {
        assert keys[..|keys|] == keys;
      }
      var box := new MetadataBox(title, description, identifier, metadata);
      return Success(box);
    }

    /** `add_field`: a field is appended at the end; anything else raises ValueError and the list stays as it was. */
    method AddField(arg: PyValue) returns (r: Outcome<Error>)
      modifies this`fields
      ensures arg.PyField? ==> r == Pass && fields == old(fields) + [arg.field]
      ensures !arg.PyField? ==> r == Fail(ValueError) && fields == old(fields)
    {
      if arg.PyField? {
        fields := fields + [arg.field];
        r := Pass;
      } else {
        r := Fail(ValueError);
      }
    }

    /** `_find_field`: empty, or the first field whose label and value equal the query. */
    function FindField(name: PyValue, value: PyValue): (r: seq<MetadataField>)
      reads this
      ensures |r| <= 1
      ensures r == [] <==> forall j :: 0 <= j < |fields| ==> !Matches(fields[j], name, value)
      ensures r != [] ==> r[0] == fields[FirstMatch(fields, name, value).value]
    {
      match FirstMatch(fields, name, value)
      case None => []
      case Some(i) => [fields[i]]
    }

    /** `_replace_field_value`: sets the value of the first field equal to `target`; ValueError if there
        is none (`list.index`) or if the new value is not a string (the field's `value` setter). */
    method ReplaceFieldValue(target: MetadataField, newValue: PyValue) returns (r: Outcome<Error>)
      modifies this`fields
      ensures IndexOf(old(fields), target).None? || !newValue.PyStr? ==> r == Fail(ValueError) && fields == old(fields)
      ensures IndexOf(old(fields), target).Some? && newValue.PyStr? ==>
                r == Pass && fields == ReplacedAt(old(fields), IndexOf(old(fields), target).value, newValue.s)
    {
      match IndexOf(fields, target)
      case None => r := Fail(ValueError);
      case Some(i) =>
        match SetValue(fields[i], newValue)
        case Failure(e) => r := Fail(e);
        case Success(f) =>
          fields := fields[i := f];
          r := Pass;
    }

    /** `_remove_metadata_field`: deletes the first field equal to `target`; ValueError if there is none. */
    method RemoveMetadataField(target: MetadataField) returns (r: Outcome<Error>)
      modifies this`fields
      ensures IndexOf(old(fields), target).None? ==> r == Fail(ValueError) && fields == old(fields)
      ensures IndexOf(old(fields), target).Some? ==>
                r == Pass && fields == RemovedAt(old(fields), IndexOf(old(fields), target).value)
    {
      match IndexOf(fields, target)
      case None => r := Fail(ValueError);
      case Some(position) =>
        fields := fields[..position] + fields[position + 1..];
        r := Pass;
    }

    /** `get_fields` (and the box's `to_dict`): the label/value dicts of the fields, in order. */
    function GetFields(): (r: seq<map<string, string>>)
      reads this
      ensures |r| == |fields| && forall i :: 0 <= i < |r| ==> r[i] == LabelValue(fields[i])
      ensures FieldsOf(r) == Some(fields)
    {
      FieldMapsRoundTrip(fields);
      FieldMaps(fields)
    }

    /** `set_fields`: the list is replaced only when every element is a field; otherwise ValueError
        and the old list stays. */
    method SetFields(values: seq<PyValue>) returns (r: Outcome<Error>)
      modifies this`fields
      ensures r.Pass? <==> forall i :: 0 <= i < |values| ==> values[i].PyField?
      ensures r.Pass? ==> |fields| == |values| && forall i :: 0 <= i < |values| ==> PyField(fields[i]) == values[i]
      ensures r.Fail? ==> r.error == ValueError && fields == old(fields)
    {
      for i := 0 to |values|
        invariant forall j :: 0 <= j < i ==> values[j].PyField?
      {
        if !values[i].PyField? {
          return Fail(ValueError);
        }
      }
      fields := seq(|values|, j requires 0 <= j < |values| => values[j].field);
      return Pass;
    }

    /** The `label` setter: a string replaces the title, anything else raises ValueError. */
    method SetTitle(v: PyValue) returns (r: Outcome<Error>)
      modifies this`title
      ensures v.PyStr? ==> r == Pass && title == v.s
      ensures !v.PyStr? ==> r == Fail(ValueError) && title == old(title)
    {
      if v.PyStr? {
        title := v.s;
        r := Pass;
      } else {
        r := Fail(ValueError);
      }
    }

    /** The `description` setter: a string replaces the description, anything else is silently ignored. */
    method SetDescription(v: PyValue)
      modifies this`description
      ensures description == if v.PyStr? then v.s else old(description)
    {
      if v.PyStr? {
        description := v.s;
      }
    }

    /** The `identifier` setter, which checks nothing. */
    method SetIdentifier(v: string)
      modifies this`identifier
      ensures identifier == v
    {
      identifier := v;
    }
  }

  /** `IIIFDataExtractionFromMarc`: the façade that holds a box and edits it. */
  class DataExtraction {
    var metadata: MetadataBox

    /** `__init__`: wraps the given box. */
    constructor (metadata: MetadataBox)
      ensures this.metadata == metadata
    {
      this.metadata := metadata;
    }

    /** `from_dict`: a non-dict raises ValueError; a dict without `"fields"` makes the box's `from_dict`
        iterate over None (TypeError); otherwise the box is extracted as `Extract` says. */
    static method FromDict(arg: RecordArg, lk: Lookups) returns (r: Result<DataExtraction, Error>)
      ensures arg.NotADict? ==> r == Failure(ValueError)
      ensures arg.DictWithoutFields? ==> r == Failure(TypeError)
      ensures arg.RecordDict? ==> (r.Failure? <==> Extract(arg.fields, lk).Failure?)
      ensures arg.RecordDict? && r.Failure? ==> r.error == IndexError
      ensures r.Success? ==> arg.RecordDict? && fresh(r.value) && fresh(r.value.metadata)
                             && r.value.metadata.State() == Extract(arg.fields, lk).value
    {
      match arg
      case NotADict => r := Failure(ValueError);
      case DictWithoutFields => r := Failure(TypeError);
      case RecordDict(record) =>
        var box := MetadataBox.FromDict(record, lk);
        match box
        case Failure(e) => r := Failure(e);
        case Success(b) =>
          var extraction := new DataExtraction(b);
          r := Success(extraction);
    }

    /** `add_metadata`: the field list becomes what `AddedMetadata` says, or stays on an error. */
    method AddMetadata(arg: PyValue) returns (r: Outcome<Error>)
      modifies metadata`fields
      ensures AddedMetadata(old(metadata.fields), arg).Failure? ==>
                r == Fail(AddedMetadata(old(metadata.fields), arg).error) && metadata.fields == old(metadata.fields)
      ensures AddedMetadata(old(metadata.fields), arg).Success? ==>
                r == Pass && metadata.fields == AddedMetadata(old(metadata.fields), arg).value
    {
      if !arg.PyDict? {
        return Fail(TypeError);
      }
      var name := DictGet(arg.items, PyStr("field_name"));
      var value := DictGet(arg.items, PyStr("field_value"));
      if !name.Truthy() || !value.Truthy() {
        return Fail(ValueError);
      }
      match NewMetadataField(name, value)
      case Failure(e) => r := Fail(e);
      case Success(f) => r := metadata.AddField(PyField(f));
    }

    /** `change_title`: stores exactly the given string; a non-string raises ValueError. */
    method ChangeTitle(v: PyValue) returns (r: Outcome<Error>)
      modifies metadata`title
      ensures v.PyStr? ==> r == Pass && metadata.title == v.s
      ensures !v.PyStr? ==> r == Fail(ValueError) && metadata.title == old(metadata.title)
    {
      r := metadata.SetTitle(v);
    }

    /** `change_description`: stores exactly the given string; a non-string is ignored. */
    method ChangeDescription(v: PyValue)
      modifies metadata`description
      ensures metadata.description == if v.PyStr? then v.s else old(metadata.description)
    {
      metadata.SetDescription(v);
    }

    /** `remove_metadata`: the field list becomes what `RemovedMetadata` says, or stays on an error. */
    method RemoveMetadata(arg: PyValue) returns (r: Outcome<Error>)
      modifies metadata`fields
      ensures RemovedMetadata(old(metadata.fields), arg).Failure? ==>
                r == Fail(RemovedMetadata(old(metadata.fields), arg).error) && metadata.fields == old(metadata.fields)
      ensures RemovedMetadata(old(metadata.fields), arg).Success? ==>
                r == Pass && metadata.fields == RemovedMetadata(old(metadata.fields), arg).value
    {
      if !arg.PyDict? {
        return Pass;
      }
      if arg.items == [] {
        return Fail(IndexError);
      }
      var name := arg.items[0].0;
      var value := DictGet(arg.items, name);
      var result := metadata.FindField(name, value);
      if result != [] && |result| == 1 {
        FoundFieldIsIndexed(metadata.fields, name, value);
        r := metadata.RemoveMetadataField(result[0]);
      } else {
        r := Fail(ValueError);
      }
    }

    /** `modify_metadata`: the field list becomes what `ModifiedMetadata` says, or stays on an error. */
    method ModifyMetadata(arg: PyValue, newValue: PyValue) returns (r: Outcome<Error>)
      modifies metadata`fields
      ensures ModifiedMetadata(old(metadata.fields), arg, newValue).Failure? ==>
                r == Fail(ModifiedMetadata(old(metadata.fields), arg, newValue).error) && metadata.fields == old(metadata.fields)
      ensures ModifiedMetadata(old(metadata.fields), arg, newValue).Success? ==>
                r == Pass && metadata.fields == ModifiedMetadata(old(metadata.fields), arg, newValue).value
    {
      if !(arg.PyDict? && newValue.PyStr?) {
        return Fail(TypeError);
      }
      if arg.items == [] {
        return Fail(IndexError);
      }
      var name := arg.items[0].0;
      var value := DictGet(arg.items, name);
      var result := metadata.FindField(name, value);
      if result != [] && |result| == 1 {
        FoundFieldIsIndexed(metadata.fields, name, value);
        r := metadata.ReplaceFieldValue(result[0], newValue);
      } else {
        r := Pass;
      }
    }

    /** `to_dict`: the manifest of the held box. */
    function ToDict(): (r: Manifest)
      reads this, metadata
      ensures r.context == ManifestContext && r.kind == ManifestType
      ensures r.id == ManifestIdBase + metadata.identifier
      ensures r.title == metadata.title && r.description == metadata.description
      ensures |r.metadata| == |metadata.fields|
      ensures forall i :: 0 <= i < |r.metadata| ==> r.metadata[i] == LabelValue(metadata.fields[i])
      ensures StateOf(r) == Some(metadata.State())
    {
      ManifestRoundTrip(metadata.State());
      ManifestOf(metadata.State())
    }
  }
}
