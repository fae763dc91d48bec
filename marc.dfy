/** The decoded MARC record that the extraction consumes, the IIIF metadata field it produces,
    and the dynamically typed arguments whose `isinstance` checks the library performs. */
module Marc {
  import opened Wrappers

  /** The exceptions the library raises. */
  datatype Error = ValueError | TypeError | IndexError | AttributeError

  /** One subfield of a data field: the one-key dict `{code: text}`. */
  datatype Subfield = Subfield(code: string, text: string)

  /** One entry of `record["fields"]`: the one-key dict `{tag: {"ind1", "ind2", "subfields"}}`. */
  datatype DataField = DataField(tag: string, ind1: string, ind2: string, subfields: seq<Subfield>)

  /** The argument of an entry point that takes a decoded record: the record dict (only its
      `"fields"` list is read), a dict without a `"fields"` key (whose `get` yields None), or a
      value that is not a dict at all. */
  datatype RecordArg = RecordDict(fields: seq<DataField>) | DictWithoutFields | NotADict

  /** The texts of the subfields, in order: the value under the first key of each subfield dict. */
  function Texts(subfields: seq<Subfield>): (r: seq<string>)
    ensures |r| == |subfields|
    ensures forall i :: 0 <= i < |r| ==> r[i] == subfields[i].text
  {
    seq(|subfields|, i requires 0 <= i < |subfields| => subfields[i].text)
  }

  /** `IIIFMetadataField`: a label (`name` here, since `label` is a Dafny keyword) and a value. */
  datatype MetadataField = MetadataField(name: string, value: string)

  /** A Python value, as far as the library's `isinstance` and truthiness tests look at it. */
  datatype PyValue =
    | PyNone
    | PyInt(i: int)
    | PyStr(s: string)
    | PyField(field: MetadataField)
    | PyDict(items: seq<(PyValue, PyValue)>)
  {
    /** Python truthiness, as `if x:` and `not x` test it. */
    predicate Truthy() {
      match this
      case PyNone => false
      case PyInt(i) => i != 0
      case PyStr(s) => s != ""
      case PyField(_) => true
      case PyDict(items) => items != []
    }
  }

  /** `d.get(key)` on a dict with the given items: the value stored under the key, or None. */
  function DictGet(items: seq<(PyValue, PyValue)>, key: PyValue): (r: PyValue)
    ensures r == PyNone || exists i :: 0 <= i < |items| && items[i] == (key, r)
    ensures (forall i :: 0 <= i < |items| ==> items[i].0 != key) ==> r == PyNone
  {
    if items == [] then PyNone
    else if items[0].0 == key then items[0].1
    else
      var r := DictGet(items[1..], key);
      assert r != PyNone ==> exists i :: 0 <= i < |items| - 1 && items[1..][i] == (key, r);
      r
  }

  /** The `label` setter of `IIIFMetadataField`: only a string is accepted, anything else raises ValueError. */
  function SetName(f: MetadataField, name: PyValue): (r: Result<MetadataField, Error>)
    ensures r.Success? <==> name.PyStr?
    ensures r.Success? ==> r.value.name == name.s && r.value.value == f.value
    ensures r.Failure? ==> r.error == ValueError
  {
    match name
    case PyStr(s) => Success(f.(name := s))
    case _ => Failure(ValueError)
  }

  /** The `value` setter of `IIIFMetadataField`: only a string is accepted, anything else raises ValueError. */
  function SetValue(f: MetadataField, value: PyValue): (r: Result<MetadataField, Error>)
    ensures r.Success? <==> value.PyStr?
    ensures r.Success? ==> r.value.value == value.s && r.value.name == f.name
    ensures r.Failure? ==> r.error == ValueError
  {
    match value
    case PyStr(s) => Success(f.(value := s))
    case _ => Failure(ValueError)
  }

  /** `IIIFMetadataField(name, value)`: the constructor goes through both setters, label first,
      so it builds a field exactly when both arguments are strings and raises ValueError otherwise. */
  function NewMetadataField(name: PyValue, value: PyValue): (r: Result<MetadataField, Error>)
    ensures r.Success? <==> name.PyStr? && value.PyStr?
    ensures r.Success? ==> r.value == MetadataField(name.s, value.s)
    ensures r.Failure? ==> r.error == ValueError
  {
    match SetName(MetadataField("", ""), name)
    case Failure(e) => Failure(e)
    case Success(f) => SetValue(f, value)
  }
}
