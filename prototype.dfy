/** The prototype extraction kept in `marc2iiif/__init__.py`: the static `LABEL_LOOKUP` table, the
    prototype façade's `set_label` and `set_description`, and the prototype box's `from_dict`. */
module Prototype {
  import opened Wrappers
  import opened PyStrings
  import opened Marc
  import Extraction
  import opened Labels

  /** The subfields of every "245" field, in document order: the chained list `set_label` searches. */
  function TitleSubfields(fields: seq<DataField>): (r: seq<Subfield>)
    ensures (forall i :: 0 <= i < |fields| ==> fields[i].tag != "245") ==> r == []
    ensures forall s :: s in r ==> exists i :: 0 <= i < |fields| && fields[i].tag == "245" && s in fields[i].subfields
  {
    if fields == [] then []
    else
      var rest := TitleSubfields(fields[1..]);
      assert forall s :: s in rest ==> exists i :: 1 <= i < |fields| && fields[i].tag == "245" && s in fields[i].subfields;
      (if fields[0].tag == "245" then fields[0].subfields else []) + rest
  }

  /** A subfield `set_label` accepts as the main title: its `a` value is truthy. */
  predicate IsMainTitle(s: Subfield) {
    s.code == "a" && s.text != ""
  }

  /** The position of the first main-title subfield. */
  function FirstMainTitle(subfields: seq<Subfield>): (r: Option<nat>)
    ensures r.Some? ==> r.value < |subfields| && IsMainTitle(subfields[r.value])
    ensures r.Some? ==> forall j :: 0 <= j < r.value ==> !IsMainTitle(subfields[j])
    ensures r.None? <==> forall j :: 0 <= j < |subfields| ==> !IsMainTitle(subfields[j])
  {
    if subfields == [] then None
    else if IsMainTitle(subfields[0]) then Some(0)
    else match FirstMainTitle(subfields[1..])
      case None => None
      case Some(i) => Some(i + 1)
  }

  /** `set_label` on its argument: a non-dict raises ValueError, a dict without `"fields"` TypeError; otherwise
      the title is the first truthy `a` value among the subfields of the 245 fields, and ValueError if there is none. */
  function PrototypeTitle(arg: RecordArg): (r: Result<string, Error>)
    ensures arg.NotADict? ==> r == Failure(ValueError)
    ensures arg.DictWithoutFields? ==> r == Failure(TypeError)
    ensures arg.RecordDict? ==> (r.Failure? <==> forall s :: s in TitleSubfields(arg.fields) ==> !IsMainTitle(s))
    ensures arg.RecordDict? && r.Failure? ==> r.error == ValueError
    ensures r.Success? ==> r.value != "" && Subfield("a", r.value) in TitleSubfields(arg.fields)
  {
    match arg
    case NotADict => Failure(ValueError)
    case DictWithoutFields => Failure(TypeError)
    case RecordDict(fields) =>
      var subfields := TitleSubfields(fields);
      match FirstMainTitle(subfields)
      case None => Failure(ValueError)
      case Some(i) => Success(subfields[i].text)
  }

  /** The searched subfields of two runs of fields are those of the first run followed by those of the second. */
  lemma {:induction false} TitleSubfieldsAppend(a: seq<DataField>, b: seq<DataField>)
    ensures TitleSubfields(a + b) == TitleSubfields(a) + TitleSubfields(b)
  {
    if a != [] {
      assert (a + b)[0] == a[0] && (a + b)[1..] == a[1..] + b;
      TitleSubfieldsAppend(a[1..], b);
      var head := if a[0].tag == "245" then a[0].subfields else [];
      assert TitleSubfields(a + b) == head + (TitleSubfields(a[1..]) + TitleSubfields(b));
    } else {
      assert a + b == b;
    }
  }

  /** The first main title of a concatenation is the first one of its first part, if that part has one. */
  lemma {:induction false} FirstMainTitleAppend(x: seq<Subfield>, y: seq<Subfield>)
    ensures FirstMainTitle(x).Some? ==> FirstMainTitle(x + y) == FirstMainTitle(x)
    ensures FirstMainTitle(x).None? && FirstMainTitle(y).Some? ==> FirstMainTitle(x + y) == Some(|x| + FirstMainTitle(y).value)
    ensures FirstMainTitle(x).None? && FirstMainTitle(y).None? ==> FirstMainTitle(x + y).None?
  {
    if x == [] {
      assert x + y == y;
    } else {
      assert (x + y)[0] == x[0] && (x + y)[1..] == x[1..] + y;
      if !IsMainTitle(x[0]) {
        FirstMainTitleAppend(x[1..], y);
      }
    }
  }

  /** Document order: once the fields read so far hold a title, later fields do not change it. */
  lemma EarlierTitleWins(a: seq<DataField>, b: seq<DataField>)
    requires PrototypeTitle(RecordDict(a)).Success?
    ensures PrototypeTitle(RecordDict(a + b)) == PrototypeTitle(RecordDict(a))
  {
    TitleSubfieldsAppend(a, b);
    FirstMainTitleAppend(TitleSubfields(a), TitleSubfields(b));
  }

  /** Fields without a main title in front of the rest do not change which title is found. */
  lemma LeadingFieldsWithoutTitleIgnored(a: seq<DataField>, b: seq<DataField>)
    requires PrototypeTitle(RecordDict(a)).Failure?
    ensures PrototypeTitle(RecordDict(a + b)) == PrototypeTitle(RecordDict(b))
  {
    var ta, tb := TitleSubfields(a), TitleSubfields(b);
    assert FirstMainTitle(ta).None?;
    assert TitleSubfields(a + b) == ta + tb by {
      TitleSubfieldsAppend(a, b);
    }
    FirstMainTitleAppend(ta, tb);
    if FirstMainTitle(tb).Some? {
      var i := FirstMainTitle(tb).value;
      assert (ta + tb)[|ta| + i] == tb[i];
    }
  }

  /** What a loop over the fields builds when each field appends `piece(field)` to the result: the pieces
      concatenated in document order. */
  function Concat<T>(fields: seq<DataField>, piece: DataField -> seq<T>): seq<T>
    decreases |fields|
  {
    if fields == [] then [] else Concat(fields[..|fields| - 1], piece) + piece(fields[|fields| - 1])
  }

  /** A field at the end appends its piece. */
  lemma ConcatSnoc<T>(fields: seq<DataField>, f: DataField, piece: DataField -> seq<T>)
    ensures Concat(fields + [f], piece) == Concat(fields, piece) + piece(f)
  {
    assert (fields + [f])[..|fields|] == fields;
  }

  /** Concatenating over two runs of fields is concatenating over each in turn. */
  lemma {:induction false} ConcatAppend<T>(a: seq<DataField>, b: seq<DataField>, piece: DataField -> seq<T>)
    ensures Concat(a + b, piece) == Concat(a, piece) + Concat(b, piece)
    decreases |b|
  {
    if b == [] {
      assert a + b == a;
    } else {
      var init, last := b[..|b| - 1], b[|b| - 1];
      assert Concat(a + b, piece) == Concat(a + init, piece) + piece(last) by {
        assert a + b == (a + init) + [last];
        ConcatSnoc(a + init, last, piece);
      }
      ConcatAppend(a, init, piece);
    }
  }

  /** What one field adds to the text accumulated for the tags starting with `digit`: a space and the value
      of each of its subfields, or nothing when its tag starts otherwise. */
  function Contribution(field: DataField, digit: string): (r: string)
    ensures !StartsWith(field.tag, digit) || field.subfields == [] ==> r == ""
    ensures StartsWith(field.tag, digit) && field.subfields != [] ==> r == " " + Join(Texts(field.subfields))
  {
    SpacePrefixedIsJoin(Texts(field.subfields));
    if StartsWith(field.tag, digit) then SpacePrefixed(Texts(field.subfields)) else ""
  }

  /** Pieces that are empty or start with a space concatenate to a text that is empty or starts with a space. */
  lemma {:induction false} ConcatLeadingSpace(fields: seq<DataField>, piece: DataField -> string)
    requires forall f :: piece(f) == "" || piece(f)[0] == ' '
    ensures Concat(fields, piece) == "" || Concat(fields, piece)[0] == ' '
    decreases |fields|
  {
    if fields != [] {
      ConcatLeadingSpace(fields[..|fields| - 1], piece);
    }
  }

  /** What the loop of `set_description` accumulates from the fields whose tag starts with `digit`:
      a space and the value, for every subfield of every such field, in document order. */
  function Accumulated(fields: seq<DataField>, digit: string): (r: string)
    ensures r == "" || r[0] == ' '
  {
    ConcatLeadingSpace(fields, field => Contribution(field, digit));
    Concat(fields, field => Contribution(field, digit))
  }

  /** A field at the end adds its contribution. */
  lemma AccumulatedSnoc(fields: seq<DataField>, f: DataField, digit: string)
    ensures Accumulated(fields + [f], digit) == Accumulated(fields, digit) + Contribution(f, digit)
  {
    ConcatSnoc(fields, f, field => Contribution(field, digit));
  }

  /** One more field of the loop adds its contribution. */
  lemma AccumulatedStep(fields: seq<DataField>, i: nat, digit: string)
    requires i < |fields|
    ensures Accumulated(fields[..i + 1], digit) == Accumulated(fields[..i], digit) + Contribution(fields[i], digit)
  {
    assert fields[..i + 1] == fields[..i] + [fields[i]];
    AccumulatedSnoc(fields[..i], fields[i], digit);
  }

  /** Nothing is accumulated from fields none of whose tags starts with `digit`. */
  lemma {:induction false} AccumulatedEmpty(fields: seq<DataField>, digit: string)
    requires forall i :: 0 <= i < |fields| ==> !StartsWith(fields[i].tag, digit)
    ensures Accumulated(fields, digit) == ""
    decreases |fields|
  {
    if fields != [] {
      var init := fields[..|fields| - 1];
      assert forall i :: 0 <= i < |init| ==> init[i] == fields[i];
      AccumulatedEmpty(init, digit);
      AccumulatedStep(fields, |init|, digit);
      assert fields[..|init| + 1] == fields;
    }
  }

  /** `set_description`'s result for a record: the notes (5xx), then a space and the descriptions (3xx) when there
      are any, trimmed; so it never starts or ends with whitespace. */
  function DescriptionOf(fields: seq<DataField>): (r: string)
    ensures r == [] || (!IsSpace(r[0]) && !IsSpace(r[|r| - 1]))
  {
    var notes := Accumulated(fields, "5");
    var descriptions := Accumulated(fields, "3");
    Strip(notes + (if descriptions != "" then " " + descriptions else ""))
  }

  /** The result is `strip(notes + " " + descriptions)` whether or not there are descriptions. */
  lemma DescriptionIsStripOfBoth(fields: seq<DataField>)
    ensures DescriptionOf(fields) == Strip(Accumulated(fields, "5") + " " + Accumulated(fields, "3"))
  {
    var notes := Accumulated(fields, "5");
    var descriptions := Accumulated(fields, "3");
    if descriptions == "" {
      StripIgnoresTrailingSpace(notes);
      assert notes + " " + descriptions == notes + " ";
      assert notes + "" == notes;
    } else {
      assert notes + (" " + descriptions) == notes + " " + descriptions;
    }
  }

  /** A record with neither a 3xx nor a 5xx field gets the empty description. */
  lemma DescriptionEmptyWithoutNotesOrDescriptions(fields: seq<DataField>)
    requires forall i :: 0 <= i < |fields| ==> !StartsWith(fields[i].tag, "3") && !StartsWith(fields[i].tag, "5")
    ensures DescriptionOf(fields) == ""
  {
    AccumulatedEmpty(fields, "3");
    AccumulatedEmpty(fields, "5");
  }

  /** Accumulating over two runs of fields is accumulating over each in turn. */
  lemma AccumulatedAppend(a: seq<DataField>, b: seq<DataField>, digit: string)
    ensures Accumulated(a + b, digit) == Accumulated(a, digit) + Accumulated(b, digit)
  {
    ConcatAppend(a, b, field => Contribution(field, digit));
  }

  /** Two fields accumulate their contributions in order. */
  lemma AccumulatedPair(d: DataField, n: DataField, digit: string)
    ensures Accumulated([d, n], digit) == Contribution(d, digit) + Contribution(n, digit)
  {
    var none: seq<DataField> := [];
    assert Accumulated([d], digit) == Contribution(d, digit) by {
      AccumulatedSnoc(none, d, digit);
      assert none + [d] == [d];
    }
    AccumulatedSnoc([d], n, digit);
    assert [d] + [n] == [d, n];
  }

  /** Two adjacent fields that do not both contribute to the same text can trade places. */
  lemma AccumulatedSwap(before: seq<DataField>, d: DataField, n: DataField, after: seq<DataField>, digit: string)
    requires !StartsWith(d.tag, digit) || !StartsWith(n.tag, digit)
    ensures Accumulated(before + [d, n] + after, digit) == Accumulated(before + [n, d] + after, digit)
  {
    assert Accumulated([d, n], digit) == Accumulated([n, d], digit) by {
      AccumulatedPair(d, n, digit);
      AccumulatedPair(n, d, digit);
      if !StartsWith(d.tag, digit) {
        assert Contribution(d, digit) == "";
      } else {
        assert Contribution(n, digit) == "";
      }
    }
    AccumulatedAppend(before + [d, n], after, digit);
    AccumulatedAppend(before + [n, d], after, digit);
    AccumulatedAppend(before, [d, n], digit);
    AccumulatedAppend(before, [n, d], digit);
  }

  /** Notes always come before descriptions: a 3xx field followed by a 5xx field gives the same description
      as the two in the other order. */
  lemma NotesPrecedeDescriptions(before: seq<DataField>, d: DataField, n: DataField, after: seq<DataField>)
    requires StartsWith(d.tag, "3") && StartsWith(n.tag, "5")
    ensures DescriptionOf(before + [d, n] + after) == DescriptionOf(before + [n, d] + after)
  {
    assert !StartsWith(d.tag, "5") && !StartsWith(n.tag, "3");
    AccumulatedSwap(before, d, n, after, "3");
    AccumulatedSwap(before, d, n, after, "5");
  }

  /** A field `from_dict` makes entries for: not a control field ("00"), with a truthy label. */
  predicate Recognised(field: DataField, lookup: string -> Option<string>) {
    !StartsWith(field.tag, "00") && lookup(field.tag).Some? && lookup(field.tag).value != ""
  }

  /** The entries appended for the subfield values `texts` under the label `name`: one per value, holding the running
      concatenation of a space and each value so far. */
  function RunningEntries(name: string, texts: seq<string>): (r: seq<MetadataField>)
    ensures |r| == |texts|
    decreases |texts|
  {
    if texts == [] then []
    else RunningEntries(name, texts[..|texts| - 1]) + [MetadataField(name, SpacePrefixed(texts))]
  }

  /** One more value appends the entry holding the running text so far. */
  lemma RunningEntriesStep(name: string, texts: seq<string>, j: nat)
    requires j < |texts|
    ensures RunningEntries(name, texts[..j + 1]) == RunningEntries(name, texts[..j]) + [MetadataField(name, SpacePrefixed(texts[..j + 1]))]
  {
    assert texts[..j + 1][..j] == texts[..j];
  }

  /** Entry `i` holds a space and each of the first `i + 1` values. */
  lemma {:induction false} RunningEntriesValues(name: string, texts: seq<string>)
    ensures forall i :: 0 <= i < |texts| ==> RunningEntries(name, texts)[i] == MetadataField(name, SpacePrefixed(texts[..i + 1]))
    decreases |texts|
  {
    if texts != [] {
      var init := texts[..|texts| - 1];
      RunningEntriesValues(name, init);
      forall i | 0 <= i < |texts|
        ensures RunningEntries(name, texts)[i] == MetadataField(name, SpacePrefixed(texts[..i + 1]))
      {
        if i < |init| {
          assert init[..i + 1] == texts[..i + 1];
        } else {
          assert texts[..i + 1] == texts;
        }
      }
    }
  }

  /** Each running entry extends the previous one by a space and the next value, so each is a prefix of the next. */
  lemma RunningEntriesGrow(name: string, texts: seq<string>)
    ensures forall i :: 0 <= i < |texts| - 1 ==>
              RunningEntries(name, texts)[i + 1].value == RunningEntries(name, texts)[i].value + " " + texts[i + 1]
    ensures forall i :: 0 <= i < |texts| - 1 ==>
              StartsWith(RunningEntries(name, texts)[i + 1].value, RunningEntries(name, texts)[i].value)
  {
    RunningEntriesValues(name, texts);
    forall i | 0 <= i < |texts| - 1
      ensures RunningEntries(name, texts)[i + 1].value == RunningEntries(name, texts)[i].value + " " + texts[i + 1]
    {
      assert texts[..i + 2][..i + 1] == texts[..i + 1];
    }
  }

  /** The entries `from_dict` appends for one field. */
  /** A control field or a tag without a truthy label adds no entry; any other field adds one per subfield,
      all under the tag's label, the last holding every value. */
  function EntriesOf(field: DataField, lookup: string -> Option<string>): (r: seq<MetadataField>)
    ensures !Recognised(field, lookup) ==> r == []
    ensures Recognised(field, lookup) ==> |r| == |field.subfields|
    ensures Recognised(field, lookup) ==> forall i :: 0 <= i < |r| ==> r[i].name == lookup(field.tag).value
    ensures Recognised(field, lookup) && r != [] ==> r[|r| - 1].value == " " + Join(Texts(field.subfields))
  {
    if Recognised(field, lookup) then
      var texts := Texts(field.subfields);
      RunningEntriesValues(lookup(field.tag).value, texts);
      SpacePrefixedIsJoin(texts);
      assert texts != [] ==> texts[..|texts|] == texts;
      RunningEntries(lookup(field.tag).value, texts)
    else []
  }

  /** The entries of all fields, in document order. */
  function PrototypeEntries(fields: seq<DataField>, lookup: string -> Option<string>): (r: seq<MetadataField>)
    ensures forall m :: m in r ==>
              exists i :: 0 <= i < |fields| && Recognised(fields[i], lookup) && m.name == lookup(fields[i].tag).value
  {
    ConcatMembers(fields, field => EntriesOf(field, lookup));
    Concat(fields, field => EntriesOf(field, lookup))
  }

  /** Every element of the concatenation comes from the piece of some field. */
  lemma {:induction false} ConcatMembers<T>(fields: seq<DataField>, piece: DataField -> seq<T>)
    ensures forall x :: x in Concat(fields, piece) ==> exists i :: 0 <= i < |fields| && x in piece(fields[i])
    decreases |fields|
  {
    if fields != [] {
      var init := fields[..|fields| - 1];
      ConcatMembers(init, piece);
      forall x | x in Concat(fields, piece) ensures exists i :: 0 <= i < |fields| && x in piece(fields[i]) {
        if x in Concat(init, piece) {
          var i :| 0 <= i < |init| && x in piece(init[i]);
          assert fields[i] == init[i];
        } else {
          assert x in piece(fields[|fields| - 1]);
        }
      }
    }
  }

  /** A field at the end appends its entries. */
  lemma PrototypeEntriesSnoc(fields: seq<DataField>, f: DataField, lookup: string -> Option<string>)
    ensures PrototypeEntries(fields + [f], lookup) == PrototypeEntries(fields, lookup) + EntriesOf(f, lookup)
  {
    ConcatSnoc(fields, f, field => EntriesOf(field, lookup));
  }

  /** One more field of the loop appends its entries. */
  lemma PrototypeEntriesStep(fields: seq<DataField>, i: nat, lookup: string -> Option<string>)
    requires i < |fields|
    ensures PrototypeEntries(fields[..i + 1], lookup) == PrototypeEntries(fields[..i], lookup) + EntriesOf(fields[i], lookup)
  {
    assert fields[..i + 1] == fields[..i] + [fields[i]];
    PrototypeEntriesSnoc(fields[..i], fields[i], lookup);
  }

  /** A field whose label names the electronic location makes `from_dict` call its nested identifier helper,
      which is declared with a `self` parameter and called with one argument, so the call raises TypeError. */
  function CallsLocationHelper(field: DataField, lookup: string -> Option<string>): (r: bool)
    ensures r ==> Recognised(field, lookup)
    ensures !StartsWith(field.tag, "00") && lookup(field.tag) == Some(Extraction.LocationLabel) ==> r
  {
    assert OccursAt(Extraction.LocationLabel, Extraction.LocationLabel, 0);
    Recognised(field, lookup) && Contains(lookup(field.tag).value, Extraction.LocationLabel)
  }

  /** The prototype `from_dict` as written: a non-dict has no `get` (AttributeError), a dict without `"fields"`
      cannot be iterated (TypeError), a field labelled with the electronic location raises TypeError, and
      otherwise the result holds the entries of every field. */
  function PrototypeFields(arg: RecordArg, lookup: string -> Option<string>): (r: Result<seq<MetadataField>, Error>)
    ensures arg.NotADict? ==> r == Failure(AttributeError)
    ensures arg.DictWithoutFields? ==> r == Failure(TypeError)
    ensures arg.RecordDict? ==>
              (r.Failure? <==> exists i :: 0 <= i < |arg.fields| && CallsLocationHelper(arg.fields[i], lookup))
    ensures arg.RecordDict? && r.Failure? ==> r.error == TypeError
  {
    match arg
    case NotADict => Failure(AttributeError)
    case DictWithoutFields => Failure(TypeError)
    case RecordDict(fields) =>
      if exists i :: 0 <= i < |fields| && CallsLocationHelper(fields[i], lookup) then Failure(TypeError)
      else Success(PrototypeEntries(fields, lookup))
  }

  /** The prototype `from_dict` as evidently intended: the identifier is only printed, and the entries
      of every field are returned. */
  function IntendedPrototypeFields(arg: RecordArg, lookup: string -> Option<string>): (r: Result<seq<MetadataField>, Error>)
    ensures arg.NotADict? ==> r == Failure(AttributeError)
    ensures arg.DictWithoutFields? ==> r == Failure(TypeError)
    ensures arg.RecordDict? ==> r.Success?
    ensures arg.RecordDict? && !(exists i :: 0 <= i < |arg.fields| && CallsLocationHelper(arg.fields[i], lookup)) ==>
              r == PrototypeFields(arg, lookup)
  {
    match arg
    case NotADict => Failure(AttributeError)
    case DictWithoutFields => Failure(TypeError)
    case RecordDict(fields) => Success(PrototypeEntries(fields, lookup))
  }

  /** Entries of two runs of fields are those of the first run followed by those of the second. */
  lemma PrototypeEntriesAppend(a: seq<DataField>, b: seq<DataField>, lookup: string -> Option<string>)
    ensures PrototypeEntries(a + b, lookup) == PrototypeEntries(a, lookup) + PrototypeEntries(b, lookup)
  {
    ConcatAppend(a, b, field => EntriesOf(field, lookup));
  }

  /** A control field, or a field whose tag has no label, contributes no entries wherever it stands. */
  lemma UnrecognisedFieldIgnored(before: seq<DataField>, f: DataField, after: seq<DataField>, lookup: string -> Option<string>)
    requires !Recognised(f, lookup)
    ensures PrototypeEntries(before + [f] + after, lookup) == PrototypeEntries(before + after, lookup)
  {
    PrototypeEntriesAppend(before + [f], after, lookup);
    PrototypeEntriesAppend(before, after, lookup);
    PrototypeEntriesSnoc(before, f, lookup);
  }

  /** As written, any record with an 856 field fails with TypeError. */
  lemma LocationRecordFails(fields: seq<DataField>, i: nat)
    requires i < |fields| && fields[i].tag == "856"
    ensures PrototypeFields(RecordDict(fields), LabelLookup) == Failure(TypeError)
  {
    LocationAndLocalSubjectLabels();
    assert "856"[..2] == "85";
    assert OccursAt(Extraction.LocationLabel, Extraction.LocationLabel, 0);
    assert CallsLocationHelper(fields[i], LabelLookup);
  }

  /** As intended, an 856 field with k subfields contributes k entries labelled as the electronic location,
      after the entries of the fields before it. */
  lemma LocationEntriesKept(before: seq<DataField>, f: DataField)
    requires f.tag == "856"
    ensures IntendedPrototypeFields(RecordDict(before + [f]), LabelLookup).Success?
    ensures var r := IntendedPrototypeFields(RecordDict(before + [f]), LabelLookup).value;
            var n := |PrototypeEntries(before, LabelLookup)|;
            |r| == n + |f.subfields|
            && r[..n] == PrototypeEntries(before, LabelLookup)
            && forall i :: n <= i < |r| ==> r[i].name == Extraction.LocationLabel
  {
    LocationAndLocalSubjectLabels();
    assert "856"[..2] == "85";
    assert (before + [f])[..|before|] == before;
  }

  /** The inner loop of `set_description`: appends a space and each value to the text accumulated so far. */
  method AppendSpaced(acc: string, texts: seq<string>) returns (r: string)
    ensures r == acc + SpacePrefixed(texts)
  {
    r := acc;
    for j := 0 to |texts|
      invariant r == acc + SpacePrefixed(texts[..j])
    {
      SpacePrefixedStep(texts, j);
      r := r + " " + texts[j];
    }
    assert texts[..|texts|] == texts;
  }

  /** The inner loop of the prototype `from_dict`: extends the running text by a space and each value and, when
      the label is truthy, appends an entry holding the running text after each value. */
  method AppendRunning(entries: seq<MetadataField>, found: Option<string>, texts: seq<string>)
    returns (r: seq<MetadataField>, fullValue: string)
    ensures fullValue == SpacePrefixed(texts)
    ensures r == entries + if found.Some? && found.value != "" then RunningEntries(found.value, texts) else []
  {
    r := entries;
    fullValue := "";
    for j := 0 to |texts|
      invariant fullValue == SpacePrefixed(texts[..j])
      invariant r == entries + if found.Some? && found.value != "" then RunningEntries(found.value, texts[..j]) else []
    {
      SpacePrefixedStep(texts, j);
      fullValue := fullValue + " " + texts[j];
      if found.Some? && found.value != "" {
        RunningEntriesStep(found.value, texts, j);
        r := r + [MetadataField(found.value, fullValue)];
      }
    }
    assert texts[..|texts|] == texts;
  }

  /** One turn of the outer loop of the prototype `from_dict`: skips a control field, and otherwise appends the
      entries of the field and reports whether it then calls the nested identifier helper. */
  method AppendFieldEntries(entries: seq<MetadataField>, thing: DataField, lookup: string -> Option<string>)
    returns (r: seq<MetadataField>, callsHelper: bool)
    ensures r == entries + EntriesOf(thing, lookup)
    ensures callsHelper == CallsLocationHelper(thing, lookup)
  {
    r, callsHelper := entries, false;
    if !StartsWith(thing.tag, "00") {
      var found := lookup(thing.tag);
      var fullValue;
      r, fullValue := AppendRunning(entries, found, Texts(thing.subfields));
      callsHelper := found.Some? && found.value != "" && Contains(found.value, Extraction.LocationLabel);
    }
  }

  /** The prototype façade's state: the properties `set_label`, `set_description` and `set_metadata` assign,
      the last holding the fields of the box `from_dict` builds. */
  class PrototypeExtraction {
    var title: Option<string>
    var description: Option<string>
    var metadata: Option<seq<MetadataField>>

    /** The freshly allocated instance, before `__init__` has set any property. */
    constructor ()
      ensures title.None? && description.None? && metadata.None?
    {
      title := None;
      description := None;
      metadata := None;
    }

    /** `__init__`: a non-dict raises ValueError; otherwise the label, the description and the metadata box
        are set from the record in that order, and the first of them to raise ends the construction. */
    static method Init(arg: RecordArg, lookup: string -> Option<string>) returns (r: Result<PrototypeExtraction, Error>)
      ensures arg.NotADict? ==> r == Failure(ValueError)
      ensures arg.DictWithoutFields? ==> r == Failure(TypeError)
      ensures arg.RecordDict? && PrototypeTitle(arg).Failure? ==> r == Failure(PrototypeTitle(arg).error)
      ensures arg.RecordDict? && PrototypeTitle(arg).Success? && PrototypeFields(arg, lookup).Failure?
              ==> r == Failure(PrototypeFields(arg, lookup).error)
      ensures arg.RecordDict? && PrototypeTitle(arg).Success? && PrototypeFields(arg, lookup).Success?
              ==> && r.Success? && fresh(r.value)
                  && r.value.title == Some(PrototypeTitle(arg).value)
                  && r.value.description == Some(DescriptionOf(arg.fields))
                  && r.value.metadata == Some(PrototypeFields(arg, lookup).value)
    {
      if arg.NotADict? {
        return Failure(ValueError);
      }
      var o := new PrototypeExtraction();
      var labelled := o.SetLabel(arg);
      if labelled.Fail? {
        return Failure(labelled.error);
      }
      // the label was found, so the argument is a record and `set_description` cannot raise
      var described := o.SetDescription(arg);
      var box := PrototypeFromDict(arg, lookup);
      if box.Failure? {
        return Failure(box.error);
      }
      o.metadata := Some(box.value);
      return Success(o);
    }

    /** `set_label`: stores the title `PrototypeTitle` finds, or raises its error and stores nothing. */
    method SetLabel(arg: RecordArg) returns (r: Outcome<Error>)
      modifies this`title
      ensures PrototypeTitle(arg).Success? ==> r == Pass && title == Some(PrototypeTitle(arg).value)
      ensures PrototypeTitle(arg).Failure? ==> r == Fail(PrototypeTitle(arg).error) && title == old(title)
    {
      match PrototypeTitle(arg)
      case Failure(e) => r := Fail(e);
      case Success(t) =>
        title := Some(t);
        r := Pass;
    }

    /** `set_description`: walks the fields appending notes and descriptions, then stores the trimmed result. */
    method SetDescription(arg: RecordArg) returns (r: Outcome<Error>)
      modifies this`description
      ensures arg.NotADict? ==> r == Fail(ValueError) && description == old(description)
      ensures arg.DictWithoutFields? ==> r == Fail(TypeError) && description == old(description)
      ensures arg.RecordDict? ==> r == Pass && description == Some(DescriptionOf(arg.fields))
    {
      match arg
      case NotADict => r := Fail(ValueError);
      case DictWithoutFields => r := Fail(TypeError);
      case RecordDict(fields) =>
        var note := "";
        var desc := "";
        for i := 0 to |fields|
          invariant note == Accumulated(fields[..i], "5")
          invariant desc == Accumulated(fields[..i], "3")
        {
          AccumulatedStep(fields, i, "5");
          AccumulatedStep(fields, i, "3");
          var texts := Texts(fields[i].subfields);
          if StartsWith(fields[i].tag, "5") {
            note := AppendSpaced(note, texts);
          }
          if StartsWith(fields[i].tag, "3") {
            desc := AppendSpaced(desc, texts);
          }
        }
        assert fields[..|fields|] == fields;
        var output := "";
        if note != "" {
          output := output + note;
        }
        assert output == note;
        if desc != "" {
          output := output + " " + desc;
        }
        assert output == note + (if desc != "" then " " + desc else "");
        description := Some(Strip(output));
        r := Pass;
    }
  }

  /** The prototype box's `from_dict` loop: the entries it appends, or the error that interrupts it. */
  method PrototypeFromDict(arg: RecordArg, lookup: string -> Option<string>) returns (r: Result<seq<MetadataField>, Error>)
    ensures r == PrototypeFields(arg, lookup)
  {
    match arg
    case NotADict => return Failure(AttributeError);
    case DictWithoutFields => return Failure(TypeError);
    case RecordDict(record) =>
      var fields: seq<MetadataField> := [];
      for i := 0 to |record|
        invariant forall k :: 0 <= k < i ==> !CallsLocationHelper(record[k], lookup)
        invariant fields == PrototypeEntries(record[..i], lookup)
      {
        PrototypeEntriesStep(record, i, lookup);
        var callsHelper;
        fields, callsHelper := AppendFieldEntries(fields, record[i], lookup);
        if callsHelper {
          assert PrototypeFields(arg, lookup) == Failure(TypeError) by {
            assert CallsLocationHelper(record[i], lookup);
          }
          return Failure(TypeError);
        }
      }
      assert PrototypeFields(arg, lookup) == Success(fields) by {
        assert record[..|record|] == record;
      }
      return Success(fields);
  }
}
