# marc2iiif in Dafny

marc2iiif turns a decoded MARC 21 bibliographic record into the descriptive part of a IIIF
Presentation 2.x manifest: a label (title), a description, an identifier and an ordered list of
label/value metadata fields. It also offers a small editing API over that field list. This project
models that core and proves what it does:

- `wrappers.dfy` (`Wrappers`): `Option`, `Result` and the `Outcome` of an operation that returns
  nothing but may raise.
- `strings.dfy` (`PyStrings`): the parts of Python's `str` the library relies on (`isspace`,
  `strip`, `" ".join`, `in`, `startswith`, `endswith`, `find`, `split`).
- `marc.dfy` (`Marc`): the decoded record (a list of one-key tag dicts with subfield lists), the
  `IIIFMetadataField` value with its type-checking setters, the dynamically typed arguments the
  `isinstance` checks inspect, and the exceptions raised.
- `utils.dfy` (`Utils`): `marc2iiif/utils.py`: the two file-name predicates, the PURL identifier
  extraction and `combine_subfields_into_one_value`, the latter both as a loop method and as the
  function that specifies it.
- `extract.dfy` (`Extraction`): `IIIFMetadataBoxFromMarc.from_dict` of `marc2iiif/classes.py` as
  functions of the record. The model covers which keys the loop visits, which branch each key
  takes, and the resulting title, description, metadata list and identifier. Lemmas give the
  defaults, the failure condition, and document order.
- `classes.dfy` (`Classes`): the field-list operations and the façade `IIIFDataExtractionFromMarc`.
  - Each operation is a pure function over the list (`AddedMetadata`, `RemovedMetadata`,
    `ModifiedMetadata`) with lemmas relating them.
  - Two classes, `MetadataBox` and `DataExtraction`, have methods that update the list in place
    and are proved against those functions.
  - The manifest `to_dict` builds.
- `labels.dfy` (`Labels`): the static `LABEL_LOOKUP` table of `marc2iiif/__init__.py`.
- `prototype.dfy` (`Prototype`): the earlier prototype kept in `marc2iiif/__init__.py`. It covers
  `__init__`, `set_label` on field 245, `set_description` over the 3xx/5xx fields, and the box's
  `from_dict` with its running values. `set_description` and `from_dict` are loop methods proved
  against specification functions; `set_label` stores what the function `PrototypeTitle` finds.
- `testrecord.dfy` (`TestRecord`): the record of the repository's test suite. The lemmas here show
  what extraction, `modify_metadata` and `remove_metadata` make of it, and a method runs the façade
  on it end to end.

`marc2iiif/constants.py` is not part of this model. It holds the `TITLE_LOOKUPS`,
`DESCRIPTION_LOOKUPS` and `LABEL_LOOKUP` tables that `classes.py` imports. The extraction therefore
takes those tables as a parameter, `Extraction.Lookups`. The test record instantiates them with
"245" as a title tag and "300" as a description tag. It labels "690" and "856" as the `__init__.py`
table does, which `TestRecord.RecordLabelsFromLabelTable` checks.

Where the code and its own documentation disagree, the model follows the code:

- The identifier stored by `from_dict` is the raw value of the first "Electronic Location and
  Access" entry. `default_identifier_extraction` is imported but never applied.
- `_find_field` stops at the first match, so the "1 and only 1" rule of `remove_metadata` and
  `modify_metadata` can never see a second match. A second equal entry is simply left alone.
- The docstring of `default_identifier_extraction` says the scheme is `https`, but the split uses
  the `http://` prefix. The `https` branch is unreachable (`Utils.HttpsImpliesHttp`).
- When several title keys are visited, the last one decides the title. When several fields carry
  that tag, the first such field supplies it.
- `testModifyingMetadata` (tests/test_spec.py:49-57) modifies the "Local Subject" entry of the test
  record to 'A new subject' and then asserts that no shown value equals 'A new subject'. The code of
  `modify_metadata` (classes.py:161-175, 315-322) replaces that value, and with the tag tables under
  which `testLoadFromDict` (lines 104-109) holds, the new value is shown:
  `TestRecord.ModifySubjectOfRecord` proves the façade shows it. The test's expectation is the
  opposite of what the code does. The test module also imports the `__init__.py` prototype, which
  has no `from_dict`; the model follows `classes.py`.

## Model

| member | source | states |
|---|---|---|
| Utils.MatchSingleFile | marc2iiif/utils.py:6-10 | true exactly when the candidate path is non-empty and equal to `src` |
| Utils.SearchForMarcFile | marc2iiif/utils.py:12-22 | true exactly when `src` ends in "mrc" (with or without a dot before it) |
| Utils.EndsWithOwnSuffix | marc2iiif/utils.py:19 | every `stem + suffix` ends with `suffix`, so any `…mrc` name is accepted |
| Utils.DefaultIdentifierExtraction | marc2iiif/utils.py:25-46 | flag true exactly when an identifier is returned; the value is `before + prefix + identifier` and the identifier holds no further prefix |
| Utils.HttpsImpliesHttp | marc2iiif/utils.py:35-38 | a value containing "https" contains "http", so the `elif` branch is dead |
| Utils.PurlContainsHttp | marc2iiif/utils.py:35-36 | a value holding the PURL prefix passes the `'http' in value` guard |
| Utils.IdentifierExtractionSucceedsIff | marc2iiif/utils.py:35-45 | success exactly when the split yields two pieces, and the identifier is the second piece |
| Utils.PurlRoundTrip | marc2iiif/utils.py:35-43 | prefix + id gives `(True, id)` for any id without the prefix |
| Utils.SecurePurlExampleCharacters | marc2iiif/utils.py:37-38 | the characters of an `https` PURL that rule out every start of the `http://` prefix |
| Utils.SecurePurlLacksPlainPrefix | marc2iiif/utils.py:36 | the `http://` prefix does not occur in an `https` PURL |
| Utils.SecurePurlNotRecognised | marc2iiif/utils.py:35-45 | an `https` PURL yields `(False, None)` |
| Utils.Combine | marc2iiif/utils.py:48-52 | the combined value never starts or ends with whitespace; no subfields give "" |
| Utils.CombineSubfields | marc2iiif/utils.py:48-52 | the loop appending `" " + text` per subfield and stripping yields `Combine` |
| Utils.JoinEnds | marc2iiif/utils.py:51 | the space-joined texts start with the first text and end with the last |
| Utils.StripOfTrimmed | marc2iiif/utils.py:52 | `strip` leaves a string without surrounding whitespace unchanged |
| Utils.CombineOfTrimmedTexts | marc2iiif/utils.py:48-52 | when the first text starts and the last ends without whitespace, the combined value is exactly the texts joined by single spaces |
| Utils.CombineExample | marc2iiif/utils.py:48-52 | "1 online resource (1 map) :" and "col." combine to "1 online resource (1 map) : col." |
| PyStrings.StripLeft | marc2iiif/utils.py:52 | `lstrip` removes exactly the leading whitespace: a suffix, all dropped characters are spaces, the rest starts with a non-space |
| PyStrings.StripRight | marc2iiif/utils.py:52 | `rstrip` removes exactly the trailing whitespace |
| PyStrings.Strip | marc2iiif/utils.py:52 | the stripped string is no longer and has no surrounding whitespace |
| PyStrings.SpacePrefixedStep | marc2iiif/utils.py:50-51 | one more turn of an `acc += " " + x` loop appends a space and `x` |
| PyStrings.SpacePrefixedIsJoin | marc2iiif/utils.py:50-52 | prefixing each piece with a space is one space followed by the space-joined pieces |
| PyStrings.StripIgnoresLeadingSpace | marc2iiif/utils.py:52 | a leading space does not change `strip` |
| PyStrings.StripLeftAppend | marc2iiif/utils.py:52 | `lstrip` of a string that is not all whitespace distributes over a suffix |
| PyStrings.StripLeftAllSpace | marc2iiif/utils.py:52 | `lstrip` skips an all-whitespace prefix |
| PyStrings.StripIgnoresTrailingSpace | marc2iiif/utils.py:52 | a trailing space does not change `strip` |
| PyStrings.FindFrom | marc2iiif/utils.py:36 | the first occurrence at or after a position, or none at all |
| PyStrings.Find | marc2iiif/utils.py:35 | no occurrence exactly when `p in s` is false; otherwise the first one |
| PyStrings.Split | marc2iiif/utils.py:36 | at least one piece; a single piece `[s]` exactly when the separator does not occur; two or more when it does |
| PyStrings.BeforeFirstOccurrence | marc2iiif/utils.py:36 | the text before the first occurrence does not contain the separator |
| PyStrings.SplitInTwoIff | marc2iiif/utils.py:42 | two pieces exactly when the separator occurs once |
| PyStrings.SplitInTwoParts | marc2iiif/utils.py:42-43 | with two pieces, the value is first piece + separator + second piece and neither piece holds the separator |
| Marc.Texts | marc2iiif/utils.py:51 | the value under the one key of each subfield dict, in order |
| Marc.DictGet | marc2iiif/classes.py:115-116 | `dict.get`: a stored value for the key, or None when the key is absent |
| Marc.SetName | marc2iiif/classes.py:436-445 | the label setter accepts exactly strings and raises ValueError otherwise, leaving the value alone (the prototype `field` setter at marc2iiif/__init__.py:350-354 is the same check) |
| Marc.SetValue | marc2iiif/classes.py:460-469 | the value setter accepts exactly strings and raises ValueError otherwise, leaving the label alone (the prototype value setter at marc2iiif/__init__.py:364-368 is the same check) |
| Marc.NewMetadataField | marc2iiif/classes.py:409-419 | the constructor builds the field exactly when both arguments are strings, and raises ValueError otherwise |
| Extraction.FirstIndex | marc2iiif/classes.py:286 | the first field bearing the tag, with no earlier one bearing it |
| Extraction.TagsIn | marc2iiif/classes.py:274-279 | a tag is listed exactly when it is in the table and some field bears it |
| Extraction.LoopKeys | marc2iiif/classes.py:283 | every visited key names a field and lies in one of the tables |
| Extraction.FirstA | marc2iiif/classes.py:286 | the first `a` subfield, or none exactly when no subfield has code `a` |
| Extraction.LastKeyOf | marc2iiif/classes.py:283-288 | a visited key taking the branch after which no key takes it (the last one), or none exactly when no key takes it |
| Extraction.TitleMissesA | marc2iiif/classes.py:284-286 | true exactly when some visited title-tagged field, the first to bear its tag, has no `a` subfield (the IndexError of line 286) |
| Extraction.ResolvedTitle | marc2iiif/classes.py:280-286 | the default title when no visited key takes the title branch, and otherwise the first `a` of the first field bearing some title key |
| Extraction.ResolvedDescription | marc2iiif/classes.py:281-288 | the default description when no visited key takes the description branch, and otherwise the combined subfields of the first field bearing some description key |
| Extraction.MetadataEntries | marc2iiif/classes.py:289-294 | at most one entry per visited key |
| Extraction.Metadata | marc2iiif/classes.py:274-294 | every entry is the labelled, combined entry of a field of the record whose tag takes only the generic branch |
| Extraction.FirstLabelled | marc2iiif/classes.py:296 | the first entry bearing the label, or none when no entry bears it |
| Extraction.LocationValue | marc2iiif/classes.py:295-298 | "" without a location entry, otherwise the value of the first one, unchanged |
| Extraction.Extract | marc2iiif/classes.py:258-299 | `from_dict` fails only with IndexError; on success the metadata is `Metadata` of the record and the identifier is "" or the value of an "Electronic Location and Access" entry |
| Extraction.SuffixTagsPresent | marc2iiif/classes.py:274-279 | keys drawn from part of the record name fields of the whole record |
| Extraction.MetadataEntriesAppend | marc2iiif/classes.py:283-294 | the metadata of two key runs is the metadata of each, concatenated |
| Extraction.MetadataEntriesOfNonGeneric | marc2iiif/classes.py:284-288 | title and description keys add no metadata |
| Extraction.MetadataEntriesOfGeneric | marc2iiif/classes.py:289-294 | generic keys add one entry each, in order |
| Extraction.LabelKeysGiveGenericEntries | marc2iiif/classes.py:278-294 | labelled tags that are also title or description tags add nothing |
| Extraction.MetadataInDocumentOrder | marc2iiif/classes.py:278-294 | one entry per generic-tagged field in document order, labelled from the table, valued from the FIRST field with that tag, so repeated tags repeat the first value |
| Extraction.TitleDefaultsWithoutTitleTag | marc2iiif/classes.py:280 | with no title-tagged field, extraction succeeds and the title is "An untitled Cultural Heritage Object" |
| Extraction.DescriptionDefaultsWithoutDescriptionTag | marc2iiif/classes.py:281 | with no description-tagged field, the description is "This Cultural Heritage Object does not have a description" |
| Extraction.ExtractFailsIff | marc2iiif/classes.py:284-286 | extraction raises IndexError exactly when a title-tagged field's first occurrence has no `a` subfield; there is no fall-back to the default |
| Extraction.TitleFromSingleTitleTag | marc2iiif/classes.py:284-286 | with one title tag, the title is the first `a` subfield of its first field, failing exactly when there is none |
| Extraction.DescriptionFromSingleDescriptionTag | marc2iiif/classes.py:287-288 | with one description tag, the description is the combined subfields of its first field |
| Extraction.LoopStep | marc2iiif/classes.py:283-294 | how one more key changes the failure, title, description and metadata |
| Extraction.PrefixMissesA | marc2iiif/classes.py:284-286 | a failure among the first keys is a failure of the whole loop |
| Classes.FirstMatch | marc2iiif/classes.py:315-319 | the first entry whose label and value both equal the query, or none exactly when no entry matches |
| Classes.IndexOf | marc2iiif/classes.py:322 | `list.index`: the first position holding the entry, none exactly when it is absent |
| Classes.FoundFieldIsIndexed | marc2iiif/classes.py:321-326 | `index` finds the entry `_find_field` returned at the position where it matched |
| Classes.LabelValue | marc2iiif/classes.py:332 | the dict holds exactly "label" and "value", with the field's label and value |
| Classes.FieldOf | marc2iiif/classes.py:332 | a label/value dict reads back as the field it was made from |
| Classes.FieldMaps | marc2iiif/classes.py:328-333 | one dict per field, in order, each with exactly the keys "label" and "value" and reading back as its field |
| Classes.FieldsOf | marc2iiif/classes.py:328-333 | reading back a list of dicts gives one field per dict |
| Classes.FieldMapsRoundTrip | marc2iiif/classes.py:328-333 | the field list is recovered from what `get_fields` returns |
| Classes.ManifestOf | marc2iiif/classes.py:46-59 | fixed `@context` and `@type`; `@id` is the manifest base followed by the identifier; label and description as stored; the metadata is exactly one `{label, value}` dict per stored field, in order |
| Classes.StateOf | marc2iiif/classes.py:53-59 | a manifest read back keeps its label and description |
| Classes.ManifestRoundTrip | marc2iiif/classes.py:53-59 | title, description, identifier and fields all come back out of the manifest |
| Classes.RemovedAt | marc2iiif/classes.py:324-326 | one entry fewer; the entries before and after keep their order; the multiset loses exactly that entry |
| Classes.ReplacedAt | marc2iiif/classes.py:321-322 | same length; the entry keeps its label and takes the new value; all other entries unchanged |
| Classes.FieldToAdd | marc2iiif/classes.py:118-122 | TypeError for a non-dict; ValueError unless "field_name" and "field_value" hold non-empty strings; otherwise the field built from them |
| Classes.AddedMetadata | marc2iiif/classes.py:111-125 | TypeError for a non-dict, ValueError unless both name and value are non-empty strings, otherwise the new field goes last |
| Classes.QueryOf | marc2iiif/classes.py:150-151 | the query is the dict's first key and the value stored under it |
| Classes.RemovedMetadata | marc2iiif/classes.py:143-156 | a non-dict changes nothing; ValueError exactly when nothing matches; otherwise the first match is deleted and the rest keep order |
| Classes.ModifiedMetadata | marc2iiif/classes.py:161-175 | TypeError unless a dict and a string; otherwise same length and labels, only the first match takes the new value, and no match changes nothing |
| Classes.AppendedIsFirstMatch | marc2iiif/classes.py:301-319 | a freshly appended field not already present is the first match of its own label and value |
| Classes.AddThenRemoveRestores | marc2iiif/classes.py:111-156 | `add_metadata` then `remove_metadata` of the same pair restores the list |
| Classes.RemovedMetadataDropsOne | marc2iiif/classes.py:143-156 | a successful removal shortens the list by exactly one and loses exactly one occurrence of the match |
| Classes.ModifyTwiceRestores | marc2iiif/classes.py:161-175 | modifying a value and modifying it back restores the list |
| Classes.MetadataBox.constructor | marc2iiif/classes.py:226-239 | the four attributes as given |
| Classes.MetadataBox.VisitKey | marc2iiif/classes.py:284-294 | one loop turn: the branch's effect on title, description and metadata, and the missing `a` that raises |
| Classes.MetadataBox.FromDict | marc2iiif/classes.py:258-299 | the loop builds exactly `Extract`'s title, description, identifier and metadata, or raises IndexError exactly when `Extract` fails |
| Classes.MetadataBox.AddField | marc2iiif/classes.py:301-313 | a field is appended and nothing else changes; anything else raises ValueError and the list is unchanged |
| Classes.MetadataBox.FindField | marc2iiif/classes.py:315-319 | empty or one element; empty exactly when nothing matches; otherwise the first match |
| Classes.MetadataBox.ReplaceFieldValue | marc2iiif/classes.py:321-322 | the first entry equal to the target takes the new value; ValueError (list unchanged) when absent or not a string |
| Classes.MetadataBox.RemoveMetadataField | marc2iiif/classes.py:324-326 | the first entry equal to the target is deleted; ValueError and no change when absent |
| Classes.MetadataBox.GetFields | marc2iiif/classes.py:328-333 | one label/value dict per field in order, from which the field list reads back |
| Classes.MetadataBox.SetFields | marc2iiif/classes.py:335-339 | replaced exactly when every element is a field; otherwise ValueError and no change |
| Classes.MetadataBox.SetTitle | marc2iiif/classes.py:349-353 | a string is stored exactly; a non-string raises ValueError and the title stays |
| Classes.MetadataBox.SetDescription | marc2iiif/classes.py:363-365 | a string is stored exactly; a non-string is silently ignored |
| Classes.MetadataBox.SetIdentifier | marc2iiif/classes.py:385-386 | the identifier is stored unchecked |
| Classes.DataExtraction.constructor | marc2iiif/classes.py:23-32 | wraps the given box |
| Classes.DataExtraction.FromDict | marc2iiif/classes.py:178-190 | ValueError for a non-dict, TypeError without "fields", otherwise a fresh box holding `Extract`'s result or its IndexError |
| Classes.DataExtraction.AddMetadata | marc2iiif/classes.py:111-125 | the list becomes `AddedMetadata`'s result, or stays unchanged with its error |
| Classes.DataExtraction.ChangeTitle | marc2iiif/classes.py:127-133 | stores exactly the given string; ValueError for a non-string |
| Classes.DataExtraction.ChangeDescription | marc2iiif/classes.py:135-141 | stores exactly the given string; a non-string leaves it unchanged |
| Classes.DataExtraction.RemoveMetadata | marc2iiif/classes.py:143-156 | the list becomes `RemovedMetadata`'s result, or stays unchanged with its error |
| Classes.DataExtraction.ModifyMetadata | marc2iiif/classes.py:161-175 | the list becomes `ModifiedMetadata`'s result, or stays unchanged with its error |
| Classes.DataExtraction.ToDict | marc2iiif/classes.py:46-59 | the context, type and `@id` base + identifier, label and description as stored, the metadata exactly one `{label, value}` dict per field of the box, and a manifest from which the whole state reads back |
| Labels.LocationAndLocalSubjectLabels | marc2iiif/__init__.py:34-84 | "856" is "Electronic Location and Access" and "690" to "699" are "Local Subject" |
| Labels.LabelLookup | marc2iiif/__init__.py:8-91 | `LABEL_LOOKUP.get`: a label is found only for a three-character tag starting 2, 6, 7 or 8 (so never for a control, 1xx, 3xx, 4xx or 5xx tag), and every label is non-empty |
| Labels.LabelIn2xx | marc2iiif/__init__.py:9-18 | the 2xx entries: only three-character tags starting 2, with non-empty labels |
| Labels.LabelIn6xx | marc2iiif/__init__.py:19-50 | the 6xx entries: only three-character tags starting 6, with non-empty labels |
| Labels.LabelIn7xx | marc2iiif/__init__.py:51-76 | the 7xx entries: only three-character tags starting 7, with non-empty labels |
| Labels.LabelIn8xx | marc2iiif/__init__.py:77-90 | the 8xx entries: only three-character tags starting 8, with non-empty labels |
| Labels.TitleTagHasNoLabel | marc2iiif/__init__.py:8-91 | "245" is not a key |
| Prototype.TitleSubfields | marc2iiif/__init__.py:170 | only subfields of "245" fields are searched; none without a 245 field |
| Prototype.FirstMainTitle | marc2iiif/__init__.py:171 | the first subfield with a truthy `a`, none exactly when there is no such subfield |
| Prototype.PrototypeTitle | marc2iiif/__init__.py:166-175 | ValueError for a non-dict or when no 245 subfield has a truthy `a`; otherwise a non-empty `a` value of a 245 field |
| Prototype.TitleSubfieldsAppend | marc2iiif/__init__.py:170 | the searched subfields follow document order |
| Prototype.FirstMainTitleAppend | marc2iiif/__init__.py:171-173 | the first main title of a concatenation comes from its first part when that part has one |
| Prototype.EarlierTitleWins | marc2iiif/__init__.py:170-173 | later fields never change a title already found |
| Prototype.LeadingFieldsWithoutTitleIgnored | marc2iiif/__init__.py:170-173 | leading fields without a main title do not change the title |
| Prototype.ConcatAppend | marc2iiif/__init__.py:192-205 | a loop appending one piece per field over two runs is the two results concatenated |
| Prototype.Contribution | marc2iiif/__init__.py:194-205 | a field whose tag starts otherwise, or without subfields, adds nothing; any other adds a space and its values joined by spaces |
| Prototype.Accumulated | marc2iiif/__init__.py:192-205 | the accumulated text is empty or starts with a space |
| Prototype.AccumulatedStep | marc2iiif/__init__.py:192-205 | one more field adds its contribution |
| Prototype.AccumulatedEmpty | marc2iiif/__init__.py:194-205 | fields whose tags do not start with the digit contribute nothing |
| Prototype.DescriptionOf | marc2iiif/__init__.py:206-211 | the description has no surrounding whitespace |
| Prototype.DescriptionIsStripOfBoth | marc2iiif/__init__.py:206-211 | the description is `strip(notes + " " + descriptions)` |
| Prototype.DescriptionEmptyWithoutNotesOrDescriptions | marc2iiif/__init__.py:192-211 | without 3xx and 5xx fields the description is "" |
| Prototype.AccumulatedAppend | marc2iiif/__init__.py:192-205 | accumulating over two runs is accumulating over each |
| Prototype.AccumulatedPair | marc2iiif/__init__.py:192-205 | two fields contribute in order |
| Prototype.AccumulatedSwap | marc2iiif/__init__.py:192-205 | adjacent fields that do not both contribute may trade places |
| Prototype.NotesPrecedeDescriptions | marc2iiif/__init__.py:192-211 | swapping an adjacent 3xx and 5xx field does not change the description: notes come first whatever the order |
| Prototype.RunningEntries | marc2iiif/__init__.py:287-291 | one entry per subfield value |
| Prototype.RunningEntriesStep | marc2iiif/__init__.py:287-291 | one more value appends the entry holding the running text |
| Prototype.RunningEntriesValues | marc2iiif/__init__.py:286-291 | entry i holds a space before each of the first i+1 values |
| Prototype.RunningEntriesGrow | marc2iiif/__init__.py:286-291 | each entry's value is the previous one plus a space and the next value, so it is a prefix of the next |
| Prototype.EntriesOf | marc2iiif/__init__.py:283-291 | control fields and unlabelled tags add nothing; any other field adds one entry per subfield, all labelled from the table, the last holding a space and the joined values |
| Prototype.PrototypeEntries | marc2iiif/__init__.py:282-291 | every entry carries the label of some recognised field of the record |
| Prototype.CallsLocationHelper | marc2iiif/__init__.py:292-293 | only a recognised field calls the helper, and every non-control field labelled "Electronic Location and Access" does |
| Prototype.PrototypeEntriesStep | marc2iiif/__init__.py:282-291 | one more field appends its entries |
| Prototype.PrototypeEntriesAppend | marc2iiif/__init__.py:282-291 | entries follow document order over two runs of fields |
| Prototype.UnrecognisedFieldIgnored | marc2iiif/__init__.py:283-291 | an unrecognised field contributes nothing wherever it stands |
| Prototype.PrototypeFields | marc2iiif/__init__.py:277-295 | as written: AttributeError for a non-dict, TypeError without "fields", TypeError when a location field calls the nested helper, otherwise the entries |
| Prototype.IntendedPrototypeFields | marc2iiif/__init__.py:277-295 | as intended: the same, but always the entries for a record |
| Prototype.LocationRecordFails | marc2iiif/__init__.py:292-293 | as written, a record with an 856 field raises TypeError |
| Prototype.LocationEntriesKept | marc2iiif/__init__.py:284-293 | as intended, an 856 field adds one location entry per subfield |
| Prototype.AppendSpaced | marc2iiif/__init__.py:198-205 | the inner loop appends a space and each value |
| Prototype.AppendRunning | marc2iiif/__init__.py:286-291 | the inner loop yields the running value and appends the running entries only under a truthy label |
| Prototype.AppendFieldEntries | marc2iiif/__init__.py:283-293 | one outer-loop turn appends the field's entries and reports whether it calls the location helper |
| Prototype.PrototypeExtraction.Init | marc2iiif/__init__.py:142-149 | ValueError for a non-dict; otherwise `set_label`'s error, then the box `from_dict`'s error, and on success a fresh object holding `PrototypeTitle`'s title, `DescriptionOf` the fields and `PrototypeFields`' entries |
| Prototype.PrototypeExtraction.SetLabel | marc2iiif/__init__.py:166-175 | stores the title `PrototypeTitle` finds, or raises its error and keeps the old one |
| Prototype.PrototypeExtraction.SetDescription | marc2iiif/__init__.py:185-212 | ValueError for a non-dict; otherwise stores `DescriptionOf` the fields |
| Prototype.PrototypeFromDict | marc2iiif/__init__.py:277-295 | the loop returns exactly `PrototypeFields` |
| TestRecord.RecordLabelsFromLabelTable | tests/test_spec.py:13-44 | the record's labels agree with the label table |
| TestRecord.ShapeLoopKeys | marc2iiif/classes.py:274-283 | for a title, a description and two labelled fields, the loop visits their tags in that order |
| TestRecord.ShapeFirstIndices | marc2iiif/classes.py:286-294 | each of the four tags names its own field |
| TestRecord.ShapeLastKeys | marc2iiif/classes.py:284-288 | the title and description keys decide title and description |
| TestRecord.ShapeMetadata | marc2iiif/classes.py:289-294 | the two labelled fields give two entries, in order |
| TestRecord.ShapeResolved | marc2iiif/classes.py:284-288 | no failure; title from the title field, description from the description field |
| TestRecord.SecondLabelled | marc2iiif/classes.py:296 | the first entry with a label is found after one bearing another label |
| TestRecord.ShapeIdentifier | marc2iiif/classes.py:295-298 | the identifier is the location entry's value |
| TestRecord.ShapeExtraction | marc2iiif/classes.py:258-299 | extraction of such a record in full |
| TestRecord.RecordHasShape | tests/test_spec.py:13-44 | the test record has that shape |
| TestRecord.SubjectCombined | tests/test_spec.py:29-35 | "Test" and "Subject" combine to "Test Subject" |
| TestRecord.LocationCombined | tests/test_spec.py:37-42 | the location combines to its one text |
| TestRecord.RecordExtraction | tests/test_spec.py:104-109 | title "A Title of a CHO", description "1 online resource (1 map) : col.", metadata Local Subject then the electronic location, identifier the location's value |
| TestRecord.RecordModifySubject | marc2iiif/classes.py:161-175 | modifying the local subject of the test record replaces only its value |
| TestRecord.RecordRemoveSubject | marc2iiif/classes.py:143-156 | removing the local subject leaves only the location |
| TestRecord.ModifySubjectOfRecord | tests/test_spec.py:49-57 | `from_dict` then `modify_metadata` on the façade shows the new subject and the untouched location |

## Left out

- `MarcFilesFromDisk` and the file-walking generators: directory scanning, opening files and the
  pymarc decoder are I/O and a foreign library. The record arrives already decoded.
- `marc2iiif/constants.py` is not part of this model. Its three tables are the `Lookups` parameter
  of the extraction.
- The stderr diagnostic of `default_identifier_extraction` and the `print` in the prototype
  `from_dict` are console output. The prototype's identifier helper is modelled only as the call
  that raises.
- The `sequences`/`canvases` placeholder that `to_dict` appends is constant data; `Classes.Manifest`
  holds only the descriptive keys.
- `__repr__`, `__str__`, `show_title`/`show_description`/`show_metadata`, the `total` property and
  the `del_*` deleters are display, debugging and broken deleters. The model's attributes are
  always set, so the `hasattr` probing is gone.
- `set_metadata`/`get_metadata` of the façade and of the prototype: the box (for the prototype, its
  field list) is held in a plain field, which `Prototype.PrototypeExtraction.Init` assigns.
- The prototype `IIIFDataExtractionFromMarc.to_dict` and `get_fields`, and the
  prototype box's `set_fields`/`add_field`: they are not among the prototype operations modelled.
  The prototype `IIIFMetadataField` setters are the same checks as `Marc.SetName`/`Marc.SetValue`.
- Classes.MetadataBox.AddField: the branch that creates the list when the box has none is not
  modelled, because the box always holds a list.
- Classes.MetadataBox.SetIdentifier: only strings are stored; the source stores any value.
- `IIIFMetadataField` objects are values here. Aliasing of one field object in two places of the
  list, which `list.index` would resolve by identity-then-equality, is not modelled.
- Keys of a field dict other than the tag, indicators and subfields are not modelled. Neither are
  fields holding more than one tag key, since a decoded MARC field has exactly one.
- Prototype.PrototypeTitle: the truthiness test on an `a` value is modelled for strings only.

## Findings

| source | as written | input that shows it | evidently intended | confidence | as-written member | corrected member |
|---|---|---|---|---|---|---|
| marc2iiif/__init__.py:278-293 | the nested `default_identifier_extraction` is declared with a `self` parameter but called with one argument, so the call raises TypeError | any record with an 856 field, whose label is "Electronic Location and Access" | print the identifier and return the box with all entries (the print is console output and not modelled; a repaired helper would still raise IndexError on a value without the https PURL prefix) | not executed | Prototype.PrototypeFields (Prototype.LocationRecordFails) | Prototype.IntendedPrototypeFields (Prototype.LocationEntriesKept) |
