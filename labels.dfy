/** The static `LABEL_LOOKUP` table of `marc2iiif/__init__.py`: MARC 21 bibliographic tags and the labels
    the prototype extraction gives them, spelt as in the table. */
module Labels {
  import opened Wrappers
  import Extraction

  /** `LABEL_LOOKUP.get(tag)`: the label the table gives a tag, None for a tag it does not list. The entries
      are grouped by the first digit of the tag, in the order the table lists them. */
  function LabelLookup(tag: string): (r: Option<string>)
    ensures r.Some? ==> |tag| == 3 && tag[0] in "2678" && r.value != ""
    ensures tag == [] || tag[0] !in "2678" ==> r.None?
  {
    if tag == [] then None
    else match tag[0]
      case '2' => LabelIn2xx(tag)
      case '6' => LabelIn6xx(tag)
      case '7' => LabelIn7xx(tag)
      case '8' => LabelIn8xx(tag)
      case _ => None
  }

  /** The entries of the 2xx title, edition and imprint block. */
  function LabelIn2xx(tag: string): (r: Option<string>)
    ensures r.Some? ==> |tag| == 3 && tag[0] == '2' && r.value != ""
  {
    match tag
    case "250" => Some("Edition Statement")
    case "254" => Some("Musical Presentation Statement")
    case "255" => Some("Cartographic Mathemtical Data")
    case "256" => Some("Computer File Characteristic")
    case "257" => Some("Country of Producing Entity")
    case "258" => Some("Philatelic Issue Data")
    case "260" => Some("Publication, Distribution, etc (Imprint)")
    case "263" => Some("Projected Publication Date")
    case "264" => Some("Production, Publication, Publication, Distribution, Manufacture, and Copyright Notice")
    case "270" => Some("Address")
    case _ => None
  }

  /** The entries of the 6xx subject access block. */
  function LabelIn6xx(tag: string): (r: Option<string>)
    ensures r.Some? ==> |tag| == 3 && tag[0] == '6' && r.value != ""
  {
    match tag
    case "600" => Some("Subject Added Entry - Personal Name")
    case "610" => Some("Subject Added Entry - Corporate Name")
    case "611" => Some("Subject Added Entry - Meeting Name")
    case "630" => Some("Subject Added Entry - Uniform Title")
    case "647" => Some("Subject Added Entry - Named Event")
    case "648" => Some("Subject Added Entry - Chronological Term")
    case "650" => Some("Subject Added Entry = Topical Term")
    case "651" => Some("Subject Added Entry - Geographic Name")
    case "653" => Some("Index Term - Uncontrolled")
    case "654" => Some("Subject Added Entry - Faceted Topical Term")
    case "655" => Some("Index Term - Genre/Form")
    case "656" => Some("Index Term - Occupation")
    case "657" => Some("Index Term - Function")
    case "658" => Some("Index Term - Curriculum Objective")
    case "662" => Some("Subject Added Entry - Hierarchical Place Name")
    case "690" => Some("Local Subject")
    case "691" => Some("Local Subject")
    case "692" => Some("Local Subject")
    case "693" => Some("Local Subject")
    case "694" => Some("Local Subject")
    case "695" => Some("Local Subject")
    case "696" => Some("Local Subject")
    case "697" => Some("Local Subject")
    case "698" => Some("Local Subject")
    case "699" => Some("Local Subject")
    case _ => None
  }

  /** The entries of the 7xx added entry and linking entry block. */
  function LabelIn7xx(tag: string): (r: Option<string>)
    ensures r.Some? ==> |tag| == 3 && tag[0] == '7' && r.value != ""
  {
    match tag
    case "700" => Some("Added Entry - Personal Name")
    case "710" => Some("Added Entry - Corporate Name")
    case "711" => Some("Added Entry - Meeting Name")
    case "720" => Some("Added Entry - Uncontrolled Name")
    case "730" => Some("Added Entry - Uniform Title")
    case "740" => Some("Added Entry - Uncontrolled Related/Analytical Title")
    case "751" => Some("Added Entry - Geographic Name")
    case "752" => Some("Added Entry - Hierarchical Place Name")
    case "753" => Some("System Details Access to Computer File")
    case "754" => Some("Added Entry - Taxonomic Identification")
    case "758" => Some("Resource Identifier")
    case "760" => Some("Main Entry Series Entry")
    case "762" => Some("Subseries Entry")
    case "765" => Some("Original Language Entry")
    case "767" => Some("Translation Entry")
    case "770" => Some("Supplement/Special Issue Entry")
    case "772" => Some("Supplement Parent Entry")
    case "773" => Some("Host Item Entry")
    case "774" => Some("Constituent Unit Entry")
    case "775" => Some("Other Edition Entry")
    case "776" => Some("Additional Physical Form Entry")
    case "777" => Some("Issued With Entry")
    case "780" => Some("Preceding Entry")
    case "785" => Some("Succeeding Entry")
    case "786" => Some("Date Source Entry")
    case "787" => Some("Other Relationship Entry")
    case _ => None
  }

  /** The entries of the 8xx series added entry, holdings and location block. */
  function LabelIn8xx(tag: string): (r: Option<string>)
    ensures r.Some? ==> |tag| == 3 && tag[0] == '8' && r.value != ""
  {
    match tag
    case "800" => Some("Series Added Entry - Personal Name")
    case "810" => Some("Series Added Entry - Corporate Name")
    case "811" => Some("Series Added Entry - Meeting Name")
    case "830" => Some("Series Added Entry - Uniform Title")
    case "841" => Some("Holdings Coded Data Values")
    case "842" => Some("Textual Physical form Designator")
    case "843" => Some("Reproduction Note")
    case "844" => Some("Name of Unit")
    case "845" => Some("Terms Governing Use and Reproduction")
    case "850" => Some("Holding Institution")
    case "852" => Some("Location")
    case "853" => Some("Captions and Pattern - Basic Bibliographic Unit")
    case "854" => Some("Captions and Pattern - Supplementary Material")
    case "855" => Some("Captions and Pattern - Indexes")
    case "856" => Some("Electronic Location and Access")
    case "863" => Some("Enumeration and Chronology- Basic Bibligraphic Unit")
    case "864" => Some("Enumeration and Chronology - Supplementary MAterial")
    case "865" => Some("Enumeration and Chronology - Indexes")
    case "866" => Some("Textual Holdings - Basic Bibliographic Unit")
    case "867" => Some("Textual Holdings - Supplementary Material")
    case "868" => Some("Textual Holdings - Indexes")
    case _ => None
  }

  /** "856" is labelled as the electronic location and "690" to "699" as local subjects. */
  lemma LocationAndLocalSubjectLabels()
    ensures LabelLookup("856") == Some(Extraction.LocationLabel)
    ensures forall t :: t in ["690", "691", "692", "693", "694", "695", "696", "697", "698", "699"] ==>
              LabelLookup(t) == Some("Local Subject")
  {
  }

  /** The title tag 245 has no label, so titles never become metadata entries. */
  lemma TitleTagHasNoLabel()
    ensures LabelLookup("245") == None
  {
    assert "245"[0] == '2';
  }
}
