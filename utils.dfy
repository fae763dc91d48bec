/** The helpers of `marc2iiif/utils.py`: file-name predicates, PURL identifier extraction,
    and the joining of a field's subfields into one value. */
module Utils {
  import opened Wrappers
  import opened PyStrings
  import opened Marc

  /** `match_single_file(src, pot_match)`: a file matches when a non-empty candidate path equals it. */
  function MatchSingleFile(src: string, potMatch: Option<string>): (r: bool)
    ensures r <==> src != "" && potMatch == Some(src)
  {
    match potMatch
    case None => false
    case Some(p) => p != "" && src == p
  }

  /** `search_for_marc_file(src)`: any path whose last three characters are "mrc", with or without a dot before them. */
  function SearchForMarcFile(src: string): (r: bool)
    ensures r <==> exists stem :: src == stem + "mrc"
  {
    if EndsWith(src, "mrc") then
      assert src == src[..|src| - 3] + "mrc";
      true
    else
      assert forall stem :: src != stem + "mrc" by {
        forall stem ensures EndsWith(stem + "mrc", "mrc") {
          EndsWithOwnSuffix(stem, "mrc");
        }
      }
      false
  }

  lemma EndsWithOwnSuffix(stem: string, suffix: string)
    ensures EndsWith(stem + suffix, suffix)
  {
    assert (stem + suffix)[|stem|..] == suffix;
  }

  /** The PURL prefix whose removal yields the identifier. */
  const PurlPrefix := "http://pi.lib.uchicago.edu/1001/"

  /** The prefix the second branch splits on; that branch is never taken. */
  const SecurePurlPrefix := "https://pi.lib.uchicago.edu/1001/"

  /** `default_identifier_extraction(value)`: `(True, rest)` when splitting on the PURL prefix gives two
      pieces, `(False, None)` otherwise (a value without "http" also writes a diagnostic, not modelled). */
  function DefaultIdentifierExtraction(value: string): (r: (bool, Option<string>))
    ensures r.0 <==> r.1.Some?
    ensures r.0 ==> exists before :: value == before + PurlPrefix + r.1.value
    ensures r.0 ==> !Contains(r.1.value, PurlPrefix)
  {
    var items :=
      if Contains(value, "http") then Split(value, PurlPrefix)
      else if Contains(value, "https") then Split(value, SecurePurlPrefix)
      else [];
    if |items| == 2 then
      HttpsImpliesHttp(value);
      SplitInTwoParts(value, PurlPrefix);
      assert value == items[0] + PurlPrefix + items[1];
      (true, Some(items[1]))
    else (false, None)
  }

  /** Every value containing "https" contains "http", so the `elif 'https' in value` branch is dead. */
  lemma HttpsImpliesHttp(value: string)
    ensures Contains(value, "https") ==> Contains(value, "http")
  {
    if Contains(value, "https") {
      var i: nat :| i <= |value| && OccursAt(value, "https", i);
      assert value[i..i + 4] == value[i..i + 5][..4];
      assert OccursAt(value, "http", i);
    }
  }

  /** A value that contains the PURL prefix contains "http", so the `'http' in value` guard
      never hides a value that the split would accept. */
  lemma PurlContainsHttp(value: string)
    ensures Contains(value, PurlPrefix) ==> Contains(value, "http")
  {
    if Contains(value, PurlPrefix) {
      var i: nat :| i <= |value| && OccursAt(value, PurlPrefix, i);
      assert value[i..i + 4] == value[i..i + |PurlPrefix|][..4];
      assert OccursAt(value, "http", i);
    }
  }

  /** The extraction succeeds exactly when the PURL prefix occurs once in the value:
      the "http"/"https" tests in front of the split decide nothing. */
  lemma {:induction false} IdentifierExtractionSucceedsIff(value: string)
    ensures DefaultIdentifierExtraction(value).0 <==> |Split(value, PurlPrefix)| == 2
    ensures DefaultIdentifierExtraction(value).0 ==>
              DefaultIdentifierExtraction(value).1 == Some(Split(value, PurlPrefix)[1])
  {
    PurlContainsHttp(value);
    HttpsImpliesHttp(value);
  }

  /** An identifier written after the PURL prefix is extracted unchanged, provided it does not
      itself contain the prefix. */
  lemma {:induction false} PurlRoundTrip(id: string)
    requires !Contains(id, PurlPrefix)
    ensures DefaultIdentifierExtraction(PurlPrefix + id) == (true, Some(id))
  {
    var value := PurlPrefix + id;
    assert OccursAt(value, PurlPrefix, 0);
    assert OccursAt(value, "http", 0);
    assert Find(value, PurlPrefix) == Some(0);
    assert value[|PurlPrefix|..] == id;
    assert Split(value, PurlPrefix) == [""] + Split(id, PurlPrefix);
  }

  /** A PURL written with `https`. */
  const SecurePurlExample := "https://pi.lib.uchicago.edu/1001/b123"

  /** The characters of the example that rule out each place the `http://` prefix could start. */
  lemma SecurePurlExampleCharacters()
    ensures |SecurePurlExample| == 37
    ensures SecurePurlExample[..4] == "http"
    ensures SecurePurlExample[1] == 't'
    ensures SecurePurlExample[4] == 's'
    ensures SecurePurlExample[6] == '/'
    ensures SecurePurlExample[7] == '/'
    ensures SecurePurlExample[8] == 'p'
    ensures SecurePurlExample[9] == 'i'
  {
    var v := SecurePurlExample;
    assert v == "http" + v[4..];
  }

  /** The `http://` prefix occurs nowhere in the `https` PURL. */
  lemma SecurePurlLacksPlainPrefix()
    ensures !Contains(SecurePurlExample, PurlPrefix)
  {
    var value := SecurePurlExample;
    SecurePurlExampleCharacters();
    forall j: nat | j + |PurlPrefix| <= |value| ensures !OccursAt(value, PurlPrefix, j) {
      var w := value[j..j + |PurlPrefix|];
      assert w[0] == value[j] && w[4] == value[j + 4];
      assert PurlPrefix[0] == 'h' && PurlPrefix[4] == ':';
    }
  }

  /** An `https` PURL is not recognised: it does not contain the `http://` prefix that is split on. */
  lemma SecurePurlNotRecognised()
    ensures DefaultIdentifierExtraction(SecurePurlExample) == (false, None)
  {
    SecurePurlLacksPlainPrefix();
    SecurePurlExampleCharacters();
    assert OccursAt(SecurePurlExample, "http", 0);
  }

  /** `combine_subfields_into_one_value(subfields)`: the subfield texts joined by single spaces and stripped,
      so the result never starts or ends with whitespace. */
  function Combine(subfields: seq<Subfield>): (r: string)
    ensures r == [] || (!IsSpace(r[0]) && !IsSpace(r[|r| - 1]))
    ensures subfields == [] ==> r == ""
  {
    Strip(Join(Texts(subfields)))
  }

  /** The loop of `combine_subfields_into_one_value`: `" " + text` is appended for every subfield, then the whole is stripped. */
  method CombineSubfields(subfields: seq<Subfield>) returns (r: string)
    ensures r == Combine(subfields)
  {
    var single := "";
    for i := 0 to |subfields|
      invariant single == SpacePrefixed(Texts(subfields)[..i])
    {
      assert Texts(subfields)[..i + 1][..i] == Texts(subfields)[..i];
      single := single + " " + subfields[i].text;
    }
    assert Texts(subfields)[..|subfields|] == Texts(subfields);
    SpacePrefixedIsJoin(Texts(subfields));
    if subfields != [] {
      StripIgnoresLeadingSpace(Join(Texts(subfields)));
    }
    r := Strip(single);
  }

  /** `" ".join(xs)` begins with the first piece and ends with the last one. */
  lemma {:induction false} JoinEnds(xs: seq<string>)
    requires |xs| > 0
    ensures StartsWith(Join(xs), xs[0])
    ensures EndsWith(Join(xs), xs[|xs| - 1])
  {
    if |xs| > 1 {
      var init := xs[..|xs| - 1];
      JoinEnds(init);
      assert init[0] == xs[0];
      assert (Join(init) + " " + xs[|xs| - 1])[..|xs[0]|] == Join(init)[..|xs[0]|];
    }
  }

  /** A string without surrounding whitespace is its own `strip`. */
  lemma StripOfTrimmed(s: string)
    requires s != [] && !IsSpace(s[0]) && !IsSpace(s[|s| - 1])
    ensures Strip(s) == s
  {
  }

  /** When the first text does not start and the last does not end with whitespace, combining the
      subfields is exactly joining their texts with single spaces: nothing is trimmed. */
  lemma CombineOfTrimmedTexts(subfields: seq<Subfield>)
    requires |subfields| > 0
    requires subfields[0].text != "" && !IsSpace(subfields[0].text[0])
    requires var last := subfields[|subfields| - 1].text; last != "" && !IsSpace(last[|last| - 1])
    ensures Combine(subfields) == Join(Texts(subfields))
  {
    var xs := Texts(subfields);
    JoinEnds(xs);
    var j := Join(xs);
    assert j[0] == xs[0][0];
    var last := xs[|xs| - 1];
    assert j[|j| - 1] == j[|j| - |last|..][|last| - 1];
    StripOfTrimmed(j);
  }

  /** The description of the test record: "1 online resource (1 map) :" and "col." combine to
      "1 online resource (1 map) : col.". */
  lemma CombineExample()
    ensures Combine([Subfield("a", "1 online resource (1 map) :"), Subfield("b", "col.")])
            == "1 online resource (1 map) : col."
  {
    var subfields := [Subfield("a", "1 online resource (1 map) :"), Subfield("b", "col.")];
    assert Texts(subfields) == ["1 online resource (1 map) :", "col."];
    CombineOfTrimmedTexts(subfields);
  }
}
