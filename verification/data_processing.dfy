/**
 * MIME-type detection and parser dispatch (hospital_info/data_processing.py).
 * The JSON and XML parsers themselves are foreign; the model records which
 * one receives the text.
 */
module DataProcessing {
  import opened Wrappers

  const Json := "application/json"
  const Xml := "application/xml"

  /** The supported MIME types, in the order they are tried. */
  const MimeTypes: seq<string> := [Json, Xml]

  /**
   * `re.match(pattern, s).group()` for a pattern without metacharacters:
   * an anchored, case-sensitive prefix test whose match is the pattern itself.
   */
  function MatchPrefix(pattern: string, s: string): (r: Option<string>)
    ensures r.Some? <==> pattern <= s
    ensures r.Some? ==> r.value == pattern
  {
    if |pattern| <= |s| && s[..|pattern|] == pattern then Some(pattern) else None
  }

  /** The first of `types` that `s` starts with. */
  function FirstPrefix(types: seq<string>, s: string): (r: Option<string>)
    ensures r.Some? ==> r.value in types && r.value <= s
    ensures r.None? <==> forall t :: t in types ==> !(t <= s)
  {
    if types == [] then None
    else if types[0] <= s then Some(types[0])
    else
      assert forall t :: t in types ==> t == types[0] || t in types[1..];
      FirstPrefix(types[1..], s)
  }

  /** `_check_content_type`: try each MIME type in turn, stopping at the first that matches. */
  method CheckContentType(contentType: string) returns (r: Option<string>)
    ensures r == FirstPrefix(MimeTypes, contentType)
  {
    var mimeTypes := MimeTypes;
    r := None;
    for i := 0 to |mimeTypes|
      invariant r.None?
      invariant FirstPrefix(mimeTypes, contentType) == FirstPrefix(mimeTypes[i..], contentType)
    {
      r := MatchPrefix(mimeTypes[i], contentType);
      if r.Some? {
        break;
      }
      assert mimeTypes[i..][1..] == mimeTypes[i + 1..];
    }
  }

  /**
   * The detected type: JSON when the content type starts with
   * "application/json", XML when it starts with "application/xml" and not
   * with the JSON type, None otherwise; whatever follows the type (such as
   * "; charset=utf-8") is ignored.
   */
  lemma ContentTypeCases(ct: string)
    ensures FirstPrefix(MimeTypes, ct) == Some(Json) <==> Json <= ct
    ensures FirstPrefix(MimeTypes, ct) == Some(Xml) <==> Xml <= ct && !(Json <= ct)
    ensures FirstPrefix(MimeTypes, ct).None? <==> !(Json <= ct) && !(Xml <= ct)
    ensures forall suffix :: FirstPrefix(MimeTypes, Json + suffix) == Some(Json)
    ensures forall suffix :: FirstPrefix(MimeTypes, Xml + suffix) == Some(Xml)
  {
    assert MimeTypes[1..] == [Xml];
    JsonXmlDisjoint(ct);
    forall suffix ensures FirstPrefix(MimeTypes, Json + suffix) == Some(Json) {
      assert (Json + suffix)[..|Json|] == Json;
    }
    forall suffix ensures FirstPrefix(MimeTypes, Xml + suffix) == Some(Xml) {
      assert (Xml + suffix)[..|Xml|] == Xml;
      JsonXmlDisjoint(Xml + suffix);
    }
  }

  /** No content type starts with both: they differ at index 12, so the order they are tried in never matters. */
  lemma JsonXmlDisjoint(ct: string)
    ensures !(Json <= ct && Xml <= ct)
  {
    assert Json[12] == 'j' && Xml[12] == 'x';
  }

  /** The match is case-sensitive: an upper-case type is not recognised. */
  lemma CaseSensitive()
    ensures FirstPrefix(MimeTypes, "Application/json").None?
    ensures FirstPrefix(MimeTypes, "APPLICATION/XML").None?
  {
    assert "Application/json"[0] != Json[0];
    assert "APPLICATION/XML"[0] != Json[0] && "APPLICATION/XML"[0] != Xml[0];
  }

  /** Which foreign parser `auto_text_to_dict` hands the text to. */
  datatype Conversion = JsonToDict(text: string) | XmlToDict(text: string)

  /**
   * `auto_text_to_dict`: None for an unsupported type (nothing is parsed);
   * otherwise the unchanged text goes to `json_to_dict` or `xml_to_dict`.
   */
  function AutoTextToDict(text: string, contentType: string): (r: Option<Conversion>)
    ensures r.None? <==> FirstPrefix(MimeTypes, contentType).None?
    ensures r == Some(JsonToDict(text)) <==> Json <= contentType
    ensures r == Some(XmlToDict(text)) <==> Xml <= contentType && !(Json <= contentType)
  {
    ContentTypeCases(contentType);
    var t := FirstPrefix(MimeTypes, contentType);
    if t.None? then None
    else if t.value == Json then Some(JsonToDict(text))
    else Some(XmlToDict(text))
  }
}
