/**
  The content classification of `get_content_type` (src/main.py and main.py). The HEAD request,
  `mimetypes.guess_type` and the `mimetypes` extension table are inputs; what remains is the
  decision between `page`, `document` and the empty pair.
 */
module Classify {
  import opened Wrappers
  import opened Text

  /** The two values of `content_type_detected`. */
  datatype ContentKind = Document | Page

  /**
    What the HEAD request gave: it raised a `RequestException`, or it answered and the
    `Content-Type` header had this value (`None` when the header is absent).
   */
  datatype Probe = HeadFailed | HeadAnswered(contentType: Option<string>)

  /** The returned pair: `("", "")`, or a kind and the extension with its leading dot. */
  datatype Classification = Unclassified | Classified(kind: ContentKind, ext: string)

  /**
    The media type of a non-empty `Content-Type` value: the text before the first `;`, stripped of
    surrounding whitespace and lower-cased (section 8.3.1 of RFC 9110 puts the parameters after
    the `;`).
   */
  function MediaType(header: string): (t: string)
    ensures ';' !in t
    ensures forall i :: 0 <= i < |t| ==> !IsAsciiUpper(t[i])
    ensures t == [] || (t[0] !in Whitespace && t[|t| - 1] !in Whitespace)
  {
    Lower(Strip(BeforeFirst(header, ';'), Whitespace))
  }

  /**
    Whitespace around the type and the parameters after the first `;` are removed and the type is
    lower-cased: `"  Text/HTML ; charset=utf-8"` has the media type `text/html`.
   */
  lemma MediaTypeOfPadded(w1: string, t: string, w2: string, parameters: string)
    requires forall i :: 0 <= i < |w1| ==> w1[i] in Whitespace
    requires forall i :: 0 <= i < |w2| ==> w2[i] in Whitespace
    requires ';' !in t
    requires t == [] || (t[0] !in Whitespace && t[|t| - 1] !in Whitespace)
    ensures MediaType(w1 + t + w2 + ";" + parameters) == Lower(t)
  {
    var padded := w1 + t + w2;
    assert ';' !in padded by {
      assert ';' !in Whitespace;
      assert forall i :: 0 <= i < |padded| ==> padded[i] != ';' by {
        forall i | 0 <= i < |padded|
          ensures padded[i] != ';'
        {
          if i < |w1| {
            assert padded[i] == w1[i];
          } else if i < |w1| + |t| {
            assert padded[i] == t[i - |w1|];
          } else {
            assert padded[i] == w2[i - |w1| - |t|];
          }
        }
      }
    }
    assert padded + ";" + parameters == padded + [';'] + parameters;
    BeforeFirstOfPrepend(padded, parameters, ';');
    StripPadded(w1, t, w2, Whitespace);
  }

  /** Parameters after the first `;` play no part in the media type. */
  lemma MediaTypeIgnoresParameters(t: string, parameters: string)
    requires ';' !in t
    ensures MediaType(t + ";" + parameters) == MediaType(t)
  {
    BeforeFirstOfPrepend(t, parameters, ';');
    assert t + ";" + parameters == t + [';'] + parameters;
    assert BeforeFirst(t, ';') == t;
  }

  /** A type without `;`, upper-case letters or surrounding whitespace is its own media type. */
  lemma MediaTypeOfNormal(t: string)
    requires ';' !in t
    requires forall i :: 0 <= i < |t| ==> !IsAsciiUpper(t[i])
    requires t == [] || (t[0] !in Whitespace && t[|t| - 1] !in Whitespace)
    ensures MediaType(t) == t
    ensures Lower(t) == t
  {
    assert BeforeFirst(t, ';') == t;
    StripUnchanged(t, Whitespace);
    assert Lower(t) == t;
  }

  /** A media type is already in normal form: selecting it again gives it back. */
  lemma MediaTypeIdempotent(header: string)
    ensures MediaType(MediaType(header)) == MediaType(header)
  {
    MediaTypeOfNormal(MediaType(header));
  }

  /**
    The media type the extension is looked up for: the normalised header when it is non-empty,
    otherwise the guess from the URL (which may be `None`).
   */
  function SelectedType(header: Option<string>, guessed: Option<string>): (t: Option<string>)
    ensures t.None? <==> !Truthy(header) && guessed.None?
    ensures !Truthy(header) ==> t == guessed
    ensures Truthy(header) ==> t.value == MediaType(header.value)
  {
    if Truthy(header) then Some(MediaType(header.value)) else guessed
  }

  /** `mimetypes.guess_extension(t)`: the table, consulted with the type lower-cased. */
  function GuessExtension(table: map<string, string>, t: string): (ext: Option<string>)
    ensures ext.Some? <==> Lower(t) in table
    ensures ext.Some? ==> ext.value == table[Lower(t)]
  {
    var key := Lower(t);
    if key in table then Some(table[key]) else None
  }

  /** The kind an extension stands for: `.html` is a page, any other non-empty extension a document. */
  function KindOf(ext: Option<string>): (c: Classification)
    ensures c.Classified? <==> Truthy(ext)
    ensures c.Classified? ==> c.ext == ext.value && (c.kind == Page <==> c.ext == ".html")
  {
    if Truthy(ext) then Classified(if ext.value == ".html" then Page else Document, ext.value)
    else Unclassified
  }

  /**
    `get_content_type(url)`. A failed HEAD gives the empty pair. A response with no usable header
    and a URL `mimetypes` cannot guess hands `None` to `guess_extension`, whose `AttributeError`
    escapes: that is the `Raised` case.
   */
  function ContentType(probe: Probe, guessed: Option<string>, table: map<string, string>): (r: Result<Classification, string>)
    ensures probe.HeadFailed? ==> r == Ok(Unclassified)
    ensures r.Raised? <==> probe.HeadAnswered? && !Truthy(probe.contentType) && guessed.None?
    ensures r.Ok? && r.value.Classified? ==>
      r.value.ext != "" && (r.value.kind == Page <==> r.value.ext == ".html")
    ensures probe.HeadAnswered? && Truthy(probe.contentType) ==>
      r == Ok(KindOf(GuessExtension(table, MediaType(probe.contentType.value))))
    ensures probe.HeadAnswered? && !Truthy(probe.contentType) && guessed.Some? ==>
      r == Ok(KindOf(GuessExtension(table, guessed.value)))
  {
    match probe
    case HeadFailed => Ok(Unclassified)
    case HeadAnswered(header) =>
      match SelectedType(header, guessed)
      case None => Raised("'NoneType' object has no attribute 'lower'")
      case Some(t) => Ok(KindOf(GuessExtension(table, t)))
  }

  /** A `Content-Type` with parameters classifies like its bare media type. */
  lemma ParametersDoNotChangeKind(t: string, parameters: string, guessed: Option<string>, table: map<string, string>)
    requires ';' !in t && t != ""
    ensures ContentType(HeadAnswered(Some(t + ";" + parameters)), guessed, table) ==
            ContentType(HeadAnswered(Some(t)), guessed, table)
  {
    MediaTypeIgnoresParameters(t, parameters);
  }

  /** `application/pdf` is already a media type in normal form. */
  lemma PdfMediaTypeIsNormal()
    ensures ';' !in "application/pdf"
    ensures MediaType("application/pdf") == "application/pdf"
    ensures Lower("application/pdf") == "application/pdf"
  {
    var t := "application/pdf";
    assert forall i :: 0 <= i < |t| ==> t[i] != ';' && !IsAsciiUpper(t[i]);
    MediaTypeOfNormal(t);
  }

  /** `Content-Type: application/pdf` with any parameters, and `.pdf` in the table, classifies as a document. */
  lemma PdfExample(parameters: string, guessed: Option<string>)
    ensures ContentType(HeadAnswered(Some("application/pdf" + ";" + parameters)), guessed,
                        map["application/pdf" := ".pdf"]) == Ok(Classified(Document, ".pdf"))
  {
    var table := map["application/pdf" := ".pdf"];
    PdfMediaTypeIsNormal();
    ParametersDoNotChangeKind("application/pdf", parameters, guessed, table);
    assert GuessExtension(table, "application/pdf") == Some(".pdf");
  }
}
