/** The request-building and response-parsing side of the image-generation
    client: the data-URI parser for the reference image, the style-prefixed
    prompt, the ordered parts list sent to the API and the scan of its
    response for the first inline image. The network call itself is an input
    (`Reply`). */
module GeminiService {
  import opened JsText

  // ---------------------------------------------------------------------
  // Options and wire data

  /** The three selectable aspect ratios "16:9", "9:16" and "1:1". */
  datatype AspectRatio = Wide | Tall | Square

  /** The four selectable styles; `NoStyle` is the one spelled "None". */
  datatype ImageStyle = Cinematic | ThreeD | Animation | NoStyle

  /** The string value of a style, as interpolated into the prompt. */
  function StyleName(style: ImageStyle): (name: Text)
    ensures |name| > 0
  {
    match style
    case Cinematic => Lit("Cinematic")
    case ThreeD => Lit("3D Style")
    case Animation => Lit("Animation")
    case NoStyle => Lit("None")
  }

  /** `{ mimeType, data }` of an inline (base64) image. */
  datatype InlineData = InlineData(mimeType: Text, data: Text)

  /** A content part: `{ text?, inlineData? }`. */
  datatype Part = Part(text: Option<Text>, inlineData: Option<InlineData>)

  /** What is sent to the API: the ordered parts and the requested aspect ratio. */
  datatype Request = Request(parts: seq<Part>, aspectRatio: AspectRatio)

  /** The response shape the scan reads: `candidates?[i].content?.parts?`. */
  datatype Content = Content(parts: Option<seq<Part>>)
  datatype Candidate = Candidate(content: Option<Content>)
  datatype Response = Response(candidates: Option<seq<Candidate>>)

  /** How the awaited API call settles: with a response, or by throwing. */
  datatype Reply = Answered(response: Response) | Rejected(thrown: Thrown)

  const INVALID_IMAGE_MESSAGE := Lit("Invalid base64 image data")
  const NO_INPUT_MESSAGE := Lit("Prompt or reference image must be provided.")
  const NO_IMAGE_MESSAGE := Lit("No image was generated. The prompt may have been blocked.")

  /** The message of the TypeError raised when `undefined.<property>` is
      read. Its wording is the JavaScript engine's own; this is V8's. */
  function ReadOfUndefinedMessage(property: Text): Text {
    Lit("Cannot read properties of undefined (reading '") + property + Lit("')")
  }

  // ---------------------------------------------------------------------
  // Data URIs: the pattern ^data:(image\/\w+);base64,(.*)$

  const DATA_SCHEME := Lit("data:")
  const IMAGE_TYPE := Lit("image/")
  const BASE64_MARKER := Lit(";base64,")

  /** `\w` without the `u` flag: `[A-Za-z0-9_]`. */
  predicate IsWordUnit(c: CodeUnit) {
    ('A' as int <= c as int <= 'Z' as int) || ('a' as int <= c as int <= 'z' as int)
    || ('0' as int <= c as int <= '9' as int) || c as int == '_' as int
  }

  predicate AllWordUnits(s: Text) {
    forall i :: 0 <= i < |s| ==> IsWordUnit(s[i])
  }

  /** What `.` does not match: LF, CR, LINE SEPARATOR and PARAGRAPH SEPARATOR. */
  predicate IsLineTerminator(c: CodeUnit) {
    c == 0x0A || c == 0x0D || c == 0x2028 || c == 0x2029
  }

  predicate NoLineTerminator(s: Text) {
    forall i :: 0 <= i < |s| ==> !IsLineTerminator(s[i])
  }

  /** Inline data the pattern can produce: the mime type is `image/`
      followed by one or more word units, and the payload has no line
      terminator. */
  predicate WellFormedImageData(x: InlineData) {
    |x.mimeType| > |IMAGE_TYPE| && x.mimeType[..|IMAGE_TYPE|] == IMAGE_TYPE
    && AllWordUnits(x.mimeType[|IMAGE_TYPE|..]) && NoLineTerminator(x.data)
  }

  /** `data:${mimeType};base64,${data}`, the URI built from a response part. */
  function FormatDataUri(x: InlineData): Text {
    DATA_SCHEME + x.mimeType + BASE64_MARKER + x.data
  }

  /** The length of the longest prefix of `s` made of word units: how far
      the greedy `\w+` reaches. */
  function WordRunLength(s: Text): (n: nat)
    ensures n <= |s|
    ensures AllWordUnits(s[..n])
    ensures n < |s| ==> !IsWordUnit(s[n])
  {
    if |s| == 0 || !IsWordUnit(s[0]) then 0 else 1 + WordRunLength(s[1..])
  }

  /** `fileToGenerativePart`: match the reference image against the data-URI
      pattern and return its mime type and payload, or throw. Because `\w`
      cannot match `;`, the greedy `\w+` never needs to backtrack, so
      matching is this single left-to-right pass. */
  function ParseDataUri(s: Text): (r: Outcome<InlineData>)
    ensures r.Ok? ==> WellFormedImageData(r.value) && FormatDataUri(r.value) == s
    ensures r.Fail? ==> r.thrown == ErrorWith(INVALID_IMAGE_MESSAGE)
  {
    var prefix := DATA_SCHEME + IMAGE_TYPE;
    if |s| < |prefix| || s[..|prefix|] != prefix then Fail(ErrorWith(INVALID_IMAGE_MESSAGE))
    else
      var rest := s[|prefix|..];
      var n := WordRunLength(rest);
      var tail := rest[n..];
      if n == 0 || |tail| < |BASE64_MARKER| || tail[..|BASE64_MARKER|] != BASE64_MARKER then
        Fail(ErrorWith(INVALID_IMAGE_MESSAGE))
      else
        var data := tail[|BASE64_MARKER|..];
        if !NoLineTerminator(data) then Fail(ErrorWith(INVALID_IMAGE_MESSAGE))
        else
          var x := InlineData(IMAGE_TYPE + rest[..n], data);
          assert x.mimeType[..|IMAGE_TYPE|] == IMAGE_TYPE && x.mimeType[|IMAGE_TYPE|..] == rest[..n];
          assert s == prefix + rest && rest == rest[..n] + tail && tail == BASE64_MARKER + data;
          Ok(x)
  }

  /** The word run of `w + t` stops exactly at the end of `w` when `w` is
      all word units and `t` does not start with one. */
  lemma WordRunStopsAt(w: Text, t: Text)
    requires AllWordUnits(w)
    requires |t| > 0 ==> !IsWordUnit(t[0])
    ensures WordRunLength(w + t) == |w|
  {
    assert forall i :: 0 <= i < |w| ==> (w + t)[i] == w[i];
    if |t| > 0 {
      assert (w + t)[|w|] == t[0];
    }
  }

  /** Round trip: the URI formatted from well-formed inline data parses back
      to exactly that data. */
  lemma ParseFormatRoundTrip(x: InlineData)
    requires WellFormedImageData(x)
    ensures ParseDataUri(FormatDataUri(x)) == Ok(x)
  {
    var w := x.mimeType[|IMAGE_TYPE|..];
    var s := FormatDataUri(x);
    var prefix := DATA_SCHEME + IMAGE_TYPE;
    assert x.mimeType == IMAGE_TYPE + w;
    assert s == prefix + (w + BASE64_MARKER + x.data);
    assert s[..|prefix|] == prefix;
    var rest := s[|prefix|..];
    assert rest == w + (BASE64_MARKER + x.data);
    assert BASE64_MARKER[0] as int == ';' as int;
    WordRunStopsAt(w, BASE64_MARKER + x.data);
    assert rest[..|w|] == w;
    assert rest[|w|..] == BASE64_MARKER + x.data;
  }

  /** `fileToGenerativePart` succeeds exactly on the URIs that some
      well-formed inline data formats to; on every other string it throws
      'Invalid base64 image data'. */
  lemma ParseDataUriAccepts(s: Text)
    ensures ParseDataUri(s).Ok? <==> exists x :: WellFormedImageData(x) && FormatDataUri(x) == s
    ensures ParseDataUri(s).Fail? ==> ParseDataUri(s).thrown.message == INVALID_IMAGE_MESSAGE
  {
    if x :| WellFormedImageData(x) && FormatDataUri(x) == s {
      ParseFormatRoundTrip(x);
    }
  }

  /** How many units come before the first `;` (all of them when there is none). */
  function UnitsBeforeSemicolon(s: Text): (n: nat)
    ensures n <= |s|
  {
    if |s| == 0 || s[0] as int == ';' as int then 0 else 1 + UnitsBeforeSemicolon(s[1..])
  }

  /** In `v + ";base64," + a` the first `;` is at most at `|v|`, and exactly
      there when `v` holds none. */
  lemma {:induction false} SemicolonBeforeMarker(v: Text, a: Text)
    ensures UnitsBeforeSemicolon(v + (BASE64_MARKER + a)) <= |v|
    ensures (forall i :: 0 <= i < |v| ==> v[i] as int != ';' as int) ==>
      UnitsBeforeSemicolon(v + (BASE64_MARKER + a)) == |v|
  {
    var s := v + (BASE64_MARKER + a);
    if v == [] {
      assert s[0] == BASE64_MARKER[0] && BASE64_MARKER[0] as int == ';' as int;
    } else {
      assert s[0] == v[0] && s[1..] == v[1..] + (BASE64_MARKER + a);
      SemicolonBeforeMarker(v[1..], a);
    }
  }

  /** The units of a URI after `data:image/` and before the first `;` are
      all word units. */
  predicate WordSubtype(rest: Text) {
    AllWordUnits(rest[..UnitsBeforeSemicolon(rest)])
  }

  /** Every URI that well-formed data formats to has a word-only subtype. */
  lemma FormattedSubtypeIsWord(x: InlineData)
    requires WellFormedImageData(x)
    ensures |FormatDataUri(x)| >= |DATA_SCHEME + IMAGE_TYPE|
    ensures FormatDataUri(x)[..|DATA_SCHEME + IMAGE_TYPE|] == DATA_SCHEME + IMAGE_TYPE
    ensures WordSubtype(FormatDataUri(x)[|DATA_SCHEME + IMAGE_TYPE|..])
  {
    var prefix := DATA_SCHEME + IMAGE_TYPE;
    var w := x.mimeType[|IMAGE_TYPE|..];
    assert x.mimeType == IMAGE_TYPE + w;
    var rest := w + (BASE64_MARKER + x.data);
    assert FormatDataUri(x) == prefix + rest;
    assert FormatDataUri(x)[|prefix|..] == rest;
    SemicolonBeforeMarker(w, x.data);
    assert rest[..|w|] == w;
  }

  /** A subtype with a non-word unit and no `;` (such as `svg+xml`) is
      rejected, whatever the payload. */
  lemma {:induction false} NonWordSubtypeRejected(subtype: Text, data: Text)
    requires !AllWordUnits(subtype)
    requires forall i :: 0 <= i < |subtype| ==> subtype[i] as int != ';' as int
    ensures ParseDataUri(DATA_SCHEME + IMAGE_TYPE + subtype + BASE64_MARKER + data).Fail?
  {
    var prefix := DATA_SCHEME + IMAGE_TYPE;
    var s := DATA_SCHEME + IMAGE_TYPE + subtype + BASE64_MARKER + data;
    var rest := subtype + (BASE64_MARKER + data);
    assert s == prefix + rest && s[|prefix|..] == rest;
    SemicolonBeforeMarker(subtype, data);
    assert rest[..|subtype|] == subtype;
    assert !WordSubtype(s[|prefix|..]);
    forall x | WellFormedImageData(x)
      ensures FormatDataUri(x) != s
    {
      FormattedSubtypeIsWord(x);
    }
    ParseDataUriAccepts(s);
  }

  /** A URI (after `data:`) whose text before the first `;` starts with `image/`. */
  predicate ImageMime(u: Text) {
    UnitsBeforeSemicolon(u) >= |IMAGE_TYPE| && u[..|IMAGE_TYPE|] == IMAGE_TYPE
  }

  /** None of the units of `image/` is `;`. */
  lemma ImageTypeHasNoSemicolon()
    ensures forall i :: 0 <= i < |IMAGE_TYPE| ==> IMAGE_TYPE[i] as int != ';' as int
  {
    assert IMAGE_TYPE[0] as int == 'i' as int && IMAGE_TYPE[1] as int == 'm' as int;
    assert IMAGE_TYPE[2] as int == 'a' as int && IMAGE_TYPE[3] as int == 'g' as int;
    assert IMAGE_TYPE[4] as int == 'e' as int && IMAGE_TYPE[5] as int == '/' as int;
  }

  /** Every URI that well-formed data formats to names an image mime type. */
  lemma FormattedMimeIsImage(x: InlineData)
    requires WellFormedImageData(x)
    ensures ImageMime(FormatDataUri(x)[|DATA_SCHEME|..])
  {
    var m := x.mimeType;
    var u := m + (BASE64_MARKER + x.data);
    assert FormatDataUri(x) == DATA_SCHEME + u;
    assert FormatDataUri(x)[|DATA_SCHEME|..] == u;
    ImageTypeHasNoSemicolon();
    assert m == IMAGE_TYPE + m[|IMAGE_TYPE|..];
    assert forall i :: 0 <= i < |m| ==> m[i] as int != ';' as int;
    SemicolonBeforeMarker(m, x.data);
    assert u[..|IMAGE_TYPE|] == m[..|IMAGE_TYPE|];
  }

  /** A mime type that does not start with `image/` is rejected. */
  lemma NonImageMimeRejected(mime: Text, data: Text)
    requires !(|mime| >= |IMAGE_TYPE| && mime[..|IMAGE_TYPE|] == IMAGE_TYPE)
    ensures ParseDataUri(FormatDataUri(InlineData(mime, data))).Fail?
  {
    var s := FormatDataUri(InlineData(mime, data));
    var u := mime + (BASE64_MARKER + data);
    assert s == DATA_SCHEME + u && s[|DATA_SCHEME|..] == u;
    SemicolonBeforeMarker(mime, data);
    assert |mime| >= |IMAGE_TYPE| ==> u[..|IMAGE_TYPE|] == mime[..|IMAGE_TYPE|];
    assert !ImageMime(u);
    forall x | WellFormedImageData(x)
      ensures FormatDataUri(x) != s
    {
      FormattedMimeIsImage(x);
    }
    ParseDataUriAccepts(s);
  }

  /** Without `;base64,` right after the word run, the URI is rejected
      (for instance `data:image/png,AAAA` or `data:image/png`). */
  lemma MissingMarkerRejected(w: Text, tail: Text)
    requires |w| > 0 && AllWordUnits(w)
    requires |tail| > 0 ==> !IsWordUnit(tail[0])
    requires !(|tail| >= |BASE64_MARKER| && tail[..|BASE64_MARKER|] == BASE64_MARKER)
    ensures ParseDataUri(DATA_SCHEME + IMAGE_TYPE + w + tail).Fail?
  {
    var prefix := DATA_SCHEME + IMAGE_TYPE;
    var s := DATA_SCHEME + IMAGE_TYPE + w + tail;
    assert s == prefix + (w + tail);
    assert s[..|prefix|] == prefix && s[|prefix|..] == w + tail;
    WordRunStopsAt(w, tail);
    assert (w + tail)[|w|..] == tail;
  }

  /** The SVG mime type, whose subtype holds `+`, is not accepted. */
  lemma SvgRejected(data: Text)
    ensures ParseDataUri(Lit("data:image/svg+xml;base64,") + data).Fail?
  {
    var svg := Lit("svg+xml");
    assert !IsWordUnit(svg[3]);
    assert Lit("data:image/svg+xml;base64,") == DATA_SCHEME + IMAGE_TYPE + svg + BASE64_MARKER;
    NonWordSubtypeRejected(svg, data);
  }

  // ---------------------------------------------------------------------
  // The request

  /** `fullPrompt`: the raw prompt for "None", and otherwise the style name
      and the literal " style, " in front of it. */
  function FullPrompt(style: ImageStyle, prompt: Text): (full: Text)
    ensures |full| >= |prompt| && full[|full| - |prompt|..] == prompt
    ensures style == NoStyle ==> full == prompt
    ensures style != NoStyle ==>
      (|full| == |StyleName(style)| + 8 + |prompt|
       && full[..|StyleName(style)|] == StyleName(style)
       && full[|StyleName(style)|..|StyleName(style)| + 8] == Lit(" style, "))
  {
    if style == NoStyle then prompt else StyleName(style) + Lit(" style, ") + prompt
  }

  /** The effective prompt is empty exactly when there is no style and the
      user typed nothing; with any other style it always carries text. */
  lemma FullPromptEmptyIff(style: ImageStyle, prompt: Text)
    ensures FullPrompt(style, prompt) == [] <==> style == NoStyle && prompt == []
  {
  }

  /** Prefixing the style loses nothing: the effective prompt determines the
      user's prompt. */
  lemma FullPromptInjective(style: ImageStyle, p: Text, q: Text)
    requires FullPrompt(style, p) == FullPrompt(style, q)
    ensures p == q
  {
    var f := FullPrompt(style, p);
    assert |p| == |q|;
    assert p == f[|f| - |p|..] == q;
  }

  function TextPart(text: Text): Part {
    Part(Some(text), None)
  }

  function ImagePart(x: InlineData): Part {
    Part(None, Some(x))
  }

  /** How many parts the request holds: one for a truthy reference image,
      one for a non-empty effective prompt. */
  function ExpectedPartCount(hasImage: bool, full: Text): nat {
    (if hasImage then 1 else 0) + (if full != [] then 1 else 0)
  }

  /** `parts` is the list `generateImage` sends for these inputs: the
      parsed reference image first when it is truthy, the effective prompt
      last when it is non-empty, and nothing else. */
  predicate PartsFor(prompt: Text, style: ImageStyle, referenceImage: Option<Text>, parts: seq<Part>) {
    |parts| == ExpectedPartCount(Truthy(referenceImage), FullPrompt(style, prompt))
    && 1 <= |parts| <= 2
    && (Truthy(referenceImage) ==>
          ParseDataUri(referenceImage.value).Ok?
          && parts[0] == ImagePart(ParseDataUri(referenceImage.value).value))
    && (parts[0].inlineData.Some? <==> Truthy(referenceImage))
    && (FullPrompt(style, prompt) != [] ==> parts[|parts| - 1] == TextPart(FullPrompt(style, prompt)))
    && (parts[|parts| - 1].text.Some? <==> FullPrompt(style, prompt) != [])
  }

  /** The parts list of `generateImage`, pushed in order: the reference
      image (when truthy, parsed, possibly throwing), then the effective
      prompt (when non-empty); an empty list throws. */
  method BuildParts(prompt: Text, style: ImageStyle, referenceImage: Option<Text>)
    returns (r: Outcome<seq<Part>>)
    ensures Truthy(referenceImage) && ParseDataUri(referenceImage.value).Fail? ==>
      r == Fail(ErrorWith(INVALID_IMAGE_MESSAGE))
    ensures !Truthy(referenceImage) && FullPrompt(style, prompt) == [] ==>
      r == Fail(ErrorWith(NO_INPUT_MESSAGE))
    ensures r.Fail? ==>
      (Truthy(referenceImage) && ParseDataUri(referenceImage.value).Fail?)
      || (!Truthy(referenceImage) && FullPrompt(style, prompt) == [])
    ensures r.Ok? ==> PartsFor(prompt, style, referenceImage, r.value)
  {
    var fullPrompt := FullPrompt(style, prompt);
    var parts: seq<Part> := [];
    if Truthy(referenceImage) {
      var image := ParseDataUri(referenceImage.value);
      if image.Fail? {
        return Fail(image.thrown);
      }
      parts := parts + [ImagePart(image.value)];
    }
    if fullPrompt != [] {
      parts := parts + [TextPart(fullPrompt)];
    }
    if |parts| == 0 {
      return Fail(ErrorWith(NO_INPUT_MESSAGE));
    }
    return Ok(parts);
  }

  /** 'Prompt or reference image must be provided.' is thrown exactly when
      there is no reference image, the style is "None" and the prompt is
      empty. */
  lemma NoInputIff(prompt: Text, style: ImageStyle, referenceImage: Option<Text>)
    ensures (!Truthy(referenceImage) && FullPrompt(style, prompt) == [])
      <==> (!Truthy(referenceImage) && style == NoStyle && prompt == [])
  {
    FullPromptEmptyIff(style, prompt);
  }

  // ---------------------------------------------------------------------
  // The response

  predicate HasInlineImage(parts: seq<Part>) {
    exists i :: 0 <= i < |parts| && parts[i].inlineData.Some?
  }

  /** `uri` is the data URI of the first part that carries inline data. */
  predicate IsFirstImageUri(parts: seq<Part>, uri: Text) {
    exists k ::
      (0 <= k < |parts| && parts[k].inlineData.Some?
       && (forall i :: 0 <= i < k ==> parts[i].inlineData.None?)
       && uri == FormatDataUri(parts[k].inlineData.value))
  }

  /** Only one URI is the first: two parts with inline data cannot both win. */
  lemma FirstImageUriUnique(parts: seq<Part>, u: Text, v: Text)
    requires IsFirstImageUri(parts, u) && IsFirstImageUri(parts, v)
    ensures u == v
  {
    var k :| 0 <= k < |parts| && parts[k].inlineData.Some?
      && (forall i :: 0 <= i < k ==> parts[i].inlineData.None?)
      && u == FormatDataUri(parts[k].inlineData.value);
    var l :| 0 <= l < |parts| && parts[l].inlineData.Some?
      && (forall i :: 0 <= i < l ==> parts[i].inlineData.None?)
      && v == FormatDataUri(parts[l].inlineData.value);
    assert !(k < l) && !(l < k);
  }

  /** Parts after the first inline image do not change the result. */
  lemma LaterPartsIgnored(parts: seq<Part>, later: seq<Part>, uri: Text)
    requires IsFirstImageUri(parts, uri)
    ensures IsFirstImageUri(parts + later, uri)
  {
    var k :| 0 <= k < |parts| && parts[k].inlineData.Some?
      && (forall i :: 0 <= i < k ==> parts[i].inlineData.None?)
      && uri == FormatDataUri(parts[k].inlineData.value);
    assert (parts + later)[k] == parts[k];
    assert forall i :: 0 <= i < k ==> (parts + later)[i] == parts[i];
  }

  /** The loop over `candidates[0].content.parts`: the URI of the first part
      that carries inline data; later parts are ignored. */
  method FirstImageUri(parts: seq<Part>) returns (uri: Option<Text>)
    ensures uri.None? <==> !HasInlineImage(parts)
    ensures uri.Some? ==> IsFirstImageUri(parts, uri.value)
  {
    var i := 0;
    while i < |parts|
      invariant 0 <= i <= |parts|
      invariant forall j :: 0 <= j < i ==> parts[j].inlineData.None?
    {
      if parts[i].inlineData.Some? {
        return Some(FormatDataUri(parts[i].inlineData.value));
      }
      i := i + 1;
    }
    return None;
  }

  /** `r` is how `generateImage` settles for `response`, case by case. */
  predicate ResponseYields(response: Response, r: Outcome<Text>) {
    (response.candidates.None? ==> r == Fail(ErrorWith(NO_IMAGE_MESSAGE)))
    && (response.candidates == Some([]) ==> r == Fail(ErrorWith(ReadOfUndefinedMessage(Lit("content")))))
    && (response.candidates.Some? && |response.candidates.value| > 0 ==>
          var first := response.candidates.value[0];
          (first.content.None? ==> r == Fail(ErrorWith(ReadOfUndefinedMessage(Lit("parts")))))
          && (first.content.Some? && first.content.value.parts.None? ==> r == Fail(ErrorWith(NO_IMAGE_MESSAGE)))
          && (first.content.Some? && first.content.value.parts.Some? ==>
                var parts := first.content.value.parts.value;
                (r.Ok? <==> HasInlineImage(parts))
                && (!HasInlineImage(parts) ==> r == Fail(ErrorWith(NO_IMAGE_MESSAGE)))
                && (r.Ok? ==> IsFirstImageUri(parts, r.value))))
  }

  /** A response settles `generateImage` in exactly one way. */
  lemma ResponseYieldsUnique(response: Response, r: Outcome<Text>, r': Outcome<Text>)
    requires ResponseYields(response, r) && ResponseYields(response, r')
    ensures r == r'
  {
    if response.candidates.Some? && |response.candidates.value| > 0 {
      var first := response.candidates.value[0];
      if first.content.Some? && first.content.value.parts.Some? && r.Ok? {
        FirstImageUriUnique(first.content.value.parts.value, r.value, r'.value);
      }
    }
  }

  /** The response half of `generateImage`: the URI of the first inline
      image of the first candidate; 'No image was generated…' when the
      candidates or the parts are absent or no part has inline data; a
      TypeError when the candidate list is empty or its first entry has no
      content. */
  method ParseResponse(response: Response) returns (r: Outcome<Text>)
    ensures ResponseYields(response, r)
  {
    if response.candidates.Some? {
      var candidates := response.candidates.value;
      if |candidates| == 0 {
        return Fail(ErrorWith(ReadOfUndefinedMessage(Lit("content"))));
      }
      if candidates[0].content.None? {
        return Fail(ErrorWith(ReadOfUndefinedMessage(Lit("parts"))));
      }
      if candidates[0].content.value.parts.Some? {
        var uri := FirstImageUri(candidates[0].content.value.parts.value);
        if uri.Some? {
          return Ok(uri.value);
        }
      }
    }
    return Fail(ErrorWith(NO_IMAGE_MESSAGE));
  }

  /** `generateImage(prompt, aspectRatio, style, referenceImage)`: build the
      parts (throwing before any request on a malformed image or on empty
      input), send them with the aspect ratio, and settle with the parsed
      response or with whatever the call threw. `sent` is the request made,
      if any. */
  method GenerateImage(prompt: Text, aspectRatio: AspectRatio, style: ImageStyle,
                       referenceImage: Option<Text>, reply: Reply)
    returns (sent: Option<Request>, r: Outcome<Text>)
    ensures Truthy(referenceImage) && ParseDataUri(referenceImage.value).Fail? ==>
      sent.None? && r == Fail(ErrorWith(INVALID_IMAGE_MESSAGE))
    ensures !Truthy(referenceImage) && style == NoStyle && prompt == [] ==>
      sent.None? && r == Fail(ErrorWith(NO_INPUT_MESSAGE))
    ensures sent.None? ==>
      (Truthy(referenceImage) && ParseDataUri(referenceImage.value).Fail?)
      || (!Truthy(referenceImage) && style == NoStyle && prompt == [])
    ensures sent.Some? ==>
      sent.value.aspectRatio == aspectRatio && PartsFor(prompt, style, referenceImage, sent.value.parts)
    ensures sent.Some? && reply.Rejected? ==> r == Fail(reply.thrown)
    ensures sent.Some? && reply.Answered? ==> ResponseYields(reply.response, r)
    ensures r.Ok? ==> sent.Some? && reply.Answered?
  {
    NoInputIff(prompt, style, referenceImage);
    var parts := BuildParts(prompt, style, referenceImage);
    if parts.Fail? {
      return None, Fail(parts.thrown);
    }
    sent := Some(Request(parts.value, aspectRatio));
    match reply
    case Rejected(thrown) =>
      r := Fail(thrown);
    case Answered(response) =>
      r := ParseResponse(response);
  }
}
