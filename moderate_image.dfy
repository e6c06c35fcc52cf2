/** The image-moderation endpoint (api/moderate-image.ts) without its network
    call: the data-URL prefix removal, the multipart/form-data body sent to
    the moderation service, the category scores read from its answer, the
    safety thresholds, and the answers that default to "safe". The base64
    decoder, the random boundary and the service are parameters. */
module ModerateImage {
  import opened Types
  import opened Text

  type Byte = b: int | 0 <= b < 256

  // ---------------------------------------------------------------------
  // The data URL (RFC 2397): /^data:image\/\w+;base64,/

  predicate IsWordChar(c: char) {
    ('a' <= c <= 'z') || ('A' <= c <= 'Z') || ('0' <= c <= '9') || c == '_'
  }

  const DataPrefix := "data:image/"
  const Base64Marker := ";base64,"

  /** The length of the run of word characters that starts `s`. */
  function WordRun(s: string): (n: nat)
    ensures n <= |s|
    ensures forall k :: 0 <= k < n ==> IsWordChar(s[k])
    ensures n == |s| || !IsWordChar(s[n])
  {
    if s != [] && IsWordChar(s[0]) then 1 + WordRun(s[1..]) else 0
  }

  /** `image.replace(/^data:image\/\w+;base64,/, '')`. */
  function StripDataUrl(image: string): (r: string)
    ensures |r| <= |image|
    ensures !StartsWith(image, DataPrefix) ==> r == image
  {
    if !StartsWith(image, DataPrefix) then image
    else
      var rest := image[|DataPrefix|..];
      var n := WordRun(rest);
      if n > 0 && StartsWith(rest[n..], Base64Marker) then rest[n + |Base64Marker|..] else image
  }

  /** The prefix of a data URL with a word subtype goes, and exactly the
      payload is left. */
  lemma StripDataUrlRoundTrip(subtype: string, payload: string)
    requires subtype != [] && forall k :: 0 <= k < |subtype| ==> IsWordChar(subtype[k])
    ensures StripDataUrl(DataPrefix + subtype + Base64Marker + payload) == payload
  {
    var tail := Base64Marker + payload;
    var rest := subtype + tail;
    assert DataPrefix + subtype + Base64Marker + payload == DataPrefix + rest;
    PrefixSplit(DataPrefix, rest);
    SubtypeRun(subtype, tail);
    PrefixSplit(subtype, tail);
    PrefixSplit(Base64Marker, payload);
    assert rest[|subtype| + |Base64Marker|..] == tail[|Base64Marker|..];
  }

  lemma PrefixSplit(a: string, b: string)
    ensures StartsWith(a + b, a) && (a + b)[|a|..] == b
  {
    assert (a + b)[..|a|] == a;
  }

  /** The word run of a subtype followed by ';' is the subtype. */
  lemma {:induction false} SubtypeRun(subtype: string, tail: string)
    requires forall k :: 0 <= k < |subtype| ==> IsWordChar(subtype[k])
    requires tail != [] && tail[0] == ';'
    ensures WordRun(subtype + tail) == |subtype|
  {
    if subtype != [] {
      assert (subtype + tail)[1..] == subtype[1..] + tail;
      SubtypeRun(subtype[1..], tail);
    } else {
      assert subtype + tail == tail;
    }
  }

  // ---------------------------------------------------------------------
  // The multipart/form-data body (section 5.1.1 of RFC 2046, section 4.2 of
  // RFC 7578)

  /** A piece of the body: text (sent as its encoding) or raw bytes. */
  datatype Part = Chunk(text: string) | Data(bytes: seq<Byte>)

  /** A field value: a string, or the image bytes. */
  datatype Value = Text(s: string) | Jpeg(bytes: seq<Byte>)

  const CRLF := "\r\n"

  /** The delimiter line that opens every field. */
  function Delimiter(boundary: string): (r: string)
    ensures StartsWith(r, "--") && EndsWith(r, CRLF)
  {
    var r := "--" + boundary + CRLF;
    assert r[..2] == "--" && r[|r| - 2..] == CRLF;
    r
  }

  /** The close delimiter that ends the body. */
  function CloseDelimiter(boundary: string): (r: string)
    ensures StartsWith(r, "--" + boundary + "--") && EndsWith(r, CRLF)
  {
    var r := "--" + boundary + "--" + CRLF;
    assert r[..|"--" + boundary + "--"|] == "--" + boundary + "--" && r[|r| - 2..] == CRLF;
    r
  }

  /** The parts of one field, as the spec of the body lays them out: the
      delimiter, the Content-Disposition header (with a file name and a
      Content-Type for the image), the blank line, the value and a line
      break. */
  function Encapsulation(boundary: string, name: string, value: Value, filename: string): (r: seq<Part>)
    ensures |r| >= 4 && r[0] == Chunk(Delimiter(boundary)) && r[|r| - 1] == Chunk(CRLF) && r[1].Chunk?
    ensures value.Jpeg? ==> |r| == 5 && r[3] == Data(value.bytes) && r[2] == Chunk("Content-Type: image/jpeg" + CRLF + CRLF)
    ensures value.Text? ==> |r| == 4 && r[2] == Chunk(value.s) && EndsWith(r[1].text, CRLF + CRLF)
  {
    match value
    case Jpeg(bytes) =>
      [Chunk(Delimiter(boundary)),
       Chunk("Content-Disposition: form-data; name=\"" + name + "\"; filename=\"" + filename + "\"" + CRLF),
       Chunk("Content-Type: image/jpeg" + CRLF + CRLF), Data(bytes), Chunk(CRLF)]
    case Text(s) =>
      var header := "Content-Disposition: form-data; name=\"" + name + "\"" + CRLF + CRLF;
      assert header[|header| - 4..] == CRLF + CRLF;
      [Chunk(Delimiter(boundary)), Chunk(header), Chunk(s), Chunk(CRLF)]
  }

  /** addFormField: pushes one field's parts onto the body so far. The image
      is always sent with its file name. */
  method AddFormField(formParts: seq<Part>, boundary: string, name: string, value: Value, filename: Option<string>)
    returns (next: seq<Part>)
    requires value.Jpeg? ==> filename.Some? && filename.value != []
    ensures next == formParts + Encapsulation(boundary, name, value, filename.GetOr(""))
  {
    next := formParts + [Chunk("--" + boundary + CRLF)];
    if filename.Some? && filename.value != [] && value.Jpeg? {
      next := next + [Chunk("Content-Disposition: form-data; name=\"" + name + "\"; filename=\"" + filename.value + "\"" + CRLF)];
      next := next + [Chunk("Content-Type: image/jpeg" + CRLF + CRLF)];
      next := next + [Data(value.bytes)];
    } else {
      next := next + [Chunk("Content-Disposition: form-data; name=\"" + name + "\"" + CRLF + CRLF)];
      next := next + [Chunk(value.s)];
    }
    next := next + [Chunk(CRLF)];
  }

  const Models := "nudity-2.0,wad,offensive"

  /** The body as sent: media, models, api_user, api_secret, then the close
      delimiter. */
  function FormBody(boundary: string, image: seq<Byte>, user: string, secret: string): seq<Part> {
    Encapsulation(boundary, "media", Jpeg(image), "image.jpg")
    + Encapsulation(boundary, "models", Text(Models), "")
    + Encapsulation(boundary, "api_user", Text(user), "")
    + Encapsulation(boundary, "api_secret", Text(secret), "")
    + [Chunk(CloseDelimiter(boundary))]
  }

  /** The body is built by four addFormField calls and the close delimiter. */
  method BuildFormBody(boundary: string, image: seq<Byte>, user: string, secret: string) returns (body: seq<Part>)
    ensures body == FormBody(boundary, image, user, secret)
  {
    var formParts: seq<Part> := [];
    formParts := AddFormField(formParts, boundary, "media", Jpeg(image), Some("image.jpg"));
    formParts := AddFormField(formParts, boundary, "models", Text(Models), None);
    formParts := AddFormField(formParts, boundary, "api_user", Text(user), None);
    formParts := AddFormField(formParts, boundary, "api_secret", Text(secret), None);
    formParts := formParts + [Chunk("--" + boundary + "--" + CRLF)];
    return formParts;
  }

  /** The header part that follows a delimiter. */
  function Disposition(name: string): string {
    "Content-Disposition: form-data; name=\"" + name + "\""
  }

  /** The body's layout: the four fields take parts 0-4, 5-8, 9-12 and
      13-16, in the order media, models, api_user, api_secret, and the close
      delimiter is the last of 18 parts. */
  lemma FormBodyFields(boundary: string, image: seq<Byte>, user: string, secret: string)
    ensures var body := FormBody(boundary, image, user, secret);
            |body| == 18
            && body[0..5] == Encapsulation(boundary, "media", Jpeg(image), "image.jpg")
            && body[5..9] == Encapsulation(boundary, "models", Text(Models), "")
            && body[9..13] == Encapsulation(boundary, "api_user", Text(user), "")
            && body[13..17] == Encapsulation(boundary, "api_secret", Text(secret), "")
            && body[17] == Chunk(CloseDelimiter(boundary))
  {
    var e1 := Encapsulation(boundary, "media", Jpeg(image), "image.jpg");
    var e2 := Encapsulation(boundary, "models", Text(Models), "");
    var e3 := Encapsulation(boundary, "api_user", Text(user), "");
    var e4 := Encapsulation(boundary, "api_secret", Text(secret), "");
    var body := FormBody(boundary, image, user, secret);
    assert body == e1 + e2 + e3 + e4 + [Chunk(CloseDelimiter(boundary))];
    assert body[0..5] == e1;
    assert body[5..9] == e2;
    assert body[9..13] == e3;
    assert body[13..17] == e4;
  }

  /** Each field is its delimiter, a Content-Disposition header naming it,
      the header's blank line, the value and a line break. */
  lemma FieldLayout(boundary: string, name: string, value: Value, filename: string)
    ensures var e := Encapsulation(boundary, name, value, filename);
            e[0] == Chunk(Delimiter(boundary)) && e[|e| - 1] == Chunk(CRLF)
            && StartsWith(e[1].text, Disposition(name))
            && e[|e| - 2] == (if value.Jpeg? then Data(value.bytes) else Chunk(value.s))
  {
    var e := Encapsulation(boundary, name, value, filename);
    if value.Jpeg? {
      DispositionPrefix(name, "; filename=\"" + filename + "\"" + CRLF);
      assert e[1].text == Disposition(name) + ("; filename=\"" + filename + "\"" + CRLF);
    } else {
      DispositionPrefix(name, CRLF + CRLF);
      assert e[1].text == Disposition(name) + (CRLF + CRLF);
    }
  }

  lemma DispositionPrefix(name: string, tail: string)
    ensures StartsWith(Disposition(name) + tail, Disposition(name))
  {
    var s := Disposition(name) + tail;
    assert s[..|Disposition(name)|] == Disposition(name);
  }

  // ---------------------------------------------------------------------
  // Category scores and the safety rule

  datatype NudityReport = NudityReport(raw: Option<real>, partial: Option<real>, safe: Option<real>)
  /** The service's `offensive` field: a bare number, or a report object
      carrying an optional probability. */
  datatype OffensiveField = Bare(x: real) | Report(prob: Option<real>)

  /** The fields of the service's answer that the endpoint reads. */
  datatype ModerationData = ModerationData(
    nudity: Option<NudityReport>,
    weapon: Option<real>,
    offensive: Option<OffensiveField>,
    violence: Option<real>)

  datatype Categories = Categories(nudity: Option<real>, weapons: Option<real>, offensive: Option<real>, violence: Option<real>)

  function MaxReal(a: real, b: real): real {
    if a < b then b else a
  }

  /** `Math.max(raw || 0, partial || 0, safe !== undefined ? 1 - safe : 0)`. */
  function NudityScore(n: NudityReport): real {
    MaxReal(MaxReal(n.raw.GetOr(0.0), n.partial.GetOr(0.0)), if n.safe.Some? then 1.0 - n.safe.value else 0.0)
  }

  /** The nudity score is the largest of the three readings. */
  lemma NudityScoreIsMax(n: NudityReport)
    ensures var x := NudityScore(n);
            var s := if n.safe.Some? then 1.0 - n.safe.value else 0.0;
            x >= n.raw.GetOr(0.0) && x >= n.partial.GetOr(0.0) && x >= s
            && (x == n.raw.GetOr(0.0) || x == n.partial.GetOr(0.0) || x == s)
  {
  }

  /** `if (offensive)`: a bare 0 is falsy, any object is truthy. */
  predicate Truthy(o: OffensiveField) {
    o != Bare(0.0)
  }

  /** The offensive score under the corrected reading: a bare number is the
      score, a report gives its probability (0 when missing), and a falsy
      field leaves the category out. */
  function OffensiveScore(o: OffensiveField): (r: Option<real>)
    ensures r.None? <==> o == Bare(0.0)
    ensures r.Some? ==> (o.Bare? && r.value == o.x) || (o.Report? && r.value == o.prob.GetOr(0.0))
  {
    if !Truthy(o) then None
    else if o.Bare? then Some(o.x)
    else Some(o.prob.GetOr(0.0))
  }

  /** The categories, with the offensive score read as OffensiveScore; see
      OffensiveAsWritten for the program's reading. */
  function CategoriesOf(data: ModerationData): Categories {
    Categories(
      if data.nudity.Some? then Some(NudityScore(data.nudity.value)) else None,
      data.weapon,
      if data.offensive.Some? then OffensiveScore(data.offensive.value) else None,
      data.violence)
  }

  /** The categories object, filled field by field. */
  method ExtractCategories(data: ModerationData) returns (categories: Categories)
    ensures categories == CategoriesOf(data)
  {
    categories := Categories(None, None, None, None);
    if data.nudity.Some? {
      categories := categories.(nudity := Some(NudityScore(data.nudity.value)));
    }
    if data.weapon.Some? {
      categories := categories.(weapons := data.weapon);
    }
    if data.offensive.Some? && Truthy(data.offensive.value) {
      var o := data.offensive.value;
      var score := if o.Bare? then o.x else o.prob.GetOr(0.0);
      categories := categories.(offensive := Some(score));
    }
    if data.violence.Some? {
      categories := categories.(violence := data.violence);
    }
  }

  const NudityThreshold: real := 0.5
  const WeaponsThreshold: real := 0.5
  const OffensiveThreshold: real := 0.7
  const ViolenceThreshold: real := 0.5

  /** `isSafe`: every category below its threshold, a missing one as 0. */
  predicate IsSafe(c: Categories) {
    c.nudity.GetOr(0.0) < NudityThreshold && c.weapons.GetOr(0.0) < WeaponsThreshold
    && c.offensive.GetOr(0.0) < OffensiveThreshold && c.violence.GetOr(0.0) < ViolenceThreshold
  }

  /** An answer is safe exactly when the nudity reading, the weapon score,
      the offensive number or probability and the violence score are all
      below their thresholds; an answer with no readings at all is safe. */
  lemma SafetyRule(data: ModerationData)
    ensures IsSafe(CategoriesOf(data)) <==>
              (data.nudity.None? || NudityScore(data.nudity.value) < 0.5)
              && data.weapon.GetOr(0.0) < 0.5
              && (data.offensive.None?
                  || (data.offensive.value.Bare? && data.offensive.value.x < 0.7)
                  || (data.offensive.value.Report? && data.offensive.value.prob.GetOr(0.0) < 0.7))
              && data.violence.GetOr(0.0) < 0.5
    ensures data == ModerationData(None, None, None, None) ==> IsSafe(CategoriesOf(data))
  {
  }

  /** An image whose every reading is 0 is judged safe. */
  lemma ZeroReadingsSafe(data: ModerationData)
    requires data.nudity.Some? ==> data.nudity.value == NudityReport(Some(0.0), Some(0.0), Some(1.0))
    requires data.weapon.Some? ==> data.weapon.value == 0.0
    requires data.offensive.Some? ==> data.offensive.value in {Bare(0.0), Report(Some(0.0))}
    requires data.violence.Some? ==> data.violence.value == 0.0
    ensures IsSafe(CategoriesOf(data))
  {
  }

  // ---------------------------------------------------------------------
  // The offensive score as the program reads it

  /** A category value as JavaScript holds it: a number, or the report
      object itself. */
  datatype Reading = Number(x: real) | Object

  /** `if (offensive) offensive.prob || offensive`: a falsy field is skipped,
      a bare number has no `prob` and falls through to itself, and a report
      whose probability is 0 or missing falls through to the object. */
  function OffensiveAsWritten(o: OffensiveField): (r: Option<Reading>)
    ensures r.None? <==> o == Bare(0.0)
    ensures r.Some? && r.value.Number? <==>
              (o.Bare? && o.x != 0.0) || (o.Report? && o.prob.Some? && o.prob.value != 0.0)
    ensures r.Some? && r.value.Number? ==> OffensiveScore(o) == Some(r.value.x)
  {
    if !Truthy(o) then None
    else if o.Bare? then Some(Number(o.x))
    else if o.prob.Some? && o.prob.value != 0.0 then Some(Number(o.prob.value))
    else Some(Object)
  }

  /** `(value || 0) < threshold`: an object compares as NaN, so never
      below. */
  predicate BelowAsWritten(v: Option<Reading>, threshold: real) {
    v.None? || (v.value.Number? && v.value.x < threshold)
  }

  predicate IsSafeAsWritten(data: ModerationData) {
    var c := CategoriesOf(data);
    c.nudity.GetOr(0.0) < NudityThreshold && c.weapons.GetOr(0.0) < WeaponsThreshold
    && BelowAsWritten(if data.offensive.Some? then OffensiveAsWritten(data.offensive.value) else None, OffensiveThreshold)
    && c.violence.GetOr(0.0) < ViolenceThreshold
  }

  /** As written, an answer reporting an offensive probability of exactly 0
      marks the image unsafe, though every reading is 0; the intended rule
      calls it safe. */
  lemma ZeroOffensiveFlaggedAsWritten()
    ensures var data := ModerationData(None, Some(0.0), Some(Report(Some(0.0))), None);
            !IsSafeAsWritten(data) && IsSafe(CategoriesOf(data))
  {
  }

  /** Apart from that case the two readings agree: in particular they always
      agree on a bare number. */
  lemma AsWrittenAgreesOtherwise(data: ModerationData)
    requires data.offensive.Some? && data.offensive.value.Report? ==>
               data.offensive.value.prob.Some? && data.offensive.value.prob.value != 0.0
    ensures IsSafeAsWritten(data) <==> IsSafe(CategoriesOf(data))
  {
  }

  // ---------------------------------------------------------------------
  // The handler

  datatype Request = Request(httpMethod: string, image: Option<string>)

  /** What the service call produced. */
  datatype ServiceReply =
    | FetchFailed                  // fetch threw
    | NotOk(errorText: string)     // a non-2xx status
    | BadBody(message: string)     // reading the JSON body threw
    | Answer(data: ModerationData)

  datatype Response = Response(status: nat, safe: Option<bool>, categories: Option<Categories>, error: Option<string>)

  const Unavailable := "Moderation service unavailable, defaulting to safe"
  const NoCategories := Categories(None, None, None, None)

  /** The handler, given the credentials, the base64 decoder, the boundary
      and the service's reply to the body it was sent. */
  method Handle(req: Request, user: Option<string>, secret: Option<string>, decode: string -> seq<Byte>,
                boundary: string, service: seq<Part> -> ServiceReply) returns (r: Response)
    ensures req.httpMethod != "POST" ==> r.status == 405
    ensures req.httpMethod == "POST" && (req.image.None? || req.image.value == []) ==> r.status == 400
    ensures r.safe == Some(false) ==>
              req.image.Some? && user.Some? && secret.Some?
              && exists data :: service(FormBody(boundary, decode(StripDataUrl(req.image.value)), user.value, secret.value)) == Answer(data)
                                && !IsSafe(CategoriesOf(data))
    ensures (req.httpMethod == "POST" && req.image.Some? && req.image.value != []
             && (user.None? || user.value == [] || secret.None? || secret.value == [])) ==>
              r == Response(200, Some(true), Some(NoCategories), None)
    ensures (req.httpMethod == "POST" && req.image.Some? && req.image.value != []
             && user.Some? && user.value != [] && secret.Some? && secret.value != []) ==>
              var reply := service(FormBody(boundary, decode(StripDataUrl(req.image.value)), user.value, secret.value));
              r.status == 200
              && (reply.Answer? ==> r == Response(200, Some(IsSafe(CategoriesOf(reply.data))), Some(CategoriesOf(reply.data)), None))
              && (!reply.Answer? ==> r.safe == Some(true))
  {
    if req.httpMethod != "POST" {
      return Response(405, None, None, Some("Method not allowed"));
    }
    if req.image.None? || req.image.value == [] {
      return Response(400, None, None, Some("Missing image data"));
    }
    var image := req.image.value;
    if user.None? || user.value == [] || secret.None? || secret.value == [] {
      return Response(200, Some(true), Some(NoCategories), None);
    }
    var imageBuffer := decode(StripDataUrl(image));
    var formBody := BuildFormBody(boundary, imageBuffer, user.value, secret.value);
    var reply := service(formBody);
    match reply {
      case FetchFailed =>
        return Response(200, Some(true), Some(NoCategories), Some(Unavailable));
      case NotOk(_) =>
        return Response(200, Some(true), Some(NoCategories), Some(Unavailable));
      case BadBody(message) =>
        return Response(200, Some(true), Some(NoCategories), Some(message));
      case Answer(data) =>
        var categories := ExtractCategories(data);
        return Response(200, Some(IsSafe(categories)), Some(categories), None);
    }
  }
}
