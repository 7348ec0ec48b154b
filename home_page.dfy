/** The home page (app/page.tsx): the genre cleaning and response handling
    of `handleTransformClick`, and `handleReset`. React state is a class
    whose fields the handlers assign; the server's answer to the one request
    a click sends is a parameter. */
module HomePage {
  import opened Text
  import TransformRoute

  // ---------------------------------------------------------------------
  // Genre cleaning

  /** JavaScript's `\w` without the `u` flag: ASCII letters, digits and `_`. */
  predicate IsWordChar(c: char) {
    'a' <= c <= 'z' || 'A' <= c <= 'Z' || '0' <= c <= '9' || c == '_'
  }

  /** The characters `/[^\w\s-]/g` keeps. */
  predicate Allowed(c: char) {
    IsWordChar(c) || IsJsSpace(c) || c == '-'
  }

  predicate AllAllowed(s: string) {
    forall i :: 0 <= i < |s| ==> Allowed(s[i])
  }

  /** `s.replace(/[^\w\s-]/g, '')`: the allowed characters, in order. */
  function StripDisallowed(s: string): (r: string)
    ensures |r| <= |s|
    ensures AllAllowed(r)
    decreases |s|
  {
    if s == [] then []
    else if Allowed(s[0]) then [s[0]] + StripDisallowed(s[1..])
    else StripDisallowed(s[1..])
  }

  /** Stripping keeps a string made of allowed characters as it is. */
  lemma {:induction false} StripKeepsAllowed(s: string)
    requires AllAllowed(s)
    ensures StripDisallowed(s) == s
    decreases |s|
  {
    if s != [] {
      StripKeepsAllowed(s[1..]);
    }
  }

  /** The genre sent with the form: `genre || 'rock'`, trimmed, stripped of
      every character outside `[\w\s-]`, and `'rock'` when nothing is left. */
  function CleanGenre(genre: string): string {
    var g := if genre == "" then "rock" else genre;
    var v := StripDisallowed(Trim(g));
    if v == "" then "rock" else v
  }

  /** A genre with no white space at either end. */
  predicate Trimmed(s: string) {
    s != [] && !IsJsSpace(s[0]) && !IsJsSpace(s[|s| - 1])
  }

  /** `rock` is already clean. */
  lemma RockIsClean()
    ensures Trim("rock") == "rock" && StripDisallowed("rock") == "rock"
  {
    var r := "rock";
    assert !IsJsSpace(r[0]) && !IsJsSpace(r[3]);
    assert TrimStart(r) == r;
    assert TrimEnd(r) == r;
    assert AllAllowed(r) by {
      forall i | 0 <= i < 4 ensures Allowed(r[i]) {
        assert IsWordChar(r[i]);
      }
    }
    StripKeepsAllowed(r);
  }

  /** The cleaned genre is never empty and holds only `[\w\s-]` characters,
      and an empty genre is sent as `rock`. */
  lemma CleanGenreIsNonEmptyAndAllowed(genre: string)
    ensures CleanGenre(genre) != "" && AllAllowed(CleanGenre(genre))
    ensures genre == "" ==> CleanGenre(genre) == "rock"
  {
    RockIsClean();
  }

  /** A trimmed genre of allowed characters is sent unchanged. */
  lemma CleanGenreKeepsCleanGenres(genre: string)
    requires Trimmed(genre) && AllAllowed(genre)
    ensures CleanGenre(genre) == genre
  {
    assert TrimStart(genre) == genre;
    assert TrimEnd(genre) == genre;
    StripKeepsAllowed(genre);
  }

  /** A genre made only of characters outside `[\w\s-]` is sent as `rock`. */
  lemma CleanGenreDefaultsToRock(genre: string)
    requires forall i :: 0 <= i < |genre| ==> !Allowed(genre[i])
    ensures CleanGenre(genre) == "rock"
  {
    if genre == "" {
      RockIsClean();
    } else {
      var a := TrimStart(genre);
      var t := TrimEnd(a);
      forall i | 0 <= i < |t| ensures !Allowed(t[i]) {
        assert t[i] == a[i];
        assert a[i] == genre[|genre| - |a| + i];
      }
      NoneKept(t);
    }
  }

  lemma {:induction false} NoneKept(s: string)
    requires forall i :: 0 <= i < |s| ==> !Allowed(s[i])
    ensures StripDisallowed(s) == []
    decreases |s|
  {
    if s != [] {
      NoneKept(s[1..]);
    }
  }

  // ---------------------------------------------------------------------
  // The server's reply, as the page reads it

  /** The fields of a parsed JSON body the page looks at; `None` is an
      absent field and `""` an empty one (both falsy). */
  datatype Body = Body(success: bool, transformedFilePath: Option<string>, message: Option<string>, error: Option<string>)

  datatype Parsed = Json(body: Body) | NotJson(syntaxError: string)

  /** The outcome of `fetch`: it rejects with a reason, or yields a status,
      the raw text and how that text parses. */
  datatype Reply =
    | NetworkError(reason: string)
    | HttpReply(ok: bool, status: nat, text: string, parsed: Parsed)

  /** `a || b` on optional strings: the first unless absent or empty. */
  function Or(a: Option<string>, b: string): string {
    if a.Some? && a.value != "" then a.value else b
  }

  predicate Truthy(a: Option<string>) {
    a.Some? && a.value != ""
  }

  /** What the click makes of a reply: the audio URL and the details line to
      show, or the message of the error that ends in the `catch`. */
  datatype Verdict = Accepted(url: string, details: string) | Rejected(message: string)

  /** `errorData.error || errorText || 'Unknown error'`: the text after
      `Server error: <status> - ` in a failed reply's message. */
  function ErrorDetail(parsed: Parsed, text: string): (d: string)
    ensures d != ""
    ensures parsed.Json? && Truthy(parsed.body.error) ==> d == parsed.body.error.value
    ensures !(parsed.Json? && Truthy(parsed.body.error)) && text != "" ==> d == text
  {
    Or(if parsed.Json? then parsed.body.error else None, Or(Some(text), "Unknown error"))
  }

  function ReadReply(reply: Reply): (v: Verdict)
    ensures v.Accepted? <==>
              reply.HttpReply? && reply.ok && reply.parsed.Json? &&
              reply.parsed.body.success && Truthy(reply.parsed.body.transformedFilePath)
    ensures v.Accepted? ==> v.url == reply.parsed.body.transformedFilePath.value && v.details != ""
    ensures reply.HttpReply? && !reply.ok ==>
              v == Rejected("Server error: " + NatToString(reply.status) + " - " + ErrorDetail(reply.parsed, reply.text))
  {
    match reply
    case NetworkError(reason) => Rejected(reason)
    case HttpReply(ok, status, text, parsed) =>
      if !ok then
        Rejected("Server error: " + NatToString(status) + " - " + ErrorDetail(parsed, text))
      else match parsed
        case NotJson(syntaxError) => Rejected(syntaxError)
        case Json(data) =>
          if data.success && Truthy(data.transformedFilePath) then
            Accepted(data.transformedFilePath.value, Or(data.message, "Audio successfully transformed"))
          else
            Rejected(Or(data.message, "Unexpected response from server"))
  }

  /** The genre cleaning of the click, step by step. */
  method CleanGenreValue(genre: string) returns (genreValue: string)
    ensures genreValue == CleanGenre(genre)
  {
    genreValue := if genre == "" then "rock" else genre;
    genreValue := StripDisallowed(Trim(genreValue));
    if genreValue == "" {
      genreValue := "rock";
    }
  }

  const ErrorPrefix := "Failed to transform audio: "
  const NoFileAlert := "Please select an audio file first."

  // ---------------------------------------------------------------------
  // The page's state and handlers

  class Page {
    var file: Option<TransformRoute.Upload>
    var genre: string
    var isProcessing: bool
    var transformedAudioUrl: Option<string>
    var originalAudio: Option<string>
    var error: Option<string>
    var isOriginalPlaying: bool
    var isTransformedPlaying: bool
    var showNotification: bool
    var transformationDetails: string
    var transformationComplete: bool

    /** The state a fresh page starts in. */
    constructor ()
      ensures file.None? && genre == "rock" && !isProcessing && transformedAudioUrl == Some("")
      ensures originalAudio.None? && error.None? && !isOriginalPlaying && !isTransformedPlaying
      ensures !showNotification && transformationDetails == "" && !transformationComplete
    {
      file, genre, isProcessing := None, "rock", false;
      transformedAudioUrl, originalAudio, error := Some(""), None, None;
      isOriginalPlaying, isTransformedPlaying := false, false;
      showNotification, transformationDetails, transformationComplete := false, "", false;
    }

    /** `handleTransformClick`: without a file it only alerts. Otherwise it
        sends the file with the cleaned genre, and `reply` is the answer. An
        accepted reply sets the audio URL, the details and the notification;
        anything else sets the error text. Processing always ends false. */
    method HandleTransformClick(reply: Reply) returns (sent: Option<TransformRoute.Form>, alert: Option<string>)
      modifies this
      ensures old(file).None? ==> sent.None? && alert == Some(NoFileAlert) && unchanged(this)
      ensures old(file).Some? ==>
                alert.None? &&
                sent == Some(TransformRoute.Form(Some(TransformRoute.Blob(old(file).value)), Some(TransformRoute.Text(CleanGenre(old(genre)))))) &&
                !isProcessing && file == old(file) && genre == old(genre) &&
                originalAudio == old(originalAudio) &&
                isOriginalPlaying == old(isOriginalPlaying) && isTransformedPlaying == old(isTransformedPlaying)
      ensures old(file).Some? && ReadReply(reply).Accepted? ==>
                transformedAudioUrl == Some(ReadReply(reply).url) && transformationComplete &&
                transformationDetails == ReadReply(reply).details && showNotification && error.None?
      ensures old(file).Some? && ReadReply(reply).Rejected? ==>
                transformedAudioUrl.None? && error == Some(ErrorPrefix + ReadReply(reply).message) &&
                transformationComplete == old(transformationComplete) &&
                transformationDetails == old(transformationDetails) && showNotification == old(showNotification)
    {
      if file.None? {
        alert := Some(NoFileAlert);
        sent := None;
        return;
      }
      var selected := genre;
      alert := None;
      isProcessing := true;
      error := None;
      transformedAudioUrl := None;

      var genreValue := CleanGenreValue(selected);
      sent := Some(TransformRoute.Form(Some(TransformRoute.Blob(file.value)), Some(TransformRoute.Text(genreValue))));
      Show(ReadReply(reply));
      isProcessing := false;
    }

    /** The `try`/`catch` tail of the click: an accepted reply fills in the
        result, any other ends as the error text. */
    method Show(verdict: Verdict)
      modifies this
      ensures verdict.Accepted? ==>
                transformedAudioUrl == Some(verdict.url) && transformationComplete &&
                transformationDetails == verdict.details && showNotification && error == old(error)
      ensures verdict.Rejected? ==>
                error == Some(ErrorPrefix + verdict.message) && transformedAudioUrl == old(transformedAudioUrl) &&
                transformationComplete == old(transformationComplete) &&
                transformationDetails == old(transformationDetails) && showNotification == old(showNotification)
      ensures file == old(file) && genre == old(genre) && isProcessing == old(isProcessing)
      ensures originalAudio == old(originalAudio)
      ensures isOriginalPlaying == old(isOriginalPlaying) && isTransformedPlaying == old(isTransformedPlaying)
    {
      match verdict {
        case Accepted(url, details) =>
          transformedAudioUrl := Some(url);
          transformationComplete := true;
          transformationDetails := details;
          showNotification := true;
        case Rejected(message) =>
          error := Some(ErrorPrefix + message);
      }
    }

    /** `handleReset`: forgets the file, both audio URLs and the error, and
        stops both players; the rest of the state is kept. */
    method HandleReset()
      modifies this
      ensures file.None? && transformedAudioUrl.None? && originalAudio.None? && error.None?
      ensures !isOriginalPlaying && !isTransformedPlaying
      ensures genre == old(genre) && isProcessing == old(isProcessing)
      ensures showNotification == old(showNotification) && transformationDetails == old(transformationDetails)
      ensures transformationComplete == old(transformationComplete)
    {
      file := None;
      transformedAudioUrl := None;
      originalAudio := None;
      error := None;
      isOriginalPlaying := false;
      isTransformedPlaying := false;
    }
  }

  // ---------------------------------------------------------------------
  // The page against the route

  /** The reply the browser sees for a route response; `text` is the raw
      JSON text, which the page reads only when the body has no `error`. */
  function AsReply(response: TransformRoute.Response, text: string): Reply {
    match response
    case BadRequest(error) => HttpReply(false, 400, text, Json(Body(false, None, None, Some(error))))
    case Ok(success, message, path) => HttpReply(true, 200, text, Json(Body(success, Some(path), Some(message), None)))
    case ServerError(error, details) => HttpReply(false, 500, text, Json(Body(false, None, None, Some(error))))
  }

  /** The genre the page sends holds no `/`, so it adds no directory step
      to the route's output path. */
  lemma PageGenreHasNoSlash(genre: string)
    ensures '/' !in CleanGenre(genre)
  {
    CleanGenreIsNonEmptyAndAllowed(genre);
  }

  /** A click with a file always sends a form the route accepts past
      validation: the cleaned genre is never empty, so the route never
      answers 400 to the page. */
  lemma PageFormsPassValidation(upload: TransformRoute.Upload, genre: string, disk: TransformRoute.Disk, world: TransformRoute.World)
    requires world.form == Some(TransformRoute.Form(Some(TransformRoute.Blob(upload)), Some(TransformRoute.Text(CleanGenre(genre)))))
    ensures !TransformRoute.Handle(disk, world).response.BadRequest?
  {
    CleanGenreIsNonEmptyAndAllowed(genre);
  }

  /** End to end: every 200 from the route is accepted by the page with the
      route's output path as the audio URL and the route's message as the
      details line, and every 500 becomes the error
      `Server error: 500 - Failed to process the audio file`. */
  lemma PageReadsRouteResponses(response: TransformRoute.Response, text: string)
    requires response.Ok? ==> response.success && response.transformedFilePath != "" && response.message != ""
    ensures response.Ok? ==>
              ReadReply(AsReply(response, text)) == Accepted(response.transformedFilePath, response.message)
    ensures response.ServerError? && response.error != "" ==>
              ReadReply(AsReply(response, text)) == Rejected("Server error: 500 - " + response.error)
  {
    assert NatToString(500) == "500" by {
      assert NatToString(50) == "50" by {
        assert NatToString(5) == "5";
      }
    }
  }

  /** Route answers to a page request: any 200 carries a non-empty path and
      message, so the page shows the transformed audio. */
  lemma PageAcceptsRouteSuccess(upload: TransformRoute.Upload, genre: string, disk: TransformRoute.Disk,
                                world: TransformRoute.World, text: string)
    requires world.form == Some(TransformRoute.Form(Some(TransformRoute.Blob(upload)), Some(TransformRoute.Text(CleanGenre(genre)))))
    requires TransformRoute.Handle(disk, world).response.Ok?
    ensures var r := TransformRoute.Handle(disk, world).response;
            ReadReply(AsReply(r, text)) == Accepted(r.transformedFilePath, r.message)
  {
    var r := TransformRoute.Handle(disk, world).response;
    CleanGenreIsNonEmptyAndAllowed(genre);
    assert r.transformedFilePath[0] == '/';
    assert r.message[0] == 'A';
    PageReadsRouteResponses(r, text);
  }
}
