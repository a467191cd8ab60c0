/** The meme creation screen (components/MemeCreator.tsx): choosing a photo,
    asking for captions (from the model, or from a built-in list in mock
    mode), rendering the meme, saving it to the history, and turning every
    failure on the way into a message for the user. */
module Creator {
  import opened MemeTypes
  import opened TextOps
  import opened History
  import CanvasUtils
  import Gemini

  const NoPhotoMessage := "Please upload a cat photo first!"
  const HeicMessage := "Failed to convert HEIC image. Please try a different format."
  const BusyMessage := "The API is busy (RPM Limit). Please wait 10 seconds and try again."
  const HistoryFullMessage := "Meme generated, but your history is full! Please clear some old memes in the Gallery."
  const BadKeyMessage := "Invalid API Key. Please check your .env configuration."
  const GenericMessage := "Failed to generate meme. Please try again."

  /** The history entry's description when the user gave no context. */
  const DefaultPrompt := "Photo Meme"

  /** The captions mock mode draws from. */
  const MockCaptions: seq<MemeCaptions> := [
    MemeCaptions("ME WHEN I SEE", "A BUG IN PRODUCTION"),
    MemeCaptions("I CAN HAZ", "CLEAN CODE?"),
    MemeCaptions("NO TALK ME", "I ANGY"),
    MemeCaptions("POV: YOURE A SENIOR", "LOOKING AT JUNIOR CODE"),
    MemeCaptions("MERRY CHRISTMAS", "YA FILTHY ANIMAL")
  ]

  /** `getMockCaptions` for the value `random` drawn by `Math.random()`:
      the entry at `floor(random * 5)`. */
  function MockPick(random: real): (c: MemeCaptions)
    requires 0.0 <= random < 1.0
    ensures c in MockCaptions
  {
    var i := (random * |MockCaptions| as real).Floor;
    assert 0 <= i < |MockCaptions|;
    MockCaptions[i]
  }

  /** Every mock entry can be drawn: the draws in [i/5, (i+1)/5) pick
      entry i. */
  lemma MockPickCoversAll(i: nat, random: real)
    requires i < |MockCaptions|
    requires i as real / 5.0 <= random < (i + 1) as real / 5.0
    ensures MockPick(random) == MockCaptions[i]
  {
    assert i as real <= random * 5.0 < (i + 1) as real;
  }

  /** A file name marks a HEIC/HEIF photo when it ends in ".heic" or ".heif"
      in any letter case. */
  predicate IsHeic(name: string)
  {
    EndsWith(ToLower(name), ".heic") || EndsWith(ToLower(name), ".heif")
  }

  /** HEIC detection does not depend on the letter case of the name. */
  lemma IsHeicIgnoresCase(name: string)
    ensures IsHeic(ToUpper(name)) == IsHeic(name)
  {
    LowerOfUpper(name);
  }

  /** The decimal digits of a number, as `Number.prototype.toString` gives
      them for a non-negative integer. */
  function Decimal(n: nat): (s: string)
    ensures |s| >= 1
    ensures forall i :: 0 <= i < |s| ==> '0' <= s[i] <= '9'
    ensures |s| > 1 ==> s[0] != '0'
    decreases n
  {
    var d := ['0' + (n % 10) as char];
    if n < 10 then d else Decimal(n / 10) + d
  }

  /** The number a string of decimal digits denotes. */
  function DigitsValue(s: string): int
  {
    if s == [] then 0 else 10 * DigitsValue(s[..|s| - 1]) + (s[|s| - 1] as int - '0' as int)
  }

  /** Reading back the digits gives the number, so distinct creation times
      give distinct history ids. */
  lemma {:induction false} DecimalRoundTrip(n: nat)
    ensures DigitsValue(Decimal(n)) == n
    decreases n
  {
    var s := Decimal(n);
    if n >= 10 {
      DecimalRoundTrip(n / 10);
      assert s[..|s| - 1] == Decimal(n / 10);
    }
  }

  /** The failure is a rate-limit reply of the model. */
  predicate IsRateLimited(e: Failure)
  {
    Contains(e.message, "429") || Contains(e.message, "RESOURCE_EXHAUSTED")
  }

  /** The failure is the browser storage running out of room. */
  predicate IsStorageFull(e: Failure)
  {
    Contains(ToLower(e.message), "quota") || Contains(e.message, "STORAGE_FULL") || e.name == "QuotaExceededError"
  }

  /** The failure names the API key. */
  predicate IsKeyProblem(e: Failure)
  {
    Contains(e.message, "API key")
  }

  /** The message shown for a failure: each class of failure has its own
      message, and a failure of several classes shows the first of: rate
      limit, full storage, API key. */
  function UserMessage(e: Failure): (msg: string)
    ensures msg == BusyMessage <==> IsRateLimited(e)
    ensures msg == HistoryFullMessage <==> !IsRateLimited(e) && IsStorageFull(e)
    ensures msg == BadKeyMessage <==> !IsRateLimited(e) && !IsStorageFull(e) && IsKeyProblem(e)
    ensures msg == GenericMessage <==> !IsRateLimited(e) && !IsStorageFull(e) && !IsKeyProblem(e)
  {
    if IsRateLimited(e) then BusyMessage
    else if IsStorageFull(e) then HistoryFullMessage
    else if IsKeyProblem(e) then BadKeyMessage
    else GenericMessage
  }

  /** A storage quota failure while saving reaches the user as the
      history-full message, whatever the storage called it. */
  lemma QuotaSaveFailureShowsHistoryFull(e: Failure)
    requires IsQuotaFailure(e)
    ensures UserMessage(SaveFailure(e)) == HistoryFullMessage
  {
    StorageFullMessageLacks('4');
    StorageFullMessageLacks('X');
    assert '4' in "429" && 'X' in "RESOURCE_EXHAUSTED";
    MissingCharNotContained(StorageFullMessage, "429", '4');
    MissingCharNotContained(StorageFullMessage, "RESOURCE_EXHAUSTED", 'X');
    assert OccursAt(StorageFullMessage, "STORAGE_FULL", 0);
  }

  /** The captions a generation obtains from the model: the compressed photo
      and the context go out in one request, whose outcome is scanned. A
      compression failure is thrown before any request. */
  function RemoteCaptions(b: CanvasUtils.Browser, preview: string, apiKey: Option<string>,
                          reply: Gemini.Request -> Result<Gemini.Response>, prompt: string,
                          parse: string -> Option<MemeCaptions>): Result<MemeCaptions>
  {
    match Compressed(b, preview)
    case Err(e) => Err(e)
    case Ok(small) => Gemini.GenerationOutcome(reply(Gemini.PhotoRequest(apiKey, small, prompt)), parse)
  }

  /** The photo as `compressImage` shrinks it with its default settings. */
  function Compressed(b: CanvasUtils.Browser, preview: string): Result<string>
  {
    CanvasUtils.Encoded(b, CanvasUtils.CompressedPicture(b, preview, CanvasUtils.CompressMaxWidth, CanvasUtils.CompressQuality))
  }

  /** The requests a generation sends: none in mock mode or when compression
      fails, one otherwise. */
  function RequestsSent(mock: bool, b: CanvasUtils.Browser, preview: string, apiKey: Option<string>,
                        prompt: string): seq<Gemini.Request>
  {
    if mock || Compressed(b, preview).Err? then []
    else [Gemini.PhotoRequest(apiKey, Compressed(b, preview).value, prompt)]
  }

  /** The captions a generation uses: a mock entry, or the model's. */
  function CaptionsFor(mock: bool, random: real, b: CanvasUtils.Browser, preview: string,
                       apiKey: Option<string>, reply: Gemini.Request -> Result<Gemini.Response>,
                       prompt: string, parse: string -> Option<MemeCaptions>): Result<MemeCaptions>
    requires 0.0 <= random < 1.0
  {
    if mock then Ok(MockPick(random)) else RemoteCaptions(b, preview, apiKey, reply, prompt, parse)
  }

  /** The data URL of the meme drawn on the original photo, or the failure
      that stopped it. */
  function Rendered(b: CanvasUtils.Browser, preview: string, captions: Result<MemeCaptions>): Result<string>
  {
    match captions
    case Err(e) => Err(e)
    case Ok(c) => CanvasUtils.Encoded(b, CanvasUtils.MemePicture(b, preview, c, CanvasUtils.MemeMaxWidth))
  }

  /** The rendered meme is drawn from the photo the user chose, at up to
      1200 pixels wide, and not from the copy shrunk for the model. */
  lemma RenderedFromOriginal(b: CanvasUtils.Browser, preview: string, c: MemeCaptions)
    requires Rendered(b, preview, Ok(c)).Ok?
    ensures var p := CanvasUtils.MemePicture(b, preview, c, CanvasUtils.MemeMaxWidth).value;
            && Rendered(b, preview, Ok(c)).value == b.encode(p)
            && p.ops[0] == CanvasUtils.ImageDrawn(preview, p.width, p.height)
            && p.width == CanvasUtils.Min(b.decode(preview).value.width, CanvasUtils.MemeMaxWidth) as real
  {
  }

  /** The history entry for a rendered meme: a photo meme holding the
      rendered URL, described by the context or by "Photo Meme" when there
      is none, and identified by the digits of the first clock reading. */
  function NewItem(url: string, prompt: string, idTime: nat, createdTime: nat): (item: MemeItem)
    ensures item.kind == Photo && item.url == url && item.thumbnailUrl == None
    ensures prompt != "" ==> item.prompt == prompt
    ensures prompt == "" ==> item.prompt == DefaultPrompt
    ensures item.id == Decimal(idTime) && DigitsValue(item.id) == idTime
    ensures item.createdAt == createdTime
  {
    DecimalRoundTrip(idTime);
    MemeItem(Decimal(idTime), Photo, url, None, if prompt == "" then DefaultPrompt else prompt, createdTime)
  }

  /** The caption step of a generation: a mock draw, or the photo
      compressed and sent to the model. */
  method ObtainCaptions(mock: bool, random: real, b: CanvasUtils.Browser, preview: string,
                        service: Gemini.CaptionService, prompt: string,
                        parse: string -> Option<MemeCaptions>) returns (captions: Result<MemeCaptions>)
    requires 0.0 <= random < 1.0
    modifies service`requests
    ensures captions == CaptionsFor(mock, random, b, preview, service.apiKey, service.reply, prompt, parse)
    ensures service.requests == old(service.requests) + RequestsSent(mock, b, preview, service.apiKey, prompt)
  {
    if mock {
      captions := Ok(MockPick(random));
    } else {
      var compressed := CanvasUtils.CompressImage(b, preview);
      if compressed.Err? {
        captions := Err(compressed.error);
      } else {
        captions := service.GeneratePhotoMeme(compressed.value, prompt, parse);
      }
    }
  }

  /** The message chosen in `handleGenerate`'s error handler, starting from
      the generic one and replaced by the first class the failure is in. */
  method ClassifyFailure(err: Failure) returns (userMessage: string)
    ensures userMessage == UserMessage(err)
  {
    userMessage := GenericMessage;
    if IsRateLimited(err) {
      userMessage := BusyMessage;
    } else if IsStorageFull(err) {
      userMessage := HistoryFullMessage;
    } else if IsKeyProblem(err) {
      userMessage := BadKeyMessage;
    }
  }

  /** A file the user picked: its name and its content. */
  datatype PickedFile = PickedFile(name: string, content: string)

  /** What the HEIC converter resolves with: one blob, or an array of them. */
  datatype Converted = Single(blob: string) | Several(blobs: seq<string>)

  /** The state of the creation screen. */
  class MemeCreator {
    var status: GenerationStatus
    var previewUrl: Option<string>
    var prompt: string
    var error: Option<string>
    var generatedResult: Option<string>
    var isConverting: bool
    var isMockMode: bool

    constructor ()
      ensures status == Idle && previewUrl == None && prompt == "" && error == None
      ensures generatedResult == None && !isConverting && !isMockMode
    {
      status := Idle;
      previewUrl := None;
      prompt := "";
      error := None;
      generatedResult := None;
      isConverting := false;
      isMockMode := false;
    }

    /** There is no photo to caption (no preview, or an empty one). */
    predicate NoPhoto()
      reads this
    {
      previewUrl.None? || previewUrl.value == ""
    }

    /** Takes the first picked file, if any. The error and the previous
        result are cleared. A HEIC/HEIF photo goes through `convert` first
        (the first blob when it yields several); its preview is the data URL
        `readAsDataUrl` gives. A failed conversion, or one that yields no
        blob, shows the HEIC message and keeps the previous preview. */
    method HandleFileChange(file: Option<PickedFile>, convert: string -> Result<Converted>,
                            readAsDataUrl: string -> string)
      modifies this
      ensures status == old(status) && prompt == old(prompt) && isMockMode == old(isMockMode)
      ensures file.None? ==> previewUrl == old(previewUrl) && error == old(error)
                             && generatedResult == old(generatedResult) && isConverting == old(isConverting)
      ensures file.Some? ==> generatedResult == None
      ensures file.Some? && !IsHeic(file.value.name) ==>
                previewUrl == Some(readAsDataUrl(file.value.content)) && error == None
                && isConverting == old(isConverting)
      ensures file.Some? && IsHeic(file.value.name) ==> !isConverting
      ensures file.Some? && IsHeic(file.value.name) ==>
                match convert(file.value.content)
                case Ok(Single(blob)) => previewUrl == Some(readAsDataUrl(blob)) && error == None
                case Ok(Several(blobs)) =>
                  if blobs != [] then previewUrl == Some(readAsDataUrl(blobs[0])) && error == None
                  else previewUrl == old(previewUrl) && error == Some(HeicMessage)
                case Err(_) => previewUrl == old(previewUrl) && error == Some(HeicMessage)
    {
      if file.None? {
        return;
      }
      var f := file.value;
      error := None;
      generatedResult := None;
      if IsHeic(f.name) {
        isConverting := true;
        var converted := convert(f.content);
        var blob: Option<string> := None;
        match converted {
          case Ok(Single(one)) => blob := Some(one);
          case Ok(Several(many)) => if many != [] { blob := Some(many[0]); }
          case Err(_) =>
        }
        match blob {
          case Some(data) =>
            previewUrl := Some(readAsDataUrl(data));
            isConverting := false;
          case None =>
            error := Some(HeicMessage);
            isConverting := false;
        }
      } else {
        previewUrl := Some(readAsDataUrl(f.content));
      }
    }

    /** Generates a meme from the current photo and context and saves it to
        `app`'s history. `random` is the mock draw, `idTime` and
        `createdTime` the two clock readings, `writeError` the storage's
        refusal of the save, if any. */
    method HandleGenerate(b: CanvasUtils.Browser, service: Gemini.CaptionService,
                          parse: string -> Option<MemeCaptions>, app: App,
                          random: real, idTime: nat, createdTime: nat, writeError: Option<Failure>)
      requires 0.0 <= random < 1.0
      modifies this, service`requests, app`history, app`storage
      ensures previewUrl == old(previewUrl) && prompt == old(prompt)
      ensures isMockMode == old(isMockMode) && isConverting == old(isConverting)
      // Without a photo only the request for one is shown.
      ensures NoPhoto() ==>
                error == Some(NoPhotoMessage) && status == old(status)
                && generatedResult == old(generatedResult) && service.requests == old(service.requests)
                && app.history == old(app.history) && app.storage == old(app.storage)
      // The model is asked at most once, and never in mock mode.
      ensures !NoPhoto() ==>
                service.requests == old(service.requests)
                                    + RequestsSent(isMockMode, b, previewUrl.value, service.apiKey, prompt)
      // A failure before the meme exists: error status, nothing saved.
      ensures !NoPhoto() ==>
                var render := Rendered(b, previewUrl.value,
                  CaptionsFor(isMockMode, random, b, previewUrl.value, service.apiKey, service.reply, prompt, parse));
                render.Err? ==>
                  status == Error && error == Some(UserMessage(render.error)) && generatedResult == None
                  && app.history == old(app.history) && app.storage == old(app.storage)
      // A rendered meme is shown and put at the front of the history.
      ensures !NoPhoto() ==>
                var render := Rendered(b, previewUrl.value,
                  CaptionsFor(isMockMode, random, b, previewUrl.value, service.apiKey, service.reply, prompt, parse));
                render.Ok? ==>
                  generatedResult == Some(render.value)
                  && app.history == [NewItem(render.value, prompt, idTime, createdTime)] + old(app.history)
                  && (writeError.None? ==>
                        status == Success && error == None
                        && app.storage == old(app.storage)[HistoryKey := app.serialize(app.history)])
                  && (writeError.Some? ==>
                        app.storage == old(app.storage)
                        && error == Some(UserMessage(SaveFailure(writeError.value)))
                        && status == (if render.value == "" then Error else Success))
    {
      if previewUrl.None? || previewUrl.value == "" {
        error := Some(NoPhotoMessage);
        return;
      }
      var preview := previewUrl.value;
      var resultUrl := "";
      status := Generating;
      error := None;
      generatedResult := None;

      var thrown: Option<Failure> := None;
      var captions := ObtainCaptions(isMockMode, random, b, preview, service, prompt, parse);

      if captions.Err? {
        thrown := Some(captions.error);
      } else {
        var rendered := CanvasUtils.DrawMemeOnCanvas(b, preview, captions.value);
        if rendered.Err? {
          thrown := Some(rendered.error);
        } else {
          resultUrl := rendered.value;
          generatedResult := Some(resultUrl);
          status := Success;
          var item := NewItem(resultUrl, prompt, idTime, createdTime);
          var saved := app.SaveToHistory(item, writeError);
          if saved.Err? {
            thrown := Some(saved.error);
          }
        }
      }

      if thrown.Some? {
        var userMessage := ClassifyFailure(thrown.value);
        error := Some(userMessage);
        status := if resultUrl == "" then Error else Success;
      }
    }

    /** Back to the empty screen: no photo, no result, no context, no
        error. */
    method Reset()
      modifies this
      ensures previewUrl == None && generatedResult == None && prompt == ""
      ensures status == Idle && error == None
      ensures isConverting == old(isConverting) && isMockMode == old(isMockMode)
    {
      previewUrl := None;
      generatedResult := None;
      prompt := "";
      status := Idle;
      error := None;
    }
  }
}
