/** The caption service of the meme generator (services/geminiService.ts):
    one request to the model carrying the photo and an instruction, and a scan
    of the reply for the first text that parses as captions. The remote model
    is an oracle from requests to replies, and `JSON.parse` a partial parser. */
module Gemini {
  import opened MemeTypes
  import opened TextOps

  const ModelName: string := "gemini-flash-latest"
  const CaptionsError := Failure("Error", "Failed to generate captions.")

  /** `dataUrl.split(',')[1]`: the text after the first comma, up to the
      next one; nothing (`undefined`) when there is no comma. */
  function DataUrlPayload(dataUrl: string): (r: Option<string>)
    ensures r.Some? <==> ',' in dataUrl
    ensures r.Some? ==> ',' !in r.value
  {
    var pieces := Split(dataUrl, ',');
    JoinSplit(dataUrl, ',');
    if |pieces| >= 2 then Some(pieces[1]) else None
  }

  /** `dataUrl.split(';')[0].split(':')[1]`: in the text before the first
      semicolon, what follows the first colon, up to the next one; nothing
      when that text has no colon. */
  function MimeOf(dataUrl: string): (r: Option<string>)
    ensures r.Some? <==> ':' in Split(dataUrl, ';')[0]
    ensures r.Some? ==> ':' !in r.value && ';' !in r.value
  {
    var head := Split(dataUrl, ';')[0];
    var pieces := Split(head, ':');
    JoinSplit(head, ':');
    if |pieces| >= 2 then
      assert forall c :: c in pieces[1] ==> c in head by {
        SplitPieceInside(head, ':', 1);
      }
      Some(pieces[1])
    else None
  }

  /** Every character of a piece of a split occurs in the split string. */
  lemma {:induction false} SplitPieceInside(s: string, sep: char, i: nat)
    requires i < |Split(s, sep)|
    ensures forall c :: c in Split(s, sep)[i] ==> c in s
    decreases |s|
  {
    if s != [] {
      var rest := Split(s[1..], sep);
      if s[0] == sep {
        if i > 0 {
          SplitPieceInside(s[1..], sep, i - 1);
        }
      } else if i == 0 {
        SplitPieceInside(s[1..], sep, 0);
      } else {
        SplitPieceInside(s[1..], sep, i);
      }
    }
  }

  /** A data URL `header,payload` yields its payload. */
  lemma PayloadRoundTrip(header: string, payload: string)
    requires ',' !in header && ',' !in payload
    ensures DataUrlPayload(header + "," + payload) == Some(payload)
  {
    SplitJoin([header, payload], ',');
    assert Join([header, payload], ',') == header + "," + payload;
  }

  /** A data URL `scheme:mime;rest` yields its mime type, whatever the scheme. */
  lemma MimeRoundTrip(scheme: string, mime: string, rest: string)
    requires ':' !in scheme && ';' !in scheme
    requires ':' !in mime && ';' !in mime
    ensures MimeOf(scheme + ":" + mime + ";" + rest) == Some(mime)
  {
    var head := scheme + ":" + mime;
    SplitAfterPlainPrefix(head, ";" + rest, ';');
    assert Split(";" + rest, ';')[0] == "" by {
      assert (";" + rest)[1..] == rest;
    }
    assert head + ";" + rest == head + (";" + rest);
    assert Split(head + ";" + rest, ';')[0] == head;
    SplitJoin([scheme, mime], ':');
    assert Join([scheme, mime], ':') == head;
  }

  /** Ten spaces: the indentation the instruction's template literal keeps. */
  const Indent: string := "          "

  /** The instruction up to the user's context. */
  const InstructionHead: string :=
    "Create a funny internet cat meme caption for this image. \n" + Indent + "User Context: "

  /** The instruction after the user's context. */
  const InstructionTail: string :=
    "\n" + Indent + "\n"
    + Indent + "IMPORTANT: Return ONLY a JSON object with \"topText\" and \"bottomText\" keys. \n"
    + Indent + "Example: {\"topText\": \"WHEN YOU REALISE\", \"bottomText\": \"IT IS MONDAY AGAIN\"}\n"
    + Indent + "Keep it short and witty. Use uppercase for the classic meme look."

  /** The text part of the request: the template with the user's context. */
  function Instruction(prompt: string): string
  {
    InstructionHead + prompt + InstructionTail
  }

  /** The user's context can be read back from the instruction, so two
      different contexts give two different instructions. */
  lemma InstructionKeepsPrompt(prompt: string)
    ensures var t := Instruction(prompt);
            |t| == |InstructionHead| + |prompt| + |InstructionTail|
            && t[|InstructionHead|..|t| - |InstructionTail|] == prompt
  {
  }

  lemma InstructionInjective(p1: string, p2: string)
    requires Instruction(p1) == Instruction(p2)
    ensures p1 == p2
  {
    InstructionKeepsPrompt(p1);
    InstructionKeepsPrompt(p2);
  }

  /** The inline image of a request: payload and mime type, each possibly
      `undefined`. */
  datatype InlineData = InlineData(data: Option<string>, mimeType: Option<string>)

  /** What `generateContent` is called with. */
  datatype Request = Request(apiKey: Option<string>, model: string, image: InlineData, text: string)

  /** The request for a photo and a user context. */
  function PhotoRequest(apiKey: Option<string>, imageData: string, prompt: string): Request
  {
    Request(apiKey, ModelName, InlineData(DataUrlPayload(imageData), MimeOf(imageData)), Instruction(prompt))
  }

  /** A part of a reply, with its text when it has one. */
  datatype Part = Part(text: Option<string>)
  datatype Candidate = Candidate(parts: seq<Part>)
  /** A reply: its candidates, when it has any. */
  datatype Response = Response(candidates: Option<seq<Candidate>>)

  /** `text.replace(/```json\n?|\n?```/g, '')`: scanning left to right, a
      "```json" with the newline after it, if any, is removed; otherwise a
      "```" with the newline before it, if any, is removed; any other
      character is kept. */
  function StripFences(s: string): (r: string)
    ensures |r| <= |s|
    ensures '`' !in s ==> r == s
    decreases |s|
  {
    if |s| >= 7 && s[..7] == "```json" then
      assert s[0] == s[..7][0] == '`';
      if |s| >= 8 && s[7] == '\n' then StripFences(s[8..]) else StripFences(s[7..])
    else if |s| >= 4 && s[..4] == "\n```" then
      assert s[1] == s[..4][1] == '`';
      StripFences(s[4..])
    else if |s| >= 3 && s[..3] == "```" then
      assert s[0] == s[..3][0] == '`';
      StripFences(s[3..])
    else if s == [] then []
    else
      assert s == [s[0]] + s[1..];
      [s[0]] + StripFences(s[1..])
  }

  /** A text that starts neither with a backquote nor with a newline and a
      backquote keeps its first character. */
  lemma StripKeepsFirst(s: string)
    requires s != [] && s[0] != '`'
    requires |s| >= 2 ==> s[1] != '`'
    ensures StripFences(s) == [s[0]] + StripFences(s[1..])
  {
    var json, close, fence := "```json", "\n```", "```";
    assert json[0] == '`' && close[1] == '`' && fence[0] == '`';
    assert |s| >= 7 ==> s[..7] != json by {
      if |s| >= 7 { assert s[..7][0] == s[0]; }
    }
    assert |s| >= 4 ==> s[..4] != close by {
      if |s| >= 4 { assert s[..4][1] == s[1]; }
    }
    assert |s| >= 3 ==> s[..3] != fence by {
      if |s| >= 3 { assert s[..3][0] == s[0]; }
    }
  }

  /** A body without backquotes followed by a closing fence on its own line
      loses the fence and its newline and nothing else. */
  lemma {:induction false} StripClosingFence(body: string)
    requires '`' !in body
    ensures StripFences(body + "\n```") == body
    decreases |body|
  {
    var s := body + "\n```";
    if body == [] {
      assert s == "\n```";
      assert s[..4] == "\n```" && s[4..] == [];
    } else {
      assert s[0] == body[0];
      assert s[1] == if |body| >= 2 then body[1] else '\n';
      StripKeepsFirst(s);
      assert s[1..] == body[1..] + "\n```";
      StripClosingFence(body[1..]);
      assert body == [body[0]] + body[1..];
    }
  }

  /** The reply text the code parses: the fences stripped, then trimmed. */
  function Clean(text: string): string
  {
    Trim(StripFences(text))
  }

  /** A JSON body without backquotes wrapped in a ```json fence cleans to the
      same text as the bare body. */
  lemma FencedReply(body: string)
    requires '`' !in body
    ensures Clean("```json\n" + body + "\n```") == Clean(body)
    ensures Clean(body) == Trim(body)
  {
    var s := "```json\n" + body + "\n```";
    assert s[..7] == "```json" && s[7] == '\n';
    assert s[8..] == body + "\n```";
    StripClosingFence(body);
  }

  /** A newline before an opening fence is taken by the closing-fence
      alternative, so the word `json` is left behind. */
  lemma NewlineBeforeOpeningFence(body: string)
    requires '`' !in body
    ensures StripFences("\n```json\n" + body + "\n```") == "json\n" + body
  {
    var t := "json\n" + body + "\n```";
    var s := "\n```json\n" + body + "\n```";
    assert s == "\n```" + t;
    assert s[0] == '\n' && s[..4] == "\n```" && s[4..] == t;
    assert |s| >= 7 ==> s[..7][0] == s[0];
    assert '`' !in "json\n" + body;
    StripClosingFence("json\n" + body);
  }

  /** `if (part.text)`: the part has a non-empty text. */
  predicate HasText(p: Part)
  {
    p.text.Some? && p.text.value != ""
  }

  /** The part has a text that, cleaned, parses as captions. */
  predicate Parses(p: Part, parse: string -> Option<MemeCaptions>)
  {
    HasText(p) && parse(Clean(p.text.value)).Some?
  }

  /** The captions a part's text parses to. */
  function PartCaptions(p: Part, parse: string -> Option<MemeCaptions>): MemeCaptions
    requires Parses(p, parse)
  {
    parse(Clean(p.text.value)).value
  }

  /** Part `k` is the first that parses. */
  predicate FirstParsing(parts: seq<Part>, parse: string -> Option<MemeCaptions>, k: int)
  {
    && 0 <= k < |parts|
    && Parses(parts[k], parse)
    && forall j :: 0 <= j < k ==> !Parses(parts[j], parse)
  }

  /** A parsing part after a head that does not parse is a parsing part of
      the tail. */
  lemma ParsesInTail(parts: seq<Part>, parse: string -> Option<MemeCaptions>, k: int)
    requires 0 <= k < |parts| && Parses(parts[k], parse) && !Parses(parts[0], parse)
    ensures 0 <= k - 1 < |parts[1..]| && Parses(parts[1..][k - 1], parse)
  {
    assert parts[1..][k - 1] == parts[k];
  }

  /** Behind a head that does not parse, the first parsing part of the tail
      is the first parsing part of the whole. */
  lemma FirstParsingShift(parts: seq<Part>, parse: string -> Option<MemeCaptions>, k: int)
    requires parts != [] && !Parses(parts[0], parse) && FirstParsing(parts[1..], parse, k)
    ensures FirstParsing(parts, parse, k + 1) && parts[k + 1] == parts[1..][k]
  {
    forall j | 0 <= j < k + 1 ensures !Parses(parts[j], parse) {
      if j > 0 { assert parts[j] == parts[1..][j - 1]; }
    }
  }

  /** The captions of the first part that parses, if any. */
  function FirstCaptions(parts: seq<Part>, parse: string -> Option<MemeCaptions>): (r: Option<MemeCaptions>)
    ensures r.Some? <==> exists k :: 0 <= k < |parts| && Parses(parts[k], parse)
    ensures r.Some? ==> exists k :: FirstParsing(parts, parse, k) && r.value == PartCaptions(parts[k], parse)
    decreases |parts|
  {
    if parts == [] then None
    else if Parses(parts[0], parse) then
      assert FirstParsing(parts, parse, 0);
      Some(PartCaptions(parts[0], parse))
    else
      var r := FirstCaptions(parts[1..], parse);
      assert (exists k :: 0 <= k < |parts| && Parses(parts[k], parse))
             ==> exists k :: 0 <= k < |parts[1..]| && Parses(parts[1..][k], parse) by {
        if exists k :: 0 <= k < |parts| && Parses(parts[k], parse) {
          var k :| 0 <= k < |parts| && Parses(parts[k], parse);
          ParsesInTail(parts, parse, k);
        }
      }
      assert r.Some? ==> exists k :: FirstParsing(parts, parse, k) && r.value == PartCaptions(parts[k], parse) by {
        if r.Some? {
          var k :| FirstParsing(parts[1..], parse, k) && r.value == PartCaptions(parts[1..][k], parse);
          FirstParsingShift(parts, parse, k);
        }
      }
      r
  }

  /** The part that parses first is unique. */
  lemma FirstParsingUnique(parts: seq<Part>, parse: string -> Option<MemeCaptions>, k1: int, k2: int)
    requires FirstParsing(parts, parse, k1) && FirstParsing(parts, parse, k2)
    ensures k1 == k2
  {
    if k1 < k2 {
      assert false;
    } else if k2 < k1 {
      assert false;
    }
  }

  /** The outcome of scanning a reply: the captions of the first part of
      the first candidate that parses; a reply without candidates, or whose
      first candidate has no such part, fails with "Failed to generate
      captions.". Later candidates are never looked at. */
  function CaptionsOf(reply: Response, parse: string -> Option<MemeCaptions>): (r: Result<MemeCaptions>)
    ensures r.Ok? <==> reply.candidates.Some? && |reply.candidates.value| > 0
                       && exists k :: 0 <= k < |reply.candidates.value[0].parts|
                                     && Parses(reply.candidates.value[0].parts[k], parse)
    ensures r.Ok? ==> exists k :: FirstParsing(reply.candidates.value[0].parts, parse, k)
                                  && r.value == PartCaptions(reply.candidates.value[0].parts[k], parse)
    ensures r.Err? ==> r.error == CaptionsError
  {
    match reply.candidates
    case None => Err(CaptionsError)
    case Some(cs) =>
      if |cs| == 0 then Err(CaptionsError)
      else
        match FirstCaptions(cs[0].parts, parse)
        case Some(c) => Ok(c)
        case None => Err(CaptionsError)
  }

  /** The scan of `generatePhotoMeme`: the parts of the first candidate in
      order, skipping parts without text and texts that do not parse,
      returning at the first that does. */
  method ScanReply(reply: Response, parse: string -> Option<MemeCaptions>) returns (r: Result<MemeCaptions>)
    ensures r == CaptionsOf(reply, parse)
  {
    var candidates := reply.candidates;
    if candidates.Some? && |candidates.value| > 0 {
      var parts := candidates.value[0].parts;
      var i := 0;
      while i < |parts|
        invariant 0 <= i <= |parts|
        invariant forall j :: 0 <= j < i ==> !Parses(parts[j], parse)
      {
        var part := parts[i];
        if part.text.Some? && part.text.value != "" {
          var jsonStr := Clean(part.text.value);
          var parsed := parse(jsonStr);
          if parsed.Some? {
            assert FirstParsing(parts, parse, i);
            var k :| FirstParsing(parts, parse, k) && FirstCaptions(parts, parse).value == PartCaptions(parts[k], parse);
            FirstParsingUnique(parts, parse, i, k);
            return Ok(parsed.value);
          }
        }
        i := i + 1;
      }
    }
    return Err(CaptionsError);
  }

  /** The outcome of a call: the remote failure as it was thrown, or the
      scan of the reply. */
  function GenerationOutcome(reply: Result<Response>, parse: string -> Option<MemeCaptions>): Result<MemeCaptions>
  {
    match reply
    case Err(e) => Err(e)
    case Ok(resp) => CaptionsOf(resp, parse)
  }

  /** The generative-model service as the app sees it: the API key from the
      environment, the model's replies, and every request made so far. */
  class CaptionService {
    const apiKey: Option<string>
    const reply: Request -> Result<Response>
    var requests: seq<Request>

    constructor (apiKey: Option<string>, reply: Request -> Result<Response>)
      ensures this.apiKey == apiKey && this.reply == reply && requests == []
    {
      this.apiKey := apiKey;
      this.reply := reply;
      requests := [];
    }

    /** `generatePhotoMeme`: exactly one request, for this photo and this
        context; its failure is thrown on unchanged, and otherwise the reply
        is scanned. */
    method GeneratePhotoMeme(imageData: string, prompt: string, parse: string -> Option<MemeCaptions>)
      returns (r: Result<MemeCaptions>)
      modifies this`requests
      ensures requests == old(requests) + [PhotoRequest(apiKey, imageData, prompt)]
      ensures var reply := reply(PhotoRequest(apiKey, imageData, prompt));
              && (reply.Err? ==> r == Err(reply.error))
              && (reply.Ok? ==> r == CaptionsOf(reply.value, parse))
    {
      var request := PhotoRequest(apiKey, imageData, prompt);
      requests := requests + [request];
      var response := reply(request);
      if response.Err? {
        return Err(response.error);
      }
      r := ScanReply(response.value, parse);
    }
  }
}
