# Cat meme generator: a verified model of its core

The cat meme generator is a small web app. A user picks a cat photo. The app
asks a generative model for a top and a bottom caption, or takes them from a
built-in list in mock mode. It then draws the captions on the photo in the
classic white-with-black-outline meme style and keeps the result in a
history saved in the browser's local storage.

This project models the four core files of that app in Dafny and proves
properties of the model:

- `utils/canvasUtils.ts` is modelled in `canvas_utils.dfy` (module
  `CanvasUtils`). It covers the resize rule, the text metrics, the two greedy
  word-wrap loops and where the caption lines are placed. The greedy layout
  itself, with no drawing, is in `layout.dfy` (module `Layout`).
- `services/geminiService.ts` is modelled in `gemini.dfy` (module `Gemini`).
  It covers the data-URL split, the prompt template, code-fence stripping and
  the scan of the reply.
- `App.tsx` is modelled in `history.dfy` (module `History`): the history list
  and its storage entry.
- `components/MemeCreator.tsx` is modelled in `creator.dfy` (module
  `Creator`): the screen's state, the generation handler, the file handler and
  the error messages.
- `text_ops.dfy` (module `TextOps`) gives the JavaScript string methods the
  code uses: `split`, `includes`, `endsWith`, case mapping and `trim`. It also
  defines `Join`, which the code does not call: it is the inverse of `split`,
  in which the split round trips are stated.
- `meme_types.dfy` (module `MemeTypes`) holds the records of `types.ts`, plus
  `Option`, `Result` and `Failure`. `Failure` is a thrown value seen through its
  `name` and `message`.

Things the app gets from the browser or from libraries are parameters of the
model:

- decoding an image, whether a 2D context exists, measuring text and encoding
  a picture (the `Browser` record);
- the remote model (a function from requests to replies, or to a failure);
- `JSON.parse` and `JSON.stringify`;
- the HEIC converter and the file reader;
- the storage's refusal of a write;
- the user's answer to the confirmation dialog;
- `Math.random()` and `Date.now()`.

Objects whose state the code changes are classes:

- `CanvasUtils.Canvas2D`: a canvas and its context, recording the drawing
  calls made on it;
- `Gemini.CaptionService`: the remote service, recording the requests sent;
- `History.App`: the history and the storage;
- `Creator.MemeCreator`: the screen's React state.

Each method is proved against a specification function. For example, the
drawing loop `WrapText` appends exactly `LineOps(CaptionLines(..))`, the
calls for the greedily wrapped lines. The bottom-caption builder
`CollectLines` returns exactly `CaptionLines(..)`, so the two wrapping loops
in the source produce the same lines.

Notes on behaviour that the model follows as the code has it:

- The model is called once per generation. There is no retry and no back-off.
- Captions are cut at every single space `" "`, not at runs of white space.
  Every caption gives at least one line, even an empty one. Every line keeps
  a trailing space.
- Each line is filled first and then outlined.
- Only the top caption is upper-cased before it is drawn. The bottom caption is
  drawn as it was given.

## Model

| member | source | states |
|---|---|---|
| TextOps.Split | utils/canvasUtils.ts:87 | `split` gives at least one piece, and no piece contains the separator. A string without the separator is its own single piece, and only then. |
| TextOps.JoinSplit | services/geminiService.ts:18 | Joining the pieces of a split with the separator gives back the original string. |
| TextOps.SplitJoin | services/geminiService.ts:18-19 | Splitting a join of separator-free pieces gives back exactly those pieces. |
| TextOps.Contains | components/MemeCreator.tsx:120 | `includes` holds exactly when the substring occurs at some index. |
| TextOps.EndsWith | components/MemeCreator.tsx:43 | `endsWith` holds exactly when the last characters of the string are the suffix. |
| TextOps.ToLower | components/MemeCreator.tsx:43 | `toLowerCase` turns each capital ASCII letter into its small letter and leaves every other character as it is, position by position, so no capital ASCII letter is left. |
| TextOps.ToUpper | utils/canvasUtils.ts:114 | `toUpperCase` turns each small ASCII letter into its capital and leaves every other character as it is, position by position, so no small ASCII letter is left. |
| TextOps.Trim | services/geminiService.ts:39 | `trim` drops only white space, and only from the two ends. When the result is not empty, it starts and ends with a non-space character. |
| Layout.Fold | utils/canvasUtils.ts:91-103 | The loop's state after `n` words. A word that would make the open line wider than the limit, and is not the first word, closes that line and opens a new one. Any other word is appended to the open line with a space. |
| Layout.Wrap | utils/canvasUtils.ts:87-105 | The wrap loop always emits at least one line. |
| Layout.FoldIsGreedy | utils/canvasUtils.ts:91-103 | After each word, the loop's closed lines and open line form the greedy layout. Lines are runs of consecutive words. Every word appended to a line fitted within the width. Every line break happened because the next word overflowed. |
| Layout.WrapIsGreedy | utils/canvasUtils.ts:87-105 | The lines of the wrap loop are a greedy layout of the words. |
| Layout.GreedyLayoutUnique | utils/canvasUtils.ts:95-102 | Two greedy layouts of the same words are identical, so every break is forced. |
| Layout.GreedyLayoutIsWrap | utils/canvasUtils.ts:95-102 | Any greedy layout of a word list is exactly what the wrap loop produces. |
| Layout.WrapNoOverflow | utils/canvasUtils.ts:95-102 | A line wider than the limit holds a single word. Every line of two or more words fits. |
| Layout.OverflowingWordAlone | utils/canvasUtils.ts:95-102 | When the measure never shrinks as text is added, a word wider than the limit on its own occupies a line by itself: its line starts with it and ends right after it. |
| Layout.FoldKeepsWords | utils/canvasUtils.ts:91-103 | The closed lines plus the open line are the words seen so far, each followed by one space. The loop loses and adds nothing. |
| Layout.WrapKeepsText | utils/canvasUtils.ts:87-105 | The lines concatenated read back as the caption text plus one trailing space. |
| CanvasUtils.FitWidth | utils/canvasUtils.ts:17-20 | The new width is the smaller of the width and `maxWidth`, and the aspect ratio is kept. The height never grows. An image no wider than `maxWidth` keeps its size. |
| CanvasUtils.MetricsRule | utils/canvasUtils.ts:77-109 | The font size is the width divided by 12 and rounded down. The outline is a fifteenth of the font size. A line height is 1.1 font sizes. The padding is 5% of the height. |
| CanvasUtils.MetricsFor | utils/canvasUtils.ts:77-109 | The caption metrics of a canvas: font size, outline width, line height and padding (their values are stated by `MetricsRule`). |
| CanvasUtils.BottomStart | utils/canvasUtils.ts:134 | The first bottom line goes `k - 1` line heights above `height - padding`. |
| CanvasUtils.Canvas2D.SetLineWidth | utils/canvasUtils.ts:81 | Assigning `lineWidth` takes a positive width and ignores any other, keeping the current one. |
| CanvasUtils.Canvas2D.DrawImage | utils/canvasUtils.ts:74 | `drawImage` appends one call drawing the photo at the given size, and nothing else. |
| CanvasUtils.Canvas2D.FillText | utils/canvasUtils.ts:96 | `fillText` appends one fill of the text at the given point, under the current baseline. |
| CanvasUtils.Canvas2D.StrokeText | utils/canvasUtils.ts:97 | `strokeText` appends one outline of the text at the given point, under the current baseline. |
| CanvasUtils.CaptionLines | utils/canvasUtils.ts:87-105 | A caption's lines: the text cut at single spaces, then wrapped greedily (the properties are those of `Layout.Wrap`). |
| CanvasUtils.LineOps | utils/canvasUtils.ts:96-105 | The calls that draw a list of lines: two per line, each line filled and then outlined, one line height below the one before. |
| CanvasUtils.Canvas2D.constructor | utils/canvasUtils.ts:54 | A fresh canvas and context: 300 by 150 pixels, nothing drawn, alphabetic baseline, and the default text settings, including a 1-pixel line width. |
| CanvasUtils.LineOpsAt | utils/canvasUtils.ts:134-137 | In the drawing calls for a list of lines, line `i` is filled and then outlined at `y + i * lineHeight`. |
| CanvasUtils.WrapText | utils/canvasUtils.ts:86-106 | The interleaved loop draws exactly the greedily wrapped lines, each filled then outlined, one line height apart from `y` down. |
| CanvasUtils.CollectLines | utils/canvasUtils.ts:120-132 | The list-building loop returns exactly the greedily wrapped lines, the same ones `wrapText` draws. |
| CanvasUtils.DrawLines | utils/canvasUtils.ts:134-137 | Drawing prepared lines appends a fill and an outline per line, at `startY + i * lineHeight`. |
| CanvasUtils.CompressedPicture | utils/canvasUtils.ts:8-37 | Compression succeeds exactly when the image loads and a context exists. A failed load rejects with the event. A missing context rejects with "Failed to get canvas context". A success is JPEG at the given quality, sized by the `maxWidth` rule (`FitWidth`: at most `maxWidth` wide, aspect ratio kept), and its only drawing call is the photo at that size. |
| CanvasUtils.CompressImage | utils/canvasUtils.ts:8-37 | `compressImage` resolves with the encoding of that picture, or rejects with its failure. |
| CanvasUtils.MemePicture | utils/canvasUtils.ts:45-147 | Rendering succeeds exactly when the image loads and a context exists, with "Could not get canvas context" otherwise. A success is JPEG at quality 0.8, at most `maxWidth` wide, and its first call draws the photo at that size. |
| CanvasUtils.DrawTopCaption | utils/canvasUtils.ts:112-115 | The top caption appends the calls for its upper-cased text's lines from the top padding down, under a top baseline. An empty caption draws nothing and leaves the baseline as it was. |
| CanvasUtils.DrawBottomCaption | utils/canvasUtils.ts:118-139 | The bottom caption appends the calls for its lines, starting so that the last line stands on the bottom padding, under a bottom baseline. An empty caption draws nothing and leaves the baseline as it was. |
| CanvasUtils.DrawMemeOnCanvas | utils/canvasUtils.ts:45-147 | `drawMemeOnCanvas` resolves with the encoding of the rendered picture, or rejects with its failure. |
| CanvasUtils.MemePictureStyle | utils/canvasUtils.ts:77-82 | Captions are white, outlined in black and centred. The font is the width over 12, rounded down. The outline is a fifteenth of the font size. With a font size of zero the context ignores the zero width and keeps its 1-pixel default. |
| CanvasUtils.NoCaptionsNoText | utils/canvasUtils.ts:112-118 | With both captions empty, the meme is the resized photo alone. |
| CanvasUtils.MemeOpsCount | utils/canvasUtils.ts:112-139 | After the photo, exactly two calls are made per top line and two per bottom line, and nothing else. |
| CanvasUtils.TopCaptionPlacement | utils/canvasUtils.ts:112-115 | Top line `i` is filled and then outlined at `(width/2, padding + i * lineHeight)` with a top baseline. |
| CanvasUtils.BottomCaptionPlacement | utils/canvasUtils.ts:134-137 | Bottom line `i` of `k` is filled and then outlined at `(width/2, height - padding - (k-1-i) * lineHeight)` with a bottom baseline, so the last line stands at `height - padding`. |
| CanvasUtils.CaptionsKeepText | utils/canvasUtils.ts:112-132 | The rendered top lines read back as the upper-cased top text, and the bottom lines as the bottom text as given, each plus one space. |
| CanvasUtils.CaptionLinesFit | utils/canvasUtils.ts:125-130 | No rendered caption line of two or more words is wider than the picture less 40 pixels. |
| Gemini.DataUrlPayload | services/geminiService.ts:18 | The payload exists exactly when the data URL has a comma, and it contains no comma. |
| Gemini.MimeOf | services/geminiService.ts:19 | The mime type exists exactly when the text before the first `;` has a colon. It contains neither `:` nor `;`. |
| Gemini.PayloadRoundTrip | services/geminiService.ts:18 | A data URL `header,payload` yields exactly `payload`. |
| Gemini.MimeRoundTrip | services/geminiService.ts:19 | For any scheme and mime type free of `:` and `;`, the URL `scheme:mime;rest` yields exactly `mime`. |
| Gemini.Instruction | services/geminiService.ts:23-28 | The text part of the request: the fixed template with the user's context inserted. |
| Gemini.PhotoRequest | services/geminiService.ts:12-32 | The request: the model "gemini-flash-latest", the photo's payload and mime type, and the instruction. |
| Gemini.InstructionKeepsPrompt | services/geminiService.ts:23-28 | The user's context sits unchanged between the fixed head and tail of the instruction. |
| Gemini.InstructionInjective | services/geminiService.ts:23-28 | Different contexts give different instructions. |
| Gemini.StripFences | services/geminiService.ts:39 | Fence stripping never lengthens a text, and leaves a text without backticks unchanged. |
| Gemini.Clean | services/geminiService.ts:39 | The text handed to `JSON.parse`: the fences stripped, then the result trimmed. |
| Gemini.StripClosingFence | services/geminiService.ts:39 | A closing fence with its preceding newline is removed from a body without backticks. |
| Gemini.FencedReply | services/geminiService.ts:39 | A reply fenced as "```json", newline, body, newline, "```" cleans to the trimmed body, the same as the bare body. |
| Gemini.NewlineBeforeOpeningFence | services/geminiService.ts:39 | A newline before the opening fence is taken as part of a closing-fence match, which leaves the word "json" in the text. |
| Gemini.HasText | services/geminiService.ts:37 | A part is considered only when it has a text and that text is not empty. |
| Gemini.FirstCaptions | services/geminiService.ts:36-45 | The scan yields captions exactly when some part parses, and then those of the first part that parses. |
| Gemini.FirstParsingUnique | services/geminiService.ts:36-40 | The first parsing part is unique. |
| Gemini.CaptionsOf | services/geminiService.ts:34-48 | A reply succeeds exactly when it has candidates and some part of the first candidate parses, with that first part's captions. Anything else fails with "Failed to generate captions.". |
| Gemini.ScanReply | services/geminiService.ts:34-48 | The loop over the first candidate's parts, with its early return, computes exactly that outcome. |
| Gemini.CaptionService.constructor | services/geminiService.ts:10 | The client is built with the API key from the environment. No request has been sent yet. |
| Gemini.CaptionService.GeneratePhotoMeme | services/geminiService.ts:6-49 | Each call sends exactly one request: the model "gemini-flash-latest", the photo's payload and mime type, and the instruction with the context. A failure of that request is thrown on unchanged. A reply gives exactly `CaptionsOf` the reply. |
| History.LoadedHistory | App.tsx:13-21 | The history found at start-up: the parsed stored value when it exists, is non-empty and parses, and the empty list otherwise. |
| History.IsQuotaFailure | App.tsx:31 | A storage failure is a quota failure when it is named "QuotaExceededError" or its lower-cased message contains "quota". |
| History.SaveFailure | App.tsx:31-34 | A quota failure is replaced by the STORAGE_FULL error. Any other failure is thrown on unchanged. |
| History.App.constructor | App.tsx:13-21 | On start-up, a stored non-empty history that parses becomes the history. Otherwise the history is empty. |
| History.App.SaveToHistory | App.tsx:24-36 | The item is put at the front of the history even when the write fails. A successful write stores the serialized new history under `cat_meme_history`. A refused write leaves storage unchanged. It is reported as the STORAGE_FULL error when it is a quota failure, and unchanged otherwise. |
| History.App.ClearHistory | App.tsx:38-43 | When confirmed, the history is emptied and the key removed. Otherwise nothing changes. |
| History.SavedHistoryReloads | App.tsx:13-28 | A history written by a save is what the next start-up loads, whenever parsing undoes serializing. |
| History.ClearedHistoryReloadsEmpty | App.tsx:38-43 | After clearing, a start-up loads an empty history. |
| History.QuotaDetectionIgnoresCase | App.tsx:31 | Quota detection does not depend on the letter case of the message. |
| History.StorageFullIsFinal | App.tsx:31-32 | The STORAGE_FULL error is not itself a quota failure, so translating it again leaves it unchanged. |
| Creator.MockPick | components/MemeCreator.tsx:25-33 | The mock draw is always one of the five fixed caption pairs. |
| Creator.MockPickCoversAll | components/MemeCreator.tsx:33 | Every pair can be drawn: the draws in `[i/5, (i+1)/5)` pick pair `i`. |
| Creator.IsHeic | components/MemeCreator.tsx:43 | A file is HEIC when its lower-cased name ends in ".heic" or ".heif". |
| Creator.IsHeicIgnoresCase | components/MemeCreator.tsx:43 | HEIC detection does not depend on the letter case of the file name. |
| Creator.Decimal | components/MemeCreator.tsx:105 | An id is a non-empty string of decimal digits without a leading zero. |
| Creator.DecimalRoundTrip | components/MemeCreator.tsx:105 | Reading the id's digits back gives the clock reading, so different times give different ids. |
| Creator.IsRateLimited | components/MemeCreator.tsx:120 | The failure's message contains "429" or "RESOURCE_EXHAUSTED". |
| Creator.IsStorageFull | components/MemeCreator.tsx:122 | The lower-cased message contains "quota", or the message contains "STORAGE_FULL", or the failure is named "QuotaExceededError". |
| Creator.IsKeyProblem | components/MemeCreator.tsx:124 | The failure's message contains "API key". |
| Creator.UserMessage | components/MemeCreator.tsx:113-126 | Each failure class has its own message, with fixed precedence. "429" or "RESOURCE_EXHAUSTED" in the message gives the busy message. Otherwise, a quota failure gives the history-full message. Otherwise, "API key" gives the invalid-key message. Otherwise, the generic message. |
| Creator.ClassifyFailure | components/MemeCreator.tsx:115-126 | The handler's if/else chain on `userMessage` picks exactly that message. |
| Creator.QuotaSaveFailureShowsHistoryFull | components/MemeCreator.tsx:120-123 | A storage quota failure during saving reaches the user as the history-full message. |
| Creator.RenderedFromOriginal | components/MemeCreator.tsx:99 | The meme is drawn from the chosen photo, at up to 1200 pixels, not from the copy compressed for the model. |
| Creator.NewItem | components/MemeCreator.tsx:104-110 | The history entry is a photo meme holding the rendered URL. Its description is the context, or "Photo Meme" when the context is empty. Its id is exactly the decimal digits of the first clock reading, as `toString` writes them, and it reads back as that reading. Its `createdAt` is the second reading. |
| Creator.ObtainCaptions | components/MemeCreator.tsx:89-96 | Mock mode draws a mock pair and sends no request. Remote mode compresses the photo and asks the model once, and sends nothing if compression fails. |
| Creator.MemeCreator.constructor | components/MemeCreator.tsx:15-21 | The screen starts IDLE, with no preview, an empty context, no error, no result, not converting and mock mode off. |
| Creator.MemeCreator.HandleFileChange | components/MemeCreator.tsx:36-73 | With no file, nothing changes. Otherwise the error and the result are cleared. A non-HEIC file becomes the preview. A HEIC file is converted first, using the first blob of an array. A failed conversion, or one yielding no blob, shows the HEIC message and keeps the old preview. |
| Creator.MemeCreator.HandleGenerate | components/MemeCreator.tsx:75-137 | With no photo, only "Please upload a cat photo first!" is set. Otherwise the caption step runs and the meme is rendered from the original preview. A failure before rendering gives status ERROR with its message, and nothing is saved. A rendered meme is shown and put first in the history. A failed save then shows its message while status stays SUCCESS, unless the URL is empty. |
| Creator.MemeCreator.Reset | components/MemeCreator.tsx:149-156 | Reset clears the preview, the result, the context and the error, and returns to IDLE. |

## Left out

- Rendering works on exact rationals. IEEE rounding is not modelled. Neither
  is the canvas truncating fractional widths and heights to integers when they
  are assigned.
- Text measuring is an arbitrary function of font size and text. Font
  families are not modelled.
- `toDataURL` encodings are an arbitrary function of the picture. Pixels are
  not modelled.
- `JSON.parse` and `JSON.stringify` are parameters. A stored history or a
  reply that parses to something other than the expected shape is not
  modelled. Neither is a caption key missing from the parsed object.
- `Gemini.CaptionsOf` does not model a candidate without `content`, or a
  `content` without `parts`. The source would throw a `TypeError` on either,
  instead of the captions error.
- The SDK client's construction, the request's HTTP transport and the remote
  model are one function from requests to replies. `process.env.API_KEY` is a
  constant of the service.
- `Creator.MemeCreator.HandleFileChange` has no case for the file reader
  failing. Its `onload` and the HEIC conversion are taken to complete before
  the handler returns. The `isConverting` flag therefore shows only its final
  value.
- `Creator.MemeCreator.HandleGenerate` does not model the intermediate
  GENERATING status seen while its awaits are pending, the 800 ms delay in mock
  mode, or concurrent invocations.
- `Math.random()` is a parameter in [0, 1). `Date.now()` is two parameters, one
  per reading.
- `TextOps.ToLower` maps only the ASCII capitals. Other letters are left as
  they are, while JavaScript's `toLowerCase` maps them too.
- `TextOps.ToUpper` maps only the ASCII small letters. Other letters are left as
  they are, while JavaScript's `toUpperCase` maps them too and can change the
  length (`"ß"` becomes `"SS"`).
- `Layout.OverflowingWordAlone` holds only for a measure that never shrinks
  as text is added on either side. Text measuring is otherwise arbitrary in
  this model, and for an arbitrary measure an overflowing word can share a
  line.
- Not modelled: the rendering of the UI, the prompt and mock-mode inputs,
  `handleDownload`, the gallery, the header, `list_models.js`, console
  logging, and the file input reset in `reset`.
