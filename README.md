# Percepta speech notification and image upload, modelled in Dafny

The Percepta demo site has three small pieces of sequential logic, each
modelled here in its own module:

- `TextToSpeechRoute` (`text_to_speech_route.dfy`): the `POST` handler of
  `/api/text-to-speech`, the gateway between the page and the ElevenLabs
  speech provider. It is a pure function from the parsed request body, the
  configured credential and what the provider did, to one HTTP response plus
  the provider calls made. A `text` that is missing, empty, `null`, `false` or
  `0` is the only request error
  (400 Bad Request, section 15.5.1 of RFC 9110). A missing credential, a provider
  status that is not ok, a failed fetch and a failed body read all become a
  200 `{fallback: true, text}` with the caller's text, whatever JSON value it
  was. An unparsable body
  becomes a 200 fallback with a fixed message. Audio goes back as
  `audio/mpeg` with a `Content-Length` (section 8.6 of RFC 9110) that reads
  back as the exact byte count.
- `PerceptaPlayback` (`percepta_playback.dfy`): `playTextToSpeech` on the demo
  page and its `isPlaying` flag. The asynchronous function is cut into
  events: the click, the gateway reply, `audio.onended` and `utterance.onend`.
  A pure `Step` function over a `Controller` state specifies them, and the class
  `PlaybackController` implements them in place with one method per event.
  Every event method ensures `Model() == Step(old(Model()), event)`; the
  helper `CatchBlock` ensures the state `LocalSynthesis` specifies. The model
  follows the code: local synthesis runs only when the `try` block throws, and
  a non-ok reply or the gateway's own fallback JSON matches no branch.
- `FileUpload` (`file_upload.dfy`): `validateFile` as the pure `Validate`
  (5 MiB inclusive limit first, then a five-type whitelist). The class
  `Uploader` holds the component state `file`, `error`, `isDragOver`,
  `preview` and the input's value, and its methods are the handlers.
  Its invariant says that only validated files are ever kept or reported.

`Wrappers` (`wrappers.dfy`) holds the `Option` type for JavaScript's
`null`/`undefined`.

## Model

| member | source | states |
|---|---|---|
| TextToSpeechRoute.Post | website/buildingblocs/src/app/api/text-to-speech/route.ts:11-95 | unparsable body gives 200 fallback with the fixed processing-error text; a falsy text gives 400 `{error: "Text is required"}` with no call; no key gives 200 fallback with the caller's text and no call; with a key exactly one call carrying that key, the text, model id and voice settings; audio comes back iff the provider was ok with a readable body, byte for byte, as audio/mpeg, with a Content-Length that parses to its length; every other provider result is a 200 fallback with the original text; the status is 200 or 400, and 400 iff the text is falsy; at most one call |
| TextToSpeechRoute.ProviderResponse | website/buildingblocs/src/app/api/text-to-speech/route.ts:33-82 | the inner try: audio iff the provider status is 2xx and the body was read, with type audio/mpeg and exact Content-Length; otherwise a 200 fallback with the text |
| TextToSpeechRoute.DecimalString | website/buildingblocs/src/app/api/text-to-speech/route.ts:63 | `byteLength.toString()` is one or more decimal digits, with no leading zero |
| TextToSpeechRoute.ParseContentLength | website/buildingblocs/src/app/api/text-to-speech/route.ts:63 | a header value parses exactly when it is one or more digits (`1*DIGIT`) |
| TextToSpeechRoute.ContentLengthRoundTrip | website/buildingblocs/src/app/api/text-to-speech/route.ts:59-65 | the Content-Length written for n bytes reads back as n |
| TextToSpeechRoute.SameRequestSameShape | website/buildingblocs/src/app/api/text-to-speech/route.ts:11-95 | the same request against a provider that behaves alike gives the same status and body shape |
| TextToSpeechRoute.NoCallNoInfluence | website/buildingblocs/src/app/api/text-to-speech/route.ts:15-30 | when no provider call is made, the provider's behaviour does not affect the response |
| TextToSpeechRoute.ProviderStatusNeverLeaks | website/buildingblocs/src/app/api/text-to-speech/route.ts:66-77 | a provider status outside 2xx never becomes the response status: 200 fallback with the original text |
| TextToSpeechRoute.HazardAheadWithoutKey | website/buildingblocs/src/app/api/text-to-speech/route.ts:23-30 | "Hazard ahead" with no key gives 200 `{fallback: true, text: "Hazard ahead"}` and no call |
| TextToSpeechRoute.NumberTextEchoed | website/buildingblocs/src/app/api/text-to-speech/route.ts:15-29 | a non-zero number as `text` comes back in the fallback as that same number; `0` is rejected with 400 |
| TextToSpeechRoute.EmptyTextRejected | website/buildingblocs/src/app/api/text-to-speech/route.ts:15-20 | an empty text gives 400 `{error: "Text is required"}` whatever the key and provider |
| PerceptaPlayback.LocalSynthesis | website/buildingblocs/src/app/percepta/page.tsx:44-65 | the catch block: with synthesis available, speak the page's text at rate 0.8, pitch 1, volume 1 and wait for onend; otherwise clear isPlaying at once |
| PerceptaPlayback.StepKeepsInv | website/buildingblocs/src/app/percepta/page.tsx:16-67 | each event keeps the invariant (waiting only while playing, awaited audio has a live URL, URLs were handed out) and only appends effects |
| PerceptaPlayback.RunKeepsInv | website/buildingblocs/src/app/percepta/page.tsx:16-67 | any sequence of events keeps the invariant, the text and every effect already done |
| PerceptaPlayback.ClickPlaysThenRequests | website/buildingblocs/src/app/percepta/page.tsx:16-25 | a click on an idle page sets isPlaying true and then sends the gateway request with the page's text |
| PerceptaPlayback.DisabledWhilePlaying | website/buildingblocs/src/app/percepta/page.tsx:122-123 | while isPlaying the button is disabled: a click changes nothing, so the function is not re-entered |
| PerceptaPlayback.AudioPlaysUntilEnded | website/buildingblocs/src/app/percepta/page.tsx:27-38 | an ok audio reply whose play starts creates one URL and keeps isPlaying; onended clears isPlaying and revokes that same URL |
| PerceptaPlayback.SpeaksOnlyWhenTryThrows | website/buildingblocs/src/app/percepta/page.tsx:27-44 | local synthesis is attempted iff the fetch, blob or play rejected and synthesis can speak |
| PerceptaPlayback.NonAudioReplyDoesNothing | website/buildingblocs/src/app/percepta/page.tsx:27-40 | a non-ok reply, or an ok reply without an audio content type, does nothing and leaves isPlaying true |
| PerceptaPlayback.FallbackSpeaksThenEnds | website/buildingblocs/src/app/percepta/page.tsx:44-55 | after a rejected fetch the utterance speaks the page's text with rate 0.8, pitch 1, volume 1, and its onend clears isPlaying |
| PerceptaPlayback.NoSynthesisStopsAtOnce | website/buildingblocs/src/app/percepta/page.tsx:56-65 | without speech synthesis, or when it throws, isPlaying is cleared at once with nothing left to wait for |
| PerceptaPlayback.StuckStaysStuck | website/buildingblocs/src/app/percepta/page.tsx:27-40 | a playing page that waits for nothing is unchanged by every later sequence of events |
| PerceptaPlayback.FallbackReplyNeverSettles | website/buildingblocs/src/app/percepta/page.tsx:27-40 | after a fallback JSON or non-ok reply, isPlaying stays true and nothing more is done, whatever events follow |
| PerceptaPlayback.PlayRejectedLeaksUrl | website/buildingblocs/src/app/percepta/page.tsx:30-44 | when play() rejects, the page ends idle with the object URL still live |
| PerceptaPlayback.IntendedRunSettles | website/buildingblocs/src/app/percepta/page.tsx:16-67 | in the corrected controller, isPlaying holds exactly while something is awaited and a URL is live exactly while its audio plays |
| PerceptaPlayback.IntendedFallbackReplySpeaks | website/buildingblocs/src/app/percepta/page.tsx:27-55 | in the corrected controller a fallback reply is spoken locally and onend clears isPlaying |
| PerceptaPlayback.IntendedPlayRejectedReleasesUrl | website/buildingblocs/src/app/percepta/page.tsx:30-44 | in the corrected controller a rejected play() leaves no live URL once idle |
| PerceptaPlayback.PlaybackController.constructor | website/buildingblocs/src/app/percepta/page.tsx:12-15 | the page starts not playing, with nothing awaited |
| PerceptaPlayback.PlaybackController.Click | website/buildingblocs/src/app/percepta/page.tsx:16-25 | the button's onClick: ignored while playing, otherwise isPlaying true, then the request, then await the reply |
| PerceptaPlayback.PlaybackController.OnGatewayReply | website/buildingblocs/src/app/percepta/page.tsx:27-44 | the function resumed with the reply: audio path, catch block when it throws, nothing otherwise; isPlaying stays true unless the catch block gives up |
| PerceptaPlayback.PlaybackController.CatchBlock | website/buildingblocs/src/app/percepta/page.tsx:41-65 | the catch block, as LocalSynthesis specifies |
| PerceptaPlayback.PlaybackController.OnAudioEnded | website/buildingblocs/src/app/percepta/page.tsx:34-37 | onended clears isPlaying and revokes the URL of the audio that ended |
| PerceptaPlayback.PlaybackController.OnUtteranceEnd | website/buildingblocs/src/app/percepta/page.tsx:51-53 | onend clears isPlaying |
| FileUpload.Validate | website/buildingblocs/src/components/fileupload.tsx:19-40 | a file passes iff its size is at most 5 MiB and its type is whitelisted; oversized files get the size message, before the type is looked at; other refused files get the type message |
| FileUpload.SizeLimitInclusive | website/buildingblocs/src/components/fileupload.tsx:20-23 | exactly 5242880 bytes passes and 5242881 gets "File size exceeds 5MB limit." |
| FileUpload.SizeCheckedBeforeType | website/buildingblocs/src/components/fileupload.tsx:20-36 | an oversized file of a bad type gets the size message |
| FileUpload.AcceptedTypes | website/buildingblocs/src/components/fileupload.tsx:26-36 | within the size limit, exactly image/jpeg, image/jpg, image/png, image/gif and image/bmp pass; image/webp and the empty type get the type message |
| FileUpload.Uploader.constructor | website/buildingblocs/src/components/fileupload.tsx:13-17 | the component starts with no file, error or preview and no drag highlight |
| FileUpload.Uploader.ValidateFile | website/buildingblocs/src/components/fileupload.tsx:19-40 | returns whether the file passes, and sets error to its message or clears it |
| FileUpload.Uploader.HandleFileSelect | website/buildingblocs/src/components/fileupload.tsx:42-52 | a refused file changes only error; an accepted file clears error, is kept, is passed once to onFileSelect when given, and starts a preview read |
| FileUpload.Uploader.HandleFileChange | website/buildingblocs/src/components/fileupload.tsx:54-59 | only the first selected file is handled; with none, nothing changes |
| FileUpload.Uploader.HandleDragOver | website/buildingblocs/src/components/fileupload.tsx:61-64 | drag-over sets isDragOver |
| FileUpload.Uploader.HandleDragLeave | website/buildingblocs/src/components/fileupload.tsx:66-69 | drag-leave clears isDragOver |
| FileUpload.Uploader.HandleDrop | website/buildingblocs/src/components/fileupload.tsx:71-79 | drop clears isDragOver first, then handles only the first dropped file; with none, nothing else changes |
| FileUpload.Uploader.PreviewLoaded | website/buildingblocs/src/components/fileupload.tsx:47-49 | the reader's onload sets the preview to the data URL it delivers |
| FileUpload.Uploader.ClearFile | website/buildingblocs/src/components/fileupload.tsx:85-92 | file, preview and error become null and the input's value "" |

## Left out

- The network requests (to the provider and to the gateway), `Audio`, `URL.createObjectURL`, `SpeechSynthesisUtterance`, `speechSynthesis` and `FileReader` are browser or runtime calls. Their outcomes are parameters of the operations or events of the model.
- Console logging on the degraded paths is not modelled; it has no effect on state or responses.
- The `Content-Length` of JSON responses and their exact serialisation are left to the framework, so the model records the JSON body as a datatype.
- The voice settings (0.5, 0.75, 0.0, speaker boost) and the utterance's rate, pitch and volume are exact constants compared for equality. Floating-point behaviour is not modelled.
- The "Run Demo" button's `setTimeout` that changes the page text is a timer, so the page text is a constant of the controller.
- Rendering, animation and the button's styling are not modelled; only `disabled={isPlaying}` is, as the click being ignored.
- `handleUploadClick` only opens the browser's file dialog through the input element, so it has no state to model.
- `preventDefault` on drag events is not modelled; it changes no component state.
- FileUpload.Uploader.PreviewLoaded: the preview is the data URL the reader delivers, taken as given. The model does not relate it to the file's bytes.
- FileUpload.Uploader.HandleFileChange: the input's value is set by the browser before the change event. The model takes it as a parameter.
- TextToSpeechRoute.SameRequestSameShape: the response audio may differ between two calls, since the provider is outside the model. Only shape and status are compared.
- Everything outside the three files (map, 3D viewer, marquees, navigation, the submission form, the Python scripts) is presentation or library glue and is not part of this model.

## Findings

The class `PlaybackController` models the page as written. The corrected
controller (`IntendedStep`, `IntendedRun`) stands beside it with its
properties proved.

| source | as written | input that shows it | evidently intended | confidence | as-written member | corrected member |
|---|---|---|---|---|---|---|
| website/buildingblocs/src/app/percepta/page.tsx:27-40 | an ok reply without an audio content type, or a non-ok reply, matches no branch; isPlaying stays true, the button stays disabled and nothing is spoken | no API key configured: the gateway replies 200 `application/json` `{fallback: true, text}` | speak the text with local synthesis and clear isPlaying when it ends: the gateway's fallback reply exists to tell the page to fall back (website/buildingblocs/src/app/api/text-to-speech/route.ts:28, :4), and the page announces a browser-synthesis fallback when the provider fails or is unavailable (website/buildingblocs/src/app/percepta/page.tsx:8-9) | high, not executed | PerceptaPlayback.FallbackReplyNeverSettles | PerceptaPlayback.IntendedRunSettles |
| website/buildingblocs/src/app/percepta/page.tsx:31-44 | when `audio.play()` rejects, the catch block speaks locally but never revokes the object URL, and onended never fires | an ok `audio/mpeg` reply whose `play()` is refused by the browser, then the utterance ends | revoke the URL before falling back | medium, not executed | PerceptaPlayback.PlayRejectedLeaksUrl | PerceptaPlayback.IntendedPlayRejectedReleasesUrl |
