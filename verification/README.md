# Liberation War Museum web app — a verified model

This project models, in Dafny, the behaviour of the museum web application: its chat proxy
server and the React pages and components that hold state. One module per source file:

- `ChatProxy` (`backend/server.js`)
  - prompt assembly for the completion service, the mock-reply fallback and the mock/real decision;
  - the `/api/chat`, `/api/models`, `/api/model`, `/api/health` and `/api/config` handlers;
  - the current-model selection as server state.
- `Exhibits` (`src/pages/Exhibits.tsx`)
  - the search-and-category filter over the artifacts;
  - the slides handed to the image slider, and the slider's own filter;
  - the result count line.
- `SearchModal` (`src/components/search/SearchModal.tsx`): the result filter, what the results area shows, and where a click on a result leads.
- `ImageSlider` (`src/components/ui/image-slider.tsx`): the slider as a class with next/previous/jump navigation, auto-advance as an explicit `Tick`, audio toggling and the guide dialog.
- `PanoramaViewer` (`src/components/ui/panorama-viewer.tsx`): drag rotation, wheel and button zoom, reset, image navigation, the guide toggle and hotspot selection.
- `Model3DViewer` (`src/components/artifacts/Model3DViewer.tsx`): ±15° rotation steps, clamped zoom, reset, and the drawing lookup with its default.
- `FloorTour` (`src/components/tour/FloorBasedTour.tsx`): how an audio key is derived from a guide URL, starting a floor tour, gallery selection and the difficulty colours.
- `AudioManager` (`src/components/audio/AudioManager.tsx`): the guide player's state. Speech synthesis is split into a start (`PlayAudio`) and its completion or failure.
- `AudioPlayer` (`src/components/ui/audio-player.tsx`): the control handlers and the media element's events, with the element's own time, volume, mute and pause state as fields.
- `Timeline` (`src/pages/Timeline.tsx`): the single playing-audio slot, event selection, the category and significance lookups, and the casualty line.
- `Donors` (`src/pages/Donors.tsx`): the featured/regular partition and the level and type lookups.
- `Auth` (`src/pages/Auth.tsx`): the form record, the password visibility toggle, and the login and register handlers, whose toasts and navigations are recorded in an effect log.
- `ChatBot` (`src/components/chat/ChatBot.tsx`): the append-only chat log, with the delayed reply as an explicit step.

Shared modules hold the JavaScript operations several pages use:

- `Text`: `toLowerCase`, `includes`, `trim`, `String(n)`, `padStart`, and the "N thing(s)" count phrase.
- `Seqs`: order-preserving `filter` and `map`.
- `Carousel`: wrap-around next/previous.
- `Viewport`: the zoom clamp to [0.5, 3].
- `Playback`: `formatTime`, the 10-second skips, the progress percentage and the seek time.
- `Wrappers`: `Option`.

How the outside world is represented:

- Values the program does not control are parameters: the upstream HTTP exchange, `Math.random`'s opener choice, `Date.now()` and ISO timestamps, and the API key.
- Timers become explicit step methods: `Tick`, `DeliverReply`, `LoadingFinished`, `SpeechFinished`.

The server's `isMock` flag is computed from the key configuration alone (`backend/server.js:150`), not from whether the reply is a mock. So a mock reply can carry `isMock` false: `ChatProxy.RateLimitedScenario` shows this after an upstream 429 with a usable key.

The chat handler reads the current model twice: once for the upstream request (`backend/server.js:105`) and again for the response (`backend/server.js:149`), after the `await`. The model splits the handler at that point into `ChatBegin` and `ChatEnd`. `ChatProxy.ModelSwitchDuringChatScenario` shows a model switch handled in between: the reply is labelled with a model other than the one queried.

## Model

| member | source | states |
|---|---|---|
| ChatProxy.HasApiKey | backend/server.js:167 | `!!GROQ_API_KEY && GROQ_API_KEY !== placeholder`: a usable key is one the health message reports as found, and the placeholder is never usable |
| ChatProxy.KeyStatusMessage | backend/server.js:193 | the health message is "API key found" exactly when some non-empty key is set, otherwise "No API key configured" |
| ChatProxy.PlaceholderKeyReportedFound | backend/server.js:192-193 | the placeholder key is reported as "found" by the health message while `hasApiKey` is false |
| ChatProxy.RecentTurns | backend/server.js:91 | the retained history is the last min(6, n) turns, as a suffix of the history |
| ChatProxy.TurnMessages | backend/server.js:91-94 | each turn becomes a user message then an assistant message, in order, so 2 messages per turn |
| ChatProxy.PairUp | backend/server.js:91-94 | the inverse reading of the flattened history: one turn per two messages, turn i made of messages 2i and 2i+1 |
| ChatProxy.PairUpTurnMessages | backend/server.js:91-94 | pairing the flattened messages up again gives back the turns |
| ChatProxy.BuildMessages | backend/server.js:89-96 | the prompt has 2 + 2·min(6, n) messages, starts with the system prompt and ends with the user's message |
| ChatProxy.PromptCarriesRecentHistory | backend/server.js:89-96 | the messages between the system prompt and the new message pair up to exactly the last min(6, n) turns |
| ChatProxy.PromptTurnPositions | backend/server.js:91-94 | turn i of the window sits at positions 1+2i (user) and 2+2i (assistant) |
| ChatProxy.MockOpeners | backend/server.js:69-75 | there are five openers |
| ChatProxy.MockResponse | backend/server.js:68-79 | a mock reply is exactly the chosen opener followed by the fixed mock-notice suffix: it starts with the one, ends with the other, and its length is theirs combined |
| ChatProxy.MockEchoesMessage | backend/server.js:70 | the first opener's reply contains the user's message |
| ChatProxy.MockOthersIgnoreMessage | backend/server.js:71-74 | openers two to five give the same reply whatever the message |
| ChatProxy.MockIsTrimmed | backend/server.js:147 | a mock reply has no surrounding white space, so the handler's `trim` leaves it unchanged |
| ChatProxy.IsOkStatus | backend/server.js:114 | `response.ok`: exactly the statuses of the 2xx class |
| ChatProxy.FailureOf | backend/server.js:114-129 | an exchange fails exactly when it has no response, a non-2xx status or no content; 401 and 429 are told apart |
| ChatProxy.QueryGroq | backend/server.js:82-136 | a request is sent iff a usable key is set; it carries the current model and the assembled prompt; the reply is the completion text on success and a mock reply in every other case, so it never fails |
| ChatProxy.Server.constructor | backend/server.js:24 | the server starts on the registry's Kimi_K2 model, which is a registered model |
| ChatProxy.IsFalsy | backend/server.js:142 | `!message`: only a missing message or the empty string is falsy, so any message with a character, even a blank one, is answered |
| ChatProxy.Server.ChatBegin | backend/server.js:139-145 | `queryGroq` is called exactly for a truthy message, with the model current at that point |
| ChatProxy.Server.ChatEnd | backend/server.js:142-151 | a falsy message gives 400 "Message is required"; otherwise the trimmed reply, the model current at this later point and `isMock` = no usable key |
| ChatProxy.Server.Chat | backend/server.js:139-151 | with nothing handled in between: a falsy message gives 400 "Message is required" without querying; otherwise the trimmed reply, the queried model and `isMock` = no usable key |
| ChatProxy.Server.ListModels | backend/server.js:163-169 | returns the registry, the current model and the key flag |
| ChatProxy.Server.SelectModel | backend/server.js:172-184 | a registered model id becomes current with the "Model changed to" message; anything else gives 400 "Invalid model" and leaves the model as it was; the current model stays registered |
| ChatProxy.Server.Health | backend/server.js:187-196 | status "OK", the timestamp, the model, the key flag, the key message and the provider |
| ChatProxy.Server.Config | backend/server.js:199-207 | the key flag, the current model, the registry, the provider and the configuration note |
| ChatProxy.RateLimitedScenario | backend/server.js:114-151 | with a usable key and an upstream 429 the client gets a 200 mock reply whose `isMock` is false |
| ChatProxy.UnconfiguredHelloScenario | backend/server.js:83-86 | without a key nothing is sent upstream and the reply is a mock flagged as such |
| ChatProxy.ModelSwitchDuringChatScenario | backend/server.js:105-149 | a model switch handled while the upstream call is pending: the request names the start-up model, the reply another one |
| ChatProxy.InvalidModelScenario | backend/server.js:172-184 | an unknown model id is rejected and the start-up model stays selected |
| Text.LowerChar | src/pages/Exhibits.tsx:137-138 | ASCII lower-casing of one character: the result is never an ASCII capital, and only ASCII capitals change |
| Text.Lower | src/pages/Exhibits.tsx:137-138 | ASCII lower-casing of a string, character by character, so the length is kept |
| Text.Contains | src/pages/Exhibits.tsx:137-138 | `includes`: only a pattern no longer than the string occurs, and a prefix always does |
| Text.ContainsEmpty | src/pages/Exhibits.tsx:137-138 | every string includes the empty string |
| Text.FirstMatch | src/components/tour/FloorBasedTour.tsx:206 | a pattern that occurs has a first offset, with no earlier match |
| Text.LowerKeepsMatch | src/pages/Exhibits.tsx:137-138 | lower-casing both sides keeps an occurrence at the same offset |
| Text.ContainsLower | src/pages/Exhibits.tsx:137-138 | lower-casing both sides keeps every inclusion |
| Text.IncludesIgnoringCase | src/pages/Exhibits.tsx:137-138 | `s.toLowerCase().includes(t.toLowerCase())`: an exact-case occurrence is always found, and only a term no longer than the text can be |
| Text.LowerIdempotent | src/pages/Exhibits.tsx:137-138 | lower-casing twice is lower-casing once |
| Text.EmptyTermIncluded | src/pages/Exhibits.tsx:137-138 | every text includes the empty search term |
| Text.IncludesIgnoresCase | src/components/search/SearchModal.tsx:74-75 | lower-casing the text or the term first does not change the search outcome |
| Text.Trim | src/components/chat/ChatBot.tsx:21 | `trim` never lengthens a string and leaves no white space at either end |
| Text.TrimFramed | backend/server.js:147 | the trimmed string is a slice of the input with only white space before and after it |
| Text.TrimStart | src/components/chat/ChatBot.tsx:21 | removes exactly the leading white space: a suffix, all cut characters white space, no white space left in front |
| Text.TrimEnd | src/components/chat/ChatBot.tsx:21 | removes exactly the trailing white space, symmetrically |
| Text.TrimEmptyIff | src/components/chat/ChatBot.tsx:21 | `trim` gives the empty string exactly for all-white-space input |
| Text.TrimUnchanged | backend/server.js:147 | a string with no white space at its ends is its own trim |
| Text.TrimIdempotent | backend/server.js:147 | trimming twice equals trimming once |
| Text.NatToString | src/components/audio/AudioManager.tsx:207 | `String(n)` is a non-empty digit string without leading zeros, one digit exactly for n < 10 |
| Text.ParseNatToString | src/components/audio/AudioManager.tsx:207 | reading the numeral back gives n |
| Text.PadStartZero | src/components/audio/AudioManager.tsx:207 | `padStart(w, '0')` reaches width w by prefixing zeros and keeps the string as its suffix |
| Text.CountPhrase | src/components/search/SearchModal.tsx:186 | the numeral and a space first; the noun last, with an "s" exactly when the count is not one |
| Text.CountPhraseReadsBack | src/pages/Exhibits.tsx:240 | the count phrase starts with the numeral of n, which reads back as n, then a space |
| Text.CountPhrasePlural | src/components/search/SearchModal.tsx:186 | the phrase ends in "s" exactly when the count is not 1 |
| Seqs.Filter | src/pages/Exhibits.tsx:136-141 | `filter` keeps exactly the elements that satisfy the predicate, and no more of them than there were |
| Seqs.FilterIsSubsequence | src/pages/Exhibits.tsx:136 | a filter result is a subsequence of its input: nothing added or reordered |
| Seqs.FilterKeepsAll | src/pages/Exhibits.tsx:137-139 | a predicate true everywhere keeps the list unchanged |
| Seqs.FilterPartition | src/pages/Donors.tsx:146-147 | filtering by p and by not-p splits the list: sizes and multisets add up |
| Seqs.Map | src/pages/Exhibits.tsx:126-134 | `map` keeps the length and maps element i to position i |
| Seqs.FilterMap | src/pages/Exhibits.tsx:143-150 | filtering mapped elements equals mapping the filtered elements when the predicates agree |
| Carousel.Next | src/components/ui/image-slider.tsx:70-72 | (i+1) mod n: stays below n and wraps from the last to the first |
| Carousel.Prev | src/components/ui/image-slider.tsx:74-76 | (i−1+n) mod n: stays below n and wraps from the first to the last |
| Carousel.PrevUndoesNext | src/components/ui/image-slider.tsx:70-76 | previous after next returns to the start |
| Carousel.NextUndoesPrev | src/components/ui/image-slider.tsx:70-76 | next after previous returns to the start |
| Carousel.Advance | src/components/ui/image-slider.tsx:70-72 | any number of presses of next from a valid slide lands on a valid slide |
| Carousel.AdvanceBeforeWrap | src/components/ui/image-slider.tsx:70-72 | k steps from i land on i+k while that is below n |
| Carousel.AdvanceAdd | src/components/ui/image-slider.tsx:70-72 | a steps then b steps are a+b steps |
| Carousel.FullCycle | src/components/ui/image-slider.tsx:70-72 | n steps return to the starting slide |
| Carousel.Periodic | src/components/ui/image-slider.tsx:49-53 | stepping is periodic with period n |
| Viewport.ClampZoom | src/components/artifacts/Model3DViewer.tsx:165-170 | the clamped zoom lies in [0.5, 3], equals the input inside the range and the nearer bound outside |
| Viewport.ClampIdempotent | src/components/ui/panorama-viewer.tsx:93 | clamping twice equals clamping once |
| ImageSlider.Slider.constructor | src/components/ui/image-slider.tsx:40-44 | first slide, auto-advance as requested, no audio, dialog closed |
| ImageSlider.Slider.Render | src/components/ui/image-slider.tsx:117-123 | the placeholder is rendered exactly for an empty image list, and otherwise the current slide with its controls |
| ImageSlider.Slider.GoToNext | src/components/ui/image-slider.tsx:70-72 | the index moves to the next slide, wrapping; nothing else changes |
| ImageSlider.Slider.GoToPrevious | src/components/ui/image-slider.tsx:74-76 | the index moves to the previous slide, wrapping; nothing else changes |
| ImageSlider.Slider.GoToSlide | src/components/ui/image-slider.tsx:78-80 | a thumbnail index becomes the current index |
| ImageSlider.Slider.TogglePlayPause | src/components/ui/image-slider.tsx:82-84 | auto-advance is negated |
| ImageSlider.Slider.Tick | src/components/ui/image-slider.tsx:46-58 | one interval firing advances only while playing with more than one slide |
| ImageSlider.Slider.ToggleAudio | src/components/ui/image-slider.tsx:86-108 | no effect without a guide; otherwise playing stops, or a new element for the slide's URL starts (no control of the slider calls this handler) |
| ImageSlider.Slider.AudioEnded | src/components/ui/image-slider.tsx:104-106 | the end of the guide clears the playing flag |
| ImageSlider.Slider.OpenAudioPlayer | src/components/ui/image-slider.tsx:110-115 | the dialog opens only for a slide with a guide |
| ImageSlider.Slider.CloseAudioPlayer | src/components/ui/image-slider.tsx:270 | the dialog closes |
| ImageSlider.FullRound | src/components/ui/image-slider.tsx:70-72 | pressing next n times shows the starting slide again |
| PanoramaViewer.WheelZoom | src/components/ui/panorama-viewer.tsx:90-94 | a wheel notch zooms out by 0.1 for positive deltaY and in by 0.1 otherwise, clamped to [0.5, 3] |
| PanoramaViewer.WheelRoundTrip | src/components/ui/panorama-viewer.tsx:90-94 | away from the bounds, one notch out and one in (or in and out) restore the zoom |
| PanoramaViewer.Viewer.constructor | src/components/ui/panorama-viewer.tsx:46-53 | first image, initial view, not dragging, no audio, no hotspot |
| PanoramaViewer.Viewer.MouseDown | src/components/ui/panorama-viewer.tsx:67-70 | dragging starts at the pointer; the view is unchanged |
| PanoramaViewer.Viewer.MouseMove | src/components/ui/panorama-viewer.tsx:72-84 | no effect unless dragging; otherwise the rotation moves by half the pointer delta and the drag start follows the pointer; every other field unchanged |
| PanoramaViewer.Viewer.MouseUp | src/components/ui/panorama-viewer.tsx:86-88 | dragging stops; nothing else changes |
| PanoramaViewer.Viewer.Wheel | src/components/ui/panorama-viewer.tsx:90-94 | the zoom becomes the wheel zoom of the old zoom; every other field unchanged |
| PanoramaViewer.Viewer.ZoomIn | src/components/ui/panorama-viewer.tsx:236 | the zoom grows by 0.2, capped at 3; every other field unchanged |
| PanoramaViewer.Viewer.ZoomOut | src/components/ui/panorama-viewer.tsx:244 | the zoom shrinks by 0.2, floored at 0.5; every other field unchanged |
| PanoramaViewer.Viewer.ResetView | src/components/ui/panorama-viewer.tsx:96-99 | rotation (0, 0) and zoom 1 again; the image is kept; every other field unchanged |
| PanoramaViewer.Viewer.GoToNextImage | src/components/ui/panorama-viewer.tsx:123-126 | the next image, wrapping, shown in the initial view; every other field unchanged |
| PanoramaViewer.Viewer.GoToPreviousImage | src/components/ui/panorama-viewer.tsx:128-131 | the previous image, wrapping, shown in the initial view; every other field unchanged |
| PanoramaViewer.Viewer.ToggleAudio | src/components/ui/panorama-viewer.tsx:101-121 | the playing flag is negated; starting creates an element for the panorama guide URL; every other field unchanged |
| PanoramaViewer.Viewer.AudioEnded | src/components/ui/panorama-viewer.tsx:117-119 | the end of the guide clears the playing flag; every other field unchanged |
| PanoramaViewer.Viewer.SelectHotspot | src/components/ui/panorama-viewer.tsx:191 | a hotspot of the current image becomes selected; every other field unchanged |
| PanoramaViewer.Viewer.CloseHotspot | src/components/ui/panorama-viewer.tsx:353 | the selection is cleared; every other field unchanged |
| PanoramaViewer.NextThenPrevious | src/components/ui/panorama-viewer.tsx:123-131 | next then previous returns to the same image in the initial view |
| Model3DViewer.Rotate | src/components/artifacts/Model3DViewer.tsx:148-163 | left/right change only the y angle and up/down only the x angle, each by 15, in the direction named |
| Model3DViewer.RotateUndo | src/components/artifacts/Model3DViewer.tsx:148-163 | a step in the opposite direction undoes a step |
| Model3DViewer.RotateCommutes | src/components/artifacts/Model3DViewer.tsx:148-163 | the order of two rotation steps does not matter |
| Model3DViewer.Zoom | src/components/artifacts/Model3DViewer.tsx:165-170 | zoom in/out moves by 0.2 and is clamped to [0.5, 3] |
| Model3DViewer.ZoomOutDisabled | src/components/artifacts/Model3DViewer.tsx:316 | within the zoom range, the zoom-out button is disabled exactly at the lower limit |
| Model3DViewer.ZoomInDisabled | src/components/artifacts/Model3DViewer.tsx:326 | within the zoom range, the zoom-in button is disabled exactly at the upper limit |
| Model3DViewer.ZoomButtonsEnabledIffEffective | src/components/artifacts/Model3DViewer.tsx:314-327 | inside the range, a zoom button is enabled exactly when pressing it changes the zoom |
| Model3DViewer.DrawingFor | src/components/artifacts/Model3DViewer.tsx:34-137 | the rifle, helmet and medal drawings are chosen exactly for their three names |
| Model3DViewer.UnknownNameGetsDefault | src/components/artifacts/Model3DViewer.tsx:136 | any other name gets the default drawing |
| Model3DViewer.Viewer.constructor | src/components/artifacts/Model3DViewer.tsx:28-31 | loading, initial rotation, zoom 1, centred |
| Model3DViewer.Viewer.LoadingFinished | src/components/artifacts/Model3DViewer.tsx:139-146 | the simulated load ends; the view is unchanged |
| Model3DViewer.Viewer.Shown | src/components/artifacts/Model3DViewer.tsx:195 | nothing is drawn while loading, then the drawing for the artifact's name |
| Model3DViewer.Viewer.HandleRotate | src/components/artifacts/Model3DViewer.tsx:148-163 | the rotation takes one step; zoom unchanged |
| Model3DViewer.Viewer.HandleZoom | src/components/artifacts/Model3DViewer.tsx:165-170 | the zoom takes one clamped step; rotation unchanged |
| Model3DViewer.Viewer.ResetView | src/components/artifacts/Model3DViewer.tsx:172-176 | rotation, zoom and position return to the initial view |
| Model3DViewer.ResetTwice | src/components/artifacts/Model3DViewer.tsx:172-176 | resetting twice equals resetting once |
| FloorTour.LastSegment | src/components/tour/FloorBasedTour.tsx:206 | `split('/').pop()` is the slash-free suffix after the last slash |
| FloorTour.RemoveFirst | src/components/tour/FloorBasedTour.tsx:206 | `replace` with "" removes nothing or exactly one pattern's length, and introduces no new character |
| FloorTour.RemoveFirstAt | src/components/tour/FloorBasedTour.tsx:206 | when the pattern first occurs at k, exactly s[k..k+|sub|] is cut out |
| FloorTour.RemoveFirstPresent | src/components/tour/FloorBasedTour.tsx:206 | whenever the pattern occurs, its first occurrence is cut out and the result is shorter by its length |
| FloorTour.RemoveFirstAbsent | src/components/tour/FloorBasedTour.tsx:206 | without an occurrence the string is unchanged |
| FloorTour.RemoveFirstTrailing | src/components/tour/FloorBasedTour.tsx:206 | a name followed by ".mp3" loses exactly the ".mp3" |
| FloorTour.AudioKey | src/components/tour/FloorBasedTour.tsx:205-207 | no key for a missing or empty URL or one ending in "/"; any key is non-empty and slash-free |
| FloorTour.GuideUrlKey | src/components/tour/FloorBasedTour.tsx:206 | "/api/audio/k.mp3" yields key k for a plain name k |
| FloorTour.LastSegmentAfterSlash | src/components/tour/FloorBasedTour.tsx:206 | the last segment of p + "/" + t is t |
| FloorTour.DifficultyColor | src/components/tour/FloorBasedTour.tsx:223-230 | Easy, Medium and Hard get green, yellow and red; gray exactly for anything else |
| FloorTour.DifficultyColorsDistinct | src/components/tour/FloorBasedTour.tsx:223-230 | the three difficulties get different colours |
| FloorTour.FloorGuideKey | src/components/tour/FloorBasedTour.tsx:63 | a floor guide URL yields the key "id-guide" |
| FloorTour.ShippedDifficultiesColoured | src/components/tour/FloorBasedTour.tsx:54-190 | no shipped floor falls back to gray |
| FloorTour.Tour.constructor | src/components/tour/FloorBasedTour.tsx:193-196 | the ground floor, no gallery, no audio, step 0 |
| FloorTour.Tour.Progress | src/components/tour/FloorBasedTour.tsx:320 | the progress line reads 0 of the floor's gallery count |
| FloorTour.Tour.ToggleAudio | src/components/tour/FloorBasedTour.tsx:198-212 | the playing flag is negated; a guide is generated only when starting with a derivable key, and for that key |
| FloorTour.Tour.StartFloorTour | src/components/tour/FloorBasedTour.tsx:214-221 | the floor is selected, the gallery cleared, step 0; the audio toggles only for a floor with audio |
| FloorTour.Tour.SelectGallery | src/components/tour/FloorBasedTour.tsx:382 | a gallery of the floor becomes selected |
| FloorTour.Tour.CloseGallery | src/components/tour/FloorBasedTour.tsx:443 | the gallery is deselected |
| FloorTour.Tour.GalleryAudio | src/components/tour/FloorBasedTour.tsx:418-421 | a gallery's audio button toggles playback without selecting the gallery; starting with a derivable key generates exactly that key's guide, and otherwise nothing is generated |
| FloorTour.GroundFloorKey | src/components/tour/FloorBasedTour.tsx:63 | the ground floor's guide key is "ground-floor-guide" |
| FloorTour.StartGroundFloorScenario | src/components/tour/FloorBasedTour.tsx:214-221 | starting the ground floor tour plays and generates "ground-floor-guide" |
| Playback.Minutes | src/components/audio/AudioManager.tsx:205 | the whole minutes of t |
| Playback.Seconds | src/components/audio/AudioManager.tsx:206 | below 60, and minutes·60 + seconds is the whole seconds of t |
| Playback.FormatTime | src/components/audio/AudioManager.tsx:204-208 | "m:ss": a colon then two digits, four characters under ten minutes |
| Playback.ParsePadded | src/components/audio/AudioManager.tsx:207 | the two padded digits read back as the seconds |
| Playback.Clock | src/components/audio/AudioManager.tsx:207 | the minutes numeral, a colon and exactly two digits of seconds |
| Playback.ParseClockOf | src/components/audio/AudioManager.tsx:204-208 | the clock of m minutes and s < 60 seconds reads back as m·60 + s |
| Playback.ParseFormatTime | src/components/ui/audio-player.tsx:168-172 | reading the clock back gives the whole seconds of t |
| Playback.SkipBack | src/components/audio/AudioManager.tsx:181 | ten seconds back, floored at 0 |
| Playback.SkipAhead | src/components/audio/AudioManager.tsx:189 | ten seconds ahead, capped at the duration |
| Playback.SkipsStayInRange | src/components/ui/audio-player.tsx:146-158 | both skips keep a position inside [0, duration] |
| Playback.Progress | src/components/audio/AudioManager.tsx:210 | 0 without a duration, otherwise within [0, 100] for an in-range position, 100 at the end |
| Playback.SeekTime | src/components/audio/AudioManager.tsx:152 | a slider value in [0, 100] maps to a position in [0, duration] |
| Playback.SeekToProgress | src/components/ui/audio-player.tsx:119-126 | seeking to the shown percentage returns the current position |
| AudioManager.WordCount | src/components/audio/AudioManager.tsx:74 | `split(' ').length` is one more than the number of spaces |
| AudioManager.WordCountJoin | src/components/audio/AudioManager.tsx:74 | joining two texts with a space adds their word counts |
| AudioManager.EstimatedSeconds | src/components/audio/AudioManager.tsx:74-77 | 150 words a minute: 0.4 s a word, always positive |
| AudioManager.Manager.constructor | src/components/audio/AudioManager.tsx:27-38 | nothing playing, time 0, volume 1, unmuted, the "floor-tours" category |
| AudioManager.Manager.Narration | src/components/audio/AudioManager.tsx:81 | the guide's content text when present and non-empty, else its description |
| AudioManager.Manager.Started | src/components/audio/AudioManager.tsx:62-81 | the state after starting a guide: it is current and loading, the clock is at 0 from now, its narration is spoken, the duration is estimated from its content when there is any, and playing, volume, mute and category are kept |
| AudioManager.Manager.PlayAudio | src/components/audio/AudioManager.tsx:49-79 | unknown key: no effect; the playing guide: only the guide and the playing flag are cleared; otherwise the state becomes `Started` |
| AudioManager.Manager.StartGuide | src/components/audio/AudioManager.tsx:62-81 | the start branch: the state becomes exactly `Started` of the old state |
| AudioManager.Manager.SpeechFinished | src/components/audio/AudioManager.tsx:88-89 | speech resolved: playing, not loading; every other field unchanged |
| AudioManager.Manager.SpeechFailed | src/components/audio/AudioManager.tsx:108-112 | speech failed: not loading, no guide selected; every other field unchanged |
| AudioManager.Manager.TogglePlayPause | src/components/audio/AudioManager.tsx:116-147 | no effect without a guide; otherwise the playing flag is negated; every other field unchanged |
| AudioManager.Manager.HandleSeek | src/components/audio/AudioManager.tsx:149-155 | with a guide, the time becomes the seek time of the slider value; every other field unchanged (no control of the manager calls this handler) |
| AudioManager.Manager.HandleVolumeChange | src/components/audio/AudioManager.tsx:157-167 | the volume is the slider value / 100, muted exactly at 0; every other field unchanged (no control of the manager calls this handler) |
| AudioManager.Manager.ToggleMute | src/components/audio/AudioManager.tsx:169-176 | mute is negated; the volume becomes 0 when muting and 1 when unmuting; every other field unchanged |
| AudioManager.Manager.SkipBackward | src/components/audio/AudioManager.tsx:178-184 | with a guide, ten seconds back, floored at 0; every other field unchanged |
| AudioManager.Manager.SkipForward | src/components/audio/AudioManager.tsx:186-192 | with a guide, ten seconds ahead, capped at the duration; every other field unchanged |
| AudioManager.Manager.Restart | src/components/audio/AudioManager.tsx:194-202 | no effect without a guide; a playing guide is stopped with the clock reset; a paused one becomes `Started` again; every other field unchanged |
| AudioManager.Manager.SelectCategory | src/components/audio/AudioManager.tsx:338 | the category changes; playback does not; every other field unchanged |
| AudioManager.Manager.Display | src/components/audio/AudioManager.tsx:240-253 | both clocks are formatted, and the bar is within [0, 100] and at 0 without a duration |
| AudioPlayer.Player.constructor | src/components/ui/audio-player.tsx:42-48 | not playing, time 0, volume 1, unmuted, not loading |
| AudioPlayer.Player.TogglePlayPause | src/components/ui/audio-player.tsx:107-117 | without an element nothing happens; pauses when playing; otherwise sets loading and starts the element; every other field unchanged |
| AudioPlayer.Player.HandleSeek | src/components/ui/audio-player.tsx:119-126 | the element and the shown time move to the seek time; every other field unchanged |
| AudioPlayer.Player.HandleVolumeChange | src/components/ui/audio-player.tsx:128-136 | element and state volume become value / 100, muted exactly at 0; every other field unchanged |
| AudioPlayer.Player.ToggleMute | src/components/ui/audio-player.tsx:138-144 | mute is negated on element and state; the volume is kept; every other field unchanged |
| AudioPlayer.Player.SkipBackward | src/components/ui/audio-player.tsx:146-151 | the element moves ten seconds back, floored at 0; every other field unchanged |
| AudioPlayer.Player.SkipForward | src/components/ui/audio-player.tsx:153-158 | the element moves ten seconds ahead, capped at the duration; every other field unchanged |
| AudioPlayer.Player.Restart | src/components/ui/audio-player.tsx:160-166 | element and shown time return to 0; every other field unchanged |
| AudioPlayer.Player.LoadedMetadata | src/components/ui/audio-player.tsx:54-57 | the duration is recorded and loading ends; every other field unchanged |
| AudioPlayer.Player.TimeUpdate | src/components/ui/audio-player.tsx:59-61 | the shown time follows the element; every other field unchanged |
| AudioPlayer.Player.Play | src/components/ui/audio-player.tsx:63-66 | playing; loading is left as it was; every other field unchanged |
| AudioPlayer.Player.PlayClearingLoading | src/components/ui/audio-player.tsx:63-66 | corrected handler: playing and no longer loading; every other field unchanged |
| AudioPlayer.Player.Pause | src/components/ui/audio-player.tsx:68-71 | not playing; every other field unchanged |
| AudioPlayer.Player.Ended | src/components/ui/audio-player.tsx:73-77 | not playing, shown time 0, the element paused; every other field unchanged |
| AudioPlayer.Player.VolumeChanged | src/components/ui/audio-player.tsx:79-82 | state volume and mute follow the element; every other field unchanged |
| AudioPlayer.Player.PlayPauseDisabled | src/components/ui/audio-player.tsx:245 | the play/pause button is disabled exactly while loading |
| AudioPlayer.Player.ProgressPercentage | src/components/ui/audio-player.tsx:174 | 0 without a duration, otherwise in [0, 100], and seeking to it gives back the time |
| AudioPlayer.PlayLocksButton | src/components/ui/audio-player.tsx:107-117 | as written: after metadata, pressing play and the play event, the player plays with its play/pause button disabled |
| AudioPlayer.PlayThenPause | src/components/ui/audio-player.tsx:63-71 | with the corrected play handler the button stays usable and pausing works |
| Timeline.ToggledAudio | src/pages/Timeline.tsx:182 | the playing event's button stops it; any other event's starts that event |
| Timeline.ToggleTwiceFromNone | src/pages/Timeline.tsx:182 | starting and stopping one event leaves nothing playing |
| Timeline.ToggleReplaces | src/pages/Timeline.tsx:182 | another event's button replaces the playing one |
| Timeline.ToggleTwice | src/pages/Timeline.tsx:261 | two presses on one event leave it stopped unless it was playing before |
| Timeline.CategoryColor | src/pages/Timeline.tsx:90-95 | each badge class is a theme background followed by its foreground text colour |
| Timeline.ColorLetter | src/pages/Timeline.tsx:90-95 | the letter after `bg-` is the first letter of the category's theme colour |
| Timeline.CategoryColorsDistinct | src/pages/Timeline.tsx:90-95 | each category has its own badge colour |
| Timeline.SignificanceClass | src/pages/Timeline.tsx:248-250 | high, medium and low get their own badge classes |
| Timeline.CasualtyLine | src/pages/Timeline.tsx:167-170 | the line appears exactly for a non-zero count; a zero count renders a stray "0" |
| Timeline.ShippedCasualtyLines | src/pages/Timeline.tsx:20-88 | among the shipped events only the second shows a line, for 50000 |
| Timeline.TimelinePage.constructor | src/pages/Timeline.tsx:98-99 | nothing selected, nothing playing |
| Timeline.TimelinePage.SelectEvent | src/pages/Timeline.tsx:131 | the clicked event becomes selected; audio is kept |
| Timeline.TimelinePage.CardAudio | src/pages/Timeline.tsx:180-183 | the card's button toggles that event's audio without selecting it |
| Timeline.TimelinePage.DetailsAudio | src/pages/Timeline.tsx:261 | the details button toggles the selected event's audio |
| Donors.LevelConfig | src/pages/Donors.tsx:100-136 | each level has one of the five level icons and a `text-…-600` colour |
| Donors.LevelConfigDistinct | src/pages/Donors.tsx:100-136 | different levels get different icons and labels |
| Donors.TypeIcon | src/pages/Donors.tsx:138-143 | each donor type has one of the four type icons |
| Donors.TypeIconsDistinct | src/pages/Donors.tsx:138-143 | different types get different icons, none of them a level icon |
| Donors.Featured | src/pages/Donors.tsx:146 | exactly the featured donors |
| Donors.Regular | src/pages/Donors.tsx:147 | exactly the non-featured donors |
| Donors.FeaturedRegularPartition | src/pages/Donors.tsx:146-147 | every donor is in exactly one list; sizes and multisets add up; both keep the order |
| Donors.SplitOfShippedShape | src/pages/Donors.tsx:146-147 | a list with the shipped flags and ids splits into 1, 2, 3, 5 and 4, 6 |
| Donors.ShippedSplit | src/pages/Donors.tsx:31-98 | the shipped donors 1, 2, 3, 5 are featured and 4, 6 regular |
| Exhibits.MatchesSearch | src/pages/Exhibits.tsx:137-138 | an empty term matches every artifact, and a matching term is no longer than the name or the description |
| Exhibits.MatchesCategory | src/pages/Exhibits.tsx:139 | "All" admits every artifact; any other category only the artifacts filed under it |
| Exhibits.Matches | src/pages/Exhibits.tsx:137-140 | the unfiltered page (empty term, "All") lists every artifact, and a listed artifact is in the chosen category |
| Exhibits.FilteredArtifacts | src/pages/Exhibits.tsx:136-141 | an artifact is kept iff its name or description contains the term ignoring case, and the category is "All" or its own |
| Exhibits.FilteredIsSubsequence | src/pages/Exhibits.tsx:136 | the filtered list is an order-preserving subsequence |
| Exhibits.EmptySearchShowsAll | src/pages/Exhibits.tsx:137-139 | the empty term with "All" keeps every artifact |
| Exhibits.YearNeverSearched | src/pages/Exhibits.tsx:137-138 | the year never affects the filter, although the search box advertises year search |
| Exhibits.GuideUrl | src/pages/Exhibits.tsx:133 | "/api/audio/" + id + "-guide.mp3", with the id readable back from the middle |
| Exhibits.ToSlide | src/pages/Exhibits.tsx:126-134 | a slide carries the artifact's id, name as title, audio flag and guide URL |
| Exhibits.SlideGuideIffAudio | src/pages/Exhibits.tsx:132-133 | the slider offers a guide exactly for artifacts with audio |
| Exhibits.SliderImages | src/pages/Exhibits.tsx:126-134 | one slide per artifact, same order, guide URL from the id |
| Exhibits.Find | src/pages/Exhibits.tsx:144 | `find`: a found artifact is in the list and has the id; none is found iff no artifact has it |
| Exhibits.FindFirst | src/pages/Exhibits.tsx:144 | when k holds the id and no earlier artifact does, the artifact at k is found |
| Exhibits.FindIsFirst | src/pages/Exhibits.tsx:144 | a found artifact sits at an index before which no artifact has the id |
| Exhibits.FindUnique | src/pages/Exhibits.tsx:144 | with unique ids, finding an artifact's id gives that artifact |
| Exhibits.KeepSlide | src/pages/Exhibits.tsx:143-150 | a kept slide has an artifact with its id that matches the filters; a slide with no artifact of its id is dropped |
| Exhibits.FilteredSliderImages | src/pages/Exhibits.tsx:143-150 | the slider's filter keeps only slides of the list |
| Exhibits.SlidesFollowFilter | src/pages/Exhibits.tsx:143-150 | with unique ids the slider shows exactly the slides of the filtered artifacts, with the same ids in the same order |
| Exhibits.ShippedIdsUnique | src/pages/Exhibits.tsx:41-114 | the shipped artifacts have unique ids |
| Exhibits.CountLabel | src/pages/Exhibits.tsx:240 | "Found " first; "artifact" last for one, "artifacts" otherwise |
| Exhibits.CountLabelPlural | src/pages/Exhibits.tsx:240 | the label ends in "s" iff the count is not 1, and its number reads back as the count |
| SearchModal.Matches | src/components/search/SearchModal.tsx:73-77 | an empty term with "all" matches every result, and a listed result has the selected type |
| SearchModal.FilteredResults | src/components/search/SearchModal.tsx:73-78 | a result is kept iff its title or description contains the term ignoring case, and the type is "all" or its own |
| SearchModal.FilteredIsSubsequence | src/components/search/SearchModal.tsx:73 | filtering preserves order and adds nothing |
| SearchModal.EmptyTermKeepsAll | src/components/search/SearchModal.tsx:73-78 | the empty term with "all" keeps every result |
| SearchModal.CountLine | src/components/search/SearchModal.tsx:186 | "Found " first and the quoted term last |
| SearchModal.Render | src/components/search/SearchModal.tsx:167-187 | hidden iff closed; start prompt iff the term is empty; "No Results Found" iff a non-empty term matches nothing; otherwise the non-empty list and its count line |
| SearchModal.StartPromptHidesMatches | src/components/search/SearchModal.tsx:167-174 | an empty term shows the prompt although all four results would match |
| SearchModal.ListedResultsMatch | src/components/search/SearchModal.tsx:189 | every listed result is a shipped result that matches |
| SearchModal.RouteFor | src/components/search/SearchModal.tsx:195-197 | galleries lead to /virtual-tour, timeline entries to /timeline, artifacts and documents to /exhibits, all of them routed pages |
| SearchModal.ClickEffects | src/components/search/SearchModal.tsx:193-198 | a click closes the dialog first, then navigates once to the route of its kind |
| Auth.FormData.Set | src/pages/Auth.tsx:22-27 | the named field takes the value and the other three keep theirs |
| Auth.SetProperties | src/pages/Auth.tsx:22-27 | the last write to a field wins, and writing a field's own value changes nothing |
| Auth.SetCommutes | src/pages/Auth.tsx:22-27 | writes to different fields commute |
| Auth.RegisterEffects | src/pages/Auth.tsx:36-45 | the first effect is a toast; mismatched passwords give only the warning; the home navigation happens iff they match |
| Auth.AuthPage.constructor | src/pages/Auth.tsx:14-20 | password hidden, all four fields empty, no effects |
| Auth.AuthPage.HandleInputChange | src/pages/Auth.tsx:22-27 | only the named field changes |
| Auth.AuthPage.ToggleShowPassword | src/pages/Auth.tsx:105 | the visibility flag is negated |
| Auth.AuthPage.HandleLogin | src/pages/Auth.tsx:29-34 | with no credential check, always the success toast then navigation home |
| Auth.AuthPage.HandleRegister | src/pages/Auth.tsx:36-45 | appends the registration effects of the current form |
| ChatBot.AfterSend | src/components/chat/ChatBot.tsx:20-24 | the log only grows; it grows by one exactly for input whose trim is non-empty, and then by the untrimmed input as a user message |
| ChatBot.ChatWidget.constructor | src/components/chat/ChatBot.tsx:14-18 | closed, the bot greeting only, empty input |
| ChatBot.ChatWidget.Open | src/components/chat/ChatBot.tsx:41 | the widget opens; the log is kept; the widget invariant is kept |
| ChatBot.ChatWidget.Close | src/components/chat/ChatBot.tsx:52 | the widget closes; the log is kept; the widget invariant is kept |
| ChatBot.ChatWidget.SetInput | src/components/chat/ChatBot.tsx:82 | the input takes the typed value; the widget invariant is kept |
| ChatBot.ChatWidget.HandleSend | src/components/chat/ChatBot.tsx:20-35 | blank input changes nothing; otherwise the message is appended, the input is cleared and a reply is scheduled; greeting first, user texts non-blank, one reply per message |
| ChatBot.ChatWidget.PostInput | src/components/chat/ChatBot.tsx:24-33 | the non-blank branch: the untrimmed input is appended as the user's message, the box is cleared and one reply is scheduled; the widget invariant is kept |
| ChatBot.ChatWidget.DeliverReply | src/components/chat/ChatBot.tsx:27-32 | a pending reply appends the fixed bot text, whatever was asked |

## Left out

- HTTP and Express plumbing (`app.use`, CORS, `dotenv`, `app.listen` and its console report), the actual `fetch` and console logging. The text of `SYSTEM_PROMPT` is a parameter.
- The 500 branch of `/api/chat` (`backend/server.js:152-158`): `queryGroq` never throws in the model and its reply is always a string, so that branch is unreachable here. A non-string `content` from the completion service, which would make `trim` throw, is not modelled.
- ChatProxy.Server.Chat: `Math.random()` is the parameter `pick` and the ISO timestamp is the parameter `now`, so the contract fixes the reply only for a given choice.
- Timers: the slider's `setInterval`, the 3D viewer's simulated load and the chat reply delay are explicit step methods (`Tick`, `LoadingFinished`, `DeliverReply`). The guide manager's 100 ms progress intervals are not modelled: their callbacks capture stale `startTime` and `estimatedDuration` values and depend on the wall clock.
- AudioManager.Manager.Restart: modelled as written, so its nested `playAudio` sees the pre-restart state and stops a playing guide instead of restarting it.
- Speech synthesis (`src/utils/audioGenerator.ts`), `new Audio` playback and event wiring are not part of this model. Audio elements are represented only by their URL or by time, volume, mute and pause fields.
- AudioPlayer.Player.VolumeChanged: the element's `volumechange` event copies the element's mute flag into state, which can override the handler's own `isMuted`; the model states this and nothing stronger.
- Floating point: zooms, drag factors, durations and percentages are exact reals, so IEEE rounding is not modelled (repeated +0.2 steps land exactly on 3 here).
- ImageSlider.Slider.GoToNext: the index is not re-clamped when the `images` prop shrinks (for example after filtering on the exhibits page); the model requires the index to be in range instead.
- Rendering: JSX and CSS are left out except the class strings the lookups return. The icons of the search dialog (`typeIcons`, `typeColors`) are not modelled.
- Pages without logic are not part of this model: `Index.tsx`, `HeroSection.tsx`, `Footer.tsx`, `Header.tsx`, `App.tsx` (used only for its route list), `VirtualTour.tsx`.
- Static configuration (`src/config/audio.ts`, `src/config/images.ts`): the guide manager takes its guide and content tables as parameters, and image imports are asset names.
- Model3DViewer.DrawingFor: the SVG markup is reduced to which drawing is chosen. Names inherited from `Object.prototype` (such as "constructor"), which the JavaScript lookup would also find, are not modelled.
- Auth.AuthPage.HandleInputChange: the four inputs carry the four field names, so the computed key `[e.target.name]` is modelled as a choice among the four fields. The browser-enforced `required` attributes are not modelled.
- The exhibits page's view-mode, selected-artifact and 3D-viewer cells only replace whole values and are not modelled. The `find` in `filteredSliderImages` is related to the artifact filter only for unique ids (`Exhibits.SlidesFollowFilter`).
- Text.LowerChar: `toLowerCase` is modelled for ASCII only; other capitals (such as 'É') are left unchanged.
- Text.Lower: ASCII-only folding, character by character, so the length is always kept; the Unicode mappings that change a string's length (such as 'İ') are not modelled.
- ChatProxy.Server.ChatBegin and ChatProxy.Server.ChatEnd: the only interleaving modelled is a model switch handled while the upstream call is pending (`ChatProxy.ModelSwitchDuringChatScenario`); other concurrent requests change nothing the handler reads.
- ImageSlider.Slider.Render: the `showControls` prop (`src/components/ui/image-slider.tsx:157`) is not modelled; its only caller (`src/pages/Exhibits.tsx:256`) passes `true`, so the controls are always shown.
- The `disabled` guards of the guide manager's skip, restart, play and forward buttons (`src/components/audio/AudioManager.tsx:265`, `274`, `283`, `298`) are not modelled: the handlers are modelled as callable in every state.
- Unwired handlers: `handleSeek` and `handleVolumeChange` of the guide manager (`src/components/audio/AudioManager.tsx:149`, `157`) and `toggleAudio` of the image slider (`src/components/ui/image-slider.tsx:86-108`) are modelled, but no rendered control calls them; the manager's JSX wires only skip, restart, play/pause, mute, category and the guide cards (`src/components/audio/AudioManager.tsx:264-378`), and the slider's audio button opens the player dialog instead (`src/components/ui/image-slider.tsx:197`).
- The `disabled` guards of the audio player's skip-back, restart and skip-forward buttons (`src/components/ui/audio-player.tsx:227`, `236`, `260`) are not modelled: `SkipBackward`, `Restart` and `SkipForward` are callable in every state, so the model lets, for example, a skip back at 5 seconds reach 0 where the source's button is disabled. The play/pause guard (`src/components/ui/audio-player.tsx:245`) is modelled as `PlayPauseDisabled`.
- The panorama hotspot's "Play Audio Guide" button (`src/components/ui/panorama-viewer.tsx:366-368`) only clears the selection, so it is modelled by `CloseHotspot`.

## Findings

| source | as written | input that shows it | evidently intended | confidence | as-written member | corrected member |
|---|---|---|---|---|---|---|
| src/components/ui/audio-player.tsx:107-117 | `togglePlayPause` sets `isLoading` before `play()`, and only `loadedmetadata` (54-57) clears it; the play/pause button is `disabled={isLoading}` (245) | metadata loads, the user presses play, the `play` event fires: the guide plays and the button that would pause it stays disabled | the `play` event (63-66) also clears `isLoading`, so a playing guide can be paused | not executed | AudioPlayer.PlayLocksButton | AudioPlayer.PlayThenPause |
