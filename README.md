# Sketch-guessing server core and canvas history, in Dafny

This project models the core of a small "draw something, let an AI guess it" application:

- **the fallback chain** (`AiStrategy`): an ordered, non-empty roster of image-guessing providers is tried one at a time with the same image. The first success is returned unchanged. A failure moves on to the next provider. When every provider has failed, one "all failed" error is thrown;
- **the three provider adapters** (Gemini, InternVL, OpenAI): each constructor checks its API key. Each `guessImage` turns the library's reply into a failure or into `{guess: text, confidence: 1.0}`. The Gemini adapter also splits a `data:` URL (section 3 of RFC 2397) into a payload and a media type, in the narrow way its code does;
- **the `/guess` request handler**: it validates the image, builds the InternVL adapter and a one-provider strategy, and maps the outcome to a 200, 400 or 500 response;
- **the canvas's undo/redo history**: stroke-end push with truncation, clear, undo, redo, and the size update, modelled as state transitions.

Each provider is a total function `string -> GuessOutcome` (`AiService.Service`). That function is the capability interface; the strategy sees nothing else. The remote model behind each adapter is a function parameter (`api`), and environment variables are `Option<string>` parameters. A value JavaScript throws is `Thrown`: an `Error` with its message, or any other value.

Files: `wrappers.dfy` (Option, Result), `ai_service.dfy` (the capability and the helpers the adapters share), `ai_strategy.dfy`, `chat_completions.dfy` (the request and reply shapes of the OpenAI client library, which both the InternVL and OpenAI adapters use), `gemini_service.dfy`, `internvl_service.dfy`, `openai_service.dfy`, `guess_route.dfy`, `canvas_history.dfy`.

The adapters are datatypes with a `New` function that returns a `Result`, because their one field is set at construction and never changes. `AiStrategy` is a class with a `const` roster. Its `GuessImage` is a loop that returns a ghost log of the calls it makes. `Canvas` is a class whose methods update `history`, `historyIndex`, `isDrawing` and `canvasSize`.

Three facts about the code that the model keeps:
- A missing InternVL key does not drop that provider: the route's constructor call throws and the request gets a 500.
- Confidence is always the literal `1.0`.
- Individual provider failures are only logged.

`Strategy.Fallback` is the reference definition of the whole chain. The loop in `AiStrategy.GuessImage` is proved equal to it, and the chain's lemmas are stated against it.

## Model

| member | source | states |
|---|---|---|
| `AiService.TextToOutcome` | server/services/geminiService.ts:39-47 | absent or empty text is a failure with the adapter's message, never a success; otherwise the guess is exactly the text, with confidence 1.0 |
| `AiService.RequireKey` | server/services/openaiService.ts:8-10 | an unset or empty key fails with the given message; a set key is passed on unchanged |
| `Strategy.Fallback` | server/services/aiStrategy.ts:14-29 | reference definition of the chain: the first provider's success is the result, a failure moves on to the rest; its only failure is the exhaustion error |
| `Strategy.FallbackReturnsFirstSuccess` | server/services/aiStrategy.ts:15-20 | if provider k is the first to succeed, the chain's outcome is exactly provider k's result |
| `Strategy.FallbackFailsIffAllFail` | server/services/aiStrategy.ts:21-28 | the chain fails if and only if every provider fails, and its failure is always the exhaustion error |
| `Strategy.ExhaustionIsUniform` | server/services/aiStrategy.ts:21-28 | the exhaustion error is the same whatever the individual failures, roster or image |
| `Strategy.FallbackSuccessComesFromRoster` | server/services/aiStrategy.ts:18-20 | a successful outcome is the unchanged result of some provider on the same image |
| `Strategy.FailThenCatScenario` | server/services/aiStrategy.ts:15-24 | a failing provider followed by one answering "a cat" yields {guess: "a cat", confidence: 1.0} |
| `Strategy.AiStrategy.constructor` | server/services/aiStrategy.ts:6-11 | a non-empty roster is stored as given |
| `Strategy.AiStrategy.Create` | server/services/aiStrategy.ts:6-10 | construction fails with "At least one AI service must be provided." exactly when the roster is empty, and then no strategy exists |
| `Strategy.AiStrategy.GuessImage` | server/services/aiStrategy.ts:14-29 | providers are called in roster order, each at most once, each with the identical image; every provider before the last one called failed; on success the last called provider's result is returned unchanged and later providers were never called; on failure all providers were called, all failed, and the exhaustion error is thrown; the roster is untouched |
| `ChatCompletions.VisionRequest` | server/services/internvlService.ts:24-31 | one user message carrying the prompt, whose only image URL is the image data exactly as received |
| `ChatCompletions.FirstChoiceContent` | server/services/internvlService.ts:42 | only the first choice's content is read; an empty choice list throws |
| `ChatCompletions.ReplyToOutcome` | server/services/internvlService.ts:42-57 | a rejection is re-thrown unchanged; null or empty first-choice content is the no-text failure; other content is the guess with confidence 1.0 |
| `ChatCompletions.OnlyFirstChoiceMatters` | server/services/openaiService.ts:31 | two completions with the same first choice give the same outcome |
| `InternVL.InternVLService.Request` | server/services/internvlService.ts:24-40 | the request uses model internvl2.5-latest with temperature 0.8, top_p 0.9 and max_tokens 100, and its single image URL is the image data unchanged |
| `InternVL.InternVLService.GuessImage` | server/services/internvlService.ts:21-58 | errors from the endpoint are re-thrown; success exactly when the first choice has non-empty content, which becomes the guess with confidence 1.0; otherwise, when there is a first choice, "InternVL API returned no text." |
| `InternVL.New` | server/services/internvlService.ts:7-19 | fails with "INTERNVL_API_KEY is not set in environment variables." exactly when the key is unset or empty; otherwise the client has that key and the base URL https://chat.intern-ai.org.cn/api/v1/ |
| `InternVL.AsService` | server/services/internvlService.ts:21-52 | as a provider the adapter never succeeds with an empty guess, and a success always has confidence 1.0 |
| `OpenAI.OpenAIService.Request` | server/services/openaiService.ts:18-29 | the request uses model gpt-4o with no sampling parameters, and its single image URL is the image data unchanged |
| `OpenAI.OpenAIService.GuessImage` | server/services/openaiService.ts:16-47 | errors from the endpoint are re-thrown; success exactly when the first choice has non-empty content, which becomes the guess with confidence 1.0; otherwise, when there is a first choice, "Fallback AI (OpenAI) returned no text." |
| `OpenAI.New` | server/services/openaiService.ts:7-14 | fails with "OPENAI_API_KEY is not set in environment variables." exactly when the key is unset or empty; otherwise the client has that key and the default endpoint |
| `OpenAI.AsService` | server/services/openaiService.ts:16-41 | as a provider the adapter never succeeds with an empty guess, and a success always has confidence 1.0 |
| `Gemini.Payload` | server/services/geminiService.ts:20 | a leading "data:image/png;base64," is removed, so that header plus payload gives back the input; any other input is unchanged |
| `Gemini.MarkerFrom` | server/services/geminiService.ts:23 | finds the first position where ";base64," starts with no line terminator before it, and reports none exactly when every occurrence has a line terminator before it |
| `Gemini.MimeMatch` | server/services/geminiService.ts:23 | a match means the input starts with "data:", then the result, then ";base64,". The result holds no line terminator, and ";base64," starts nowhere earlier. No match after "data:" means every ";base64," has a line terminator before it |
| `Gemini.MimeType` | server/services/geminiService.ts:24 | the matched media type, or image/png when there is no match |
| `Gemini.DataUrlMimeType` | server/services/geminiService.ts:23-24 | for "data:" + m + ";base64," + payload, with m holding no ";" and no line terminator, the media type read is m |
| `Gemini.DataUrlPayload` | server/services/geminiService.ts:20 | for such a data URL the payload is stripped only when m is image/png; any other media type leaves the whole URL as the payload |
| `Gemini.PngDataUrlSplits` | server/services/geminiService.ts:18-24 | a PNG data URL splits into header and payload, which rebuild it, and its media type is image/png |
| `Gemini.JpegDataUrlKeepsHeader` | server/services/geminiService.ts:20-24 | "data:image/jpeg;base64,xyz" is sent whole as the payload, labelled image/jpeg |
| `Gemini.NonDataUrlDefaultsToPng` | server/services/geminiService.ts:20-24 | an input that does not begin with "data:" is sent whole, labelled image/png |
| `Gemini.GeminiService.GuessImage` | server/services/geminiService.ts:14-53 | errors from the model are re-thrown; success exactly when the response text is non-empty, which becomes the guess with confidence 1.0; otherwise "Gemini API returned no text." |
| `Gemini.New` | server/services/geminiService.ts:7-12 | fails with "GEMINI_API_KEY is not set in environment variables." exactly when the key is unset or empty; otherwise the client holds that key |
| `Gemini.AsService` | server/services/geminiService.ts:14-47 | as a provider the adapter never succeeds with an empty guess, and a success always has confidence 1.0 |
| `Gemini.Request` | server/services/geminiService.ts:16-35 | the request uses model gemini-pro-vision and the prompt; its image data is the payload (header plus payload rebuilds a PNG data URL) and its media type is the one read from the data URL |
| `Routes.ErrorResponse` | server/routes/index.ts:35-39 | any thrown value gives status 500 with error "Internal server error"; details is the Error's message, or "An unknown error occurred" for a non-Error |
| `Routes.HandleGuess` | server/routes/index.ts:11-41 | exactly one response with status 200, 400 or 500. It is 400 with "No image data provided" exactly when the image is absent or empty, and then no provider is built or called. A missing InternVL key gives 500 with the key message and no call. Otherwise InternVL is called once with the image: its success is the 200 body exactly, and its failure gives 500 with the exhaustion message as details |
| `Routes.EmptyContentIsExhaustion` | server/routes/index.ts:23-30 | an InternVL reply with empty content makes the one-provider chain end in the exhaustion error, not in an empty guess |
| `CanvasHistory.Pushed` | src/components/Canvas.tsx:73-75 | the entries up to the current one are kept, the snapshot is appended and becomes current at the last position, and the invariant holds afterwards |
| `CanvasHistory.Cleared` | src/components/Canvas.tsx:82-83 | the history becomes empty with index -1 |
| `CanvasHistory.Undone` | src/components/Canvas.tsx:87-89 | a no-op when the index is 0 or less; otherwise the index drops by one. Entries are unchanged and the invariant is kept |
| `CanvasHistory.Redone` | src/components/Canvas.tsx:101-103 | a no-op when the index is at the last entry or beyond; otherwise the index rises by one. Entries are unchanged and the invariant is kept |
| `CanvasHistory.UndoThenRedo` | src/components/Canvas.tsx:87-103 | an effective undo followed by redo restores the state |
| `CanvasHistory.RedoThenUndo` | src/components/Canvas.tsx:87-103 | an effective redo followed by undo restores any reachable state |
| `CanvasHistory.StrokeDiscardsRedo` | src/components/Canvas.tsx:73-103 | after a push, redo is a no-op: the entries beyond the old index are gone |
| `CanvasHistory.Apply` | src/components/Canvas.tsx:68-103 | each history action keeps -1 <= index < length, and keeps index -1 exactly for the empty history |
| `CanvasHistory.ReplayKeepsReachable` | src/components/Canvas.tsx:20-103 | any sequence of actions from a reachable state, such as the initial empty one, ends in a reachable state |
| `CanvasHistory.Resize` | src/components/Canvas.tsx:167-172 | only the named dimension takes the new value; the other is unchanged |
| `CanvasHistory.Canvas.constructor` | src/components/Canvas.tsx:13-21 | empty history at index -1, not drawing, size as given (800 by 600 when the props are omitted) |
| `CanvasHistory.Canvas.StartDrawing` | src/components/Canvas.tsx:39-52 | unless not ready or loading, drawing starts; history and size unchanged |
| `CanvasHistory.Canvas.StopDrawing` | src/components/Canvas.tsx:68-76 | a no-op when not ready or loading; otherwise the snapshot is pushed whether or not a stroke was in progress, and drawing stops |
| `CanvasHistory.Canvas.ClearCanvas` | src/components/Canvas.tsx:78-84 | unless not ready, the history is reset to empty at index -1 |
| `CanvasHistory.Canvas.Undo` | src/components/Canvas.tsx:86-98 | the history becomes its undone form; nothing else changes |
| `CanvasHistory.Canvas.Redo` | src/components/Canvas.tsx:100-112 | the history becomes its redone form; nothing else changes |
| `CanvasHistory.Canvas.HandleSizeChange` | src/components/Canvas.tsx:167-172 | the size is updated in the named dimension only; history and drawing flag unchanged |

## Left out

- The AI client libraries (`GoogleGenerativeAI`, `OpenAI`): their calls are function parameters. A provider is therefore a deterministic function of the image. Each provider is called at most once per `guessImage`, so this loses nothing the chain depends on.
- Async/await and promises are modelled as synchronous calls that return a `Result`. Console logging is a side channel and is not modelled.
- Process bootstrap (`server/index.ts`: dotenv, CORS, rate limiting, body-size limits, `listen`, exit on a missing Gemini key) is plumbing and is not part of this model. Nor is `src/App.tsx`, which is UI composition only.
- `server/services/aiService.ts` holds only a type; it is `AiService.Service`.
- Regular expressions in general: only the two patterns the Gemini adapter uses are modelled, as a prefix test and a first-occurrence scan.
- `ChatCompletions.FirstChoiceContent`: the message of the error an empty `choices` array raises depends on the JavaScript engine; the model fixes V8's wording.
- Routes.HandleGuess: a truthy `imageData` that is not a string (a number, an object) is not modelled; the field is a string or absent. An exception raised while writing the response is not modelled either.
- The Gemini and OpenAI adapters are not in the route's roster, which is InternVL alone; they are modelled as providers on their own.
- Canvas: pixel drawing, coordinates, the 0.5 scale factor, `toDataURL` (snapshots are opaque strings), image reloading on undo and redo, the `fetch` in `handleGuess`, and the JSX are not modelled. Whether the 2-D context and the canvas element exist is the `ready` parameter. `isLoading`, which `handleGuess` sets, is a parameter.
- Canvas: React applies state updates later and in batches; the model applies each handler's updates at once, in order.
- CanvasHistory.Resize: `Number(e.target.value)` may be fractional or NaN; the model takes an integer.
