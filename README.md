# Shadow-work quiz: prompt bank and analysis service

A Dafny model of the deterministic core of a chat quiz app. The app asks 24 fixed
questions and sends the answers to a remote generative model. It gets back a JSON
"analysis" and then asks for an illustration. Two parts are modelled.

- **The prompt bank** (`constants.ts`, module `Constants`). It holds the 24 questions,
  the greeting, the persona instruction, and `ANALYSIS_PROMPT_TEMPLATE`. The template
  places one line `Q<n>: <answer>` per answer between a fixed head and a fixed tail.
  The lines are joined by `'\n'`. The module also defines a reader, `ReadPrompt`, as a
  partner: the lemmas prove that the prompt records the answers numbered 1..k with
  no gap, in order and verbatim. The text constants are the source's own strings.
- **The analysis service** (`services/geminiService.ts`, module `GeminiService`).
  Each remote call is replaced by the outcome it had. A text call throws or returns
  a text. `JSON.parse` is the parameter `parse`: it throws, gives a falsy value, or
  gives the analysis record. An image call throws or returns candidates whose parts
  may carry inline data. `GetAnalysisAndImage` follows the source step by step:
  1. the primary tier;
  2. the fallback tier, then the fatal errors;
  3. the best-effort image step, with the placeholder image and the degraded flag;
  4. the record assembly.

  It returns the result and the list of calls it made, with their arguments.
  `GenerateVisualAnchor` scans the parts of the first candidate with a loop and
  returns `data:image/png;base64,` plus the first inline payload.

Helper modules: `Wrappers` (Option, Result), `Numerals` (the decimal numeral that
`${index + 1}` produces, and reading it back), `Strings` (`join('\n')`, `split('\n')`,
and stripping a fixed head and tail).

Behaviour of the code that the model keeps, and that a reader might not expect:
- The code does not validate or repair the parsed output against the schema. The model
  adds no check either.
- An empty fallback text or a falsy parse fails with "Failed to generate analysis data.".
  Only a throw from the fallback call or its parse gives the "overloaded" message.
- The template takes any number of answers, so the lemmas hold for any count.
- Answers are embedded unescaped. The block has exactly one line per answer only when no
  answer contains a line break; `MultiLineAnswerAddsLine` shows the extra line that a
  line break adds.

## Model

| member | source | states |
|---|---|---|
| `Numerals.NatToString` | constants.ts:57 | the number rendered by `${index + 1}` is a non-empty run of decimal digits with no leading zero |
| `Numerals.NatToStringRoundTrip` | constants.ts:57 | reading the rendered numeral back gives the number |
| `Numerals.NatToStringInjective` | constants.ts:57 | different line numbers render differently |
| `Strings.JoinLinesEnds` | constants.ts:57 | `join('\n')` starts with the first line and ends with the last: no separator after the last line |
| `Strings.SplitJoin` | constants.ts:57 | join semantics: splitting the joined text on `'\n'` gives back exactly the lines, when no line contains `'\n'` |
| `Strings.StripFrameConcat` | constants.ts:52-88 | removing a fixed head and tail from head + middle + tail gives the middle |
| `Constants.QuestionBank` | constants.ts:4-38 | the bank holds exactly 24 questions, pairwise different, in the fixed order of the constant |
| `Constants.NumberAnswersLines` | constants.ts:57 | the indexed map gives one line per answer, in input order; the line for `answers[i]` is `"Q" + (first + i) + ": " + answers[i]` |
| `Constants.AnswerLineRoundTrip` | constants.ts:57 | a line gives back its number and its answer exactly, so answers are embedded verbatim (no escaping, no trimming, no length check); an empty answer gives `"Qn: "` |
| `Constants.AnswerLineInjective` | constants.ts:57 | two lines are equal only when their numbers and their answers are equal |
| `Constants.NumberedLinesDistinct` | constants.ts:57 | for any answers, the k lines are pairwise distinct, because their numbers differ |
| `Constants.IdenticalAnswersDistinctLines` | constants.ts:57 | 24 identical answers still give 24 pairwise-distinct lines |
| `Constants.BlockLines` | constants.ts:57 | for k > 0 answers with no line break, the block splits into exactly k lines, line i being `"Q" + (i + 1) + ": " + answers[i]` |
| `Constants.MultiLineAnswerAddsLine` | constants.ts:57 | the answer `"a\nb"` gives a block of two lines, `"Q1: a"` and `"b"`: the line count needs answers without line breaks |
| `Constants.EmptyAnswersPrompt` | constants.ts:52-88 | no answers give an empty block, so the prompt is the head directly followed by the tail |
| `Constants.PromptFrame` | constants.ts:52-88 | the prompt is the fixed head, then the answer block, then the fixed tail; head and tail do not depend on the answers |
| `Constants.ReadAnswerLinesNumbered` | constants.ts:57 | lines numbered from `first` read back as the answers, in order, with consecutive numbers |
| `Constants.BlockRoundTrip` | constants.ts:57 | the block records the answers numbered 1..k with no gap, in order and verbatim (answers without line breaks) |
| `Constants.PromptRoundTrip` | constants.ts:52-88 | reading the whole prompt gives back exactly the answers (answers without line breaks) |
| `GeminiService.Assemble` | services/geminiService.ts:135-145 | the returned record copies every parsed field unchanged (`chartData` is `assessment`) and carries the chosen image URL and degraded flag |
| `GeminiService.FirstInlineAt` | services/geminiService.ts:63-67 | the scan returns the payload of the first part that has inline data |
| `GeminiService.FirstInlineNone` | services/geminiService.ts:63-70 | the scan finds nothing exactly when no part has inline data |
| `GeminiService.FirstInlineIgnoresLater` | services/geminiService.ts:63-67 | parts after the first one with inline data do not change the result |
| `GeminiService.VisualAnchorFirstPart` | services/geminiService.ts:63-67 | a response with inline data yields `"data:image/png;base64,"` + the first payload |
| `GeminiService.VisualAnchorNoImage` | services/geminiService.ts:63-70 | a response whose parts carry no inline data fails with `NoImageData`, whose message is "No image data returned from API" |
| `GeminiService.GenerateVisualAnchor` | services/geminiService.ts:45-71 | makes one image call, whose prompt quotes the theme; a call that throws or has no candidate fails; the loop returns the data URI of the first part with inline data, or fails when there is none; a success is always a PNG data URI |
| `GeminiService.TextTiers` | services/geminiService.ts:77-120 | the primary call always comes first; the fallback call, with the same prompt and instruction, is made exactly when the primary tier left no data; the outcome is the primary record, or else the fallback tier's record or error |
| `GeminiService.PrimaryTier` | services/geminiService.ts:78-94 | the primary tier leaves data exactly when the call returned non-empty text that parsed to a record; throws from the call or from parsing are caught |
| `GeminiService.FallbackTier` | services/geminiService.ts:97-120 | the fallback tier fails with "overloaded" exactly when the call or the parse throws, and with "Failed to generate analysis data." exactly when the text is empty or parses to a falsy value; otherwise it gives the parsed record |
| `GeminiService.ImageStep` | services/geminiService.ts:122-145 | one image call with the theme; on failure the placeholder and `isImageFallback = true`; on success the returned URI and `false`; the record keeps the parsed fields |
| `GeminiService.GetAnalysisAndImage` | services/geminiService.ts:73-146 | the call order and arguments, and the result in each case (details below the table) |

`GeminiService.GetAnalysisAndImage` guarantees the following.
- The primary call comes first. It sends the rendered prompt and the persona instruction.
- If the primary call yields a record, there is no fallback call, and that record is used.
- Otherwise there is exactly one fallback call, with the same prompt. Then:
  - a throw fails with "overloaded", and there is no image call;
  - no data fails with "Failed to generate analysis data.", and there is no image call;
  - data goes on to the image step.
- The image call happens exactly when the operation succeeds. It is the last call, and it quotes the theme.
- An image failure never aborts the operation. It sets the placeholder image and the degraded flag.

## Left out

- The `@google/genai` client, the API key, the model identifiers and the request configuration. This includes the response MIME type and `analysisSchema`. They are foreign SDK and network I/O. A call is recorded only by its tier, its contents and its system instruction, or by its image prompt.
- The contents of `analysisSchema`. The source does no local validation of the model output, so the model does not check percentage ranges or array lengths either.
- `JSON.parse`. It is the opaque parameter `parse`. A truthy parse result that is not the analysis record (an array or a number, say, whose fields read as `undefined`) is not distinguished from the record.
- An absent `result.text` is modelled as the empty string, which takes the same branch.
- A response whose first candidate lacks `content` or `parts` raises a TypeError in the source. It is not modelled; only an empty candidate list is (`NoCandidate`). The `mimeType` of the inline data is ignored, as in the source, which always wraps the payload as PNG.
- Logging (`console.warn`, `console.error`), async/await and Promises, and the thrown `Error` objects. Errors are values. `ErrorMessage` gives the texts of the service's own errors, and `ImageErrorMessage` gives the text of the image error thrown by `generateVisualAnchor`. The messages of errors raised by the client or by the runtime (`ImageCallFailed`, `NoCandidate`) come from code outside this model and are not given.
- The chat UI that collects the answers and shows the result, and the `ChatMessage` type beyond its role and content.
- Constants.BlockLines: requires that no answer contains a line break, because the source embeds answers unescaped and a line break adds lines (see `Constants.MultiLineAnswerAddsLine`).
- Constants.BlockRoundTrip: requires answers without line breaks, for the same reason.
- Constants.PromptRoundTrip: requires answers without line breaks, for the same reason.
- `JSON` numbers in the assessment are modelled as `real`. No arithmetic is done on them.
- Strings are sequences of Unicode scalar values, while JavaScript strings are sequences of UTF-16 code units. Answers or responses that contain lone surrogates therefore cannot be expressed, and lengths are counted in characters rather than code units.
