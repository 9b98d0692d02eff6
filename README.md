# AI roadmap generator: the generation endpoint in Dafny

This project models the `POST /api/generate-roadmap` handler of the roadmap
generator's Express server. The handler takes a career, an experience level
and goals, builds a prompt, asks a Gemini model for a JSON roadmap, strips
markdown code fences from the reply, parses it, checks its shape and answers
with one of four responses:

- 400 "Missing required fields";
- 500 "Invalid response format";
- 500 "Failed to generate roadmap";
- 200 with the parsed roadmap.

The handler is pure once its two foreign calls are parameters, so the model is
a chain of functions:

- `JsValues`: JSON values and the JavaScript semantics the handler depends on.
  This covers truthiness, property reads (a TypeError on `null`) and the
  ToString conversion a template literal applies. An object with an own
  `toString` property makes that conversion throw.
- `Fences`: the global regular-expression replacement
  ``/```json\n?|```\n?/g`` as the recursive function `StripFences`. Lemmas
  prove that it only deletes characters and leaves no fence behind. It is
  therefore idempotent, and it is the identity exactly on fence-free text.
- `Prompt`: the prompt template. The three inputs sit verbatim at fixed
  positions, and the required JSON structure ends the prompt.
- `Roadmap`: the shape check, the reply interpretation (inner `try`) and the
  whole handler `GenerateRoadmap`. Lemmas state each outcome exactly.
- `Results`: `Option` (`None` is JavaScript `undefined`) and `Result`.

The upstream model call is the parameter `generate: string -> Result<string, string>`.
It covers `generateContent` plus reading the reply text, with `Err(message)` for
anything it throws. `JSON.parse` is the parameter `parse: string -> Option<Json>`,
where `None` is a SyntaxError. Both stay uninterpreted.

Behaviour of the code worth knowing:

- The front end declares `RoadmapData` with string `title` and `description`
  (src/types/index.ts:1-5), but the server never enforces that. It accepts any
  truthy `title` and `description`, checks only that `steps` is an array, and
  never inspects the step objects (`StepsNotInspected`).
- Every fence anywhere in the reply is deleted, including fences inside JSON
  string values, not only a leading and a trailing one (`StripRemovesEveryFence`,
  with the example `InteriorFenceRemoved`).
- An empty reply is text that `parse` may refuse.
- A 500 "Failed to generate roadmap" response echoes the thrown error's
  message as `details`, whatever that message is.

## Model

| member | source | states |
|---|---|---|
| `JsValues.FalsyExactly` | server/index.js:24 | a field is falsy exactly when it is undefined, null, false, 0 or ""; empty arrays and objects are truthy |
| `JsValues.TemplateText` | server/index.js:44 | `${v}` gives a string verbatim and "[object Object]" for an object; it throws exactly for an object with an own `toString` key, or for an array holding an element that throws |
| `JsValues.JoinFrom` | server/index.js:44 | an array's join throws exactly when one of its remaining elements throws, with the ToPrimitive TypeError; an exhausted array joins to "" |
| `JsValues.NestedArrayJoin` | server/index.js:44 | `${["a", null, ["b", "c"]]}` converts to "a,,b,c", as `Array.prototype.join(",")` gives |
| `Fences.MatchLength` | server/index.js:68 | the pattern matches at the start exactly when the text opens with three backticks; the match is one of "```json\n", "```json", "```\n", "```"; "```json" wins over "```", and the optional line feed is always taken when present |
| `Fences.StripFences` | server/index.js:68 | the global replacement never lengthens the text |
| `Fences.StripIsSubsequence` | server/index.js:68 | the stripped text is a subsequence of the reply: the stripper only deletes |
| `Fences.StripIdentityIff` | server/index.js:68 | stripping leaves the text unchanged if and only if the text holds no "```" |
| `Fences.StripNoFenceIsIdentity` | server/index.js:68 | text without "```" passes through unchanged |
| `Fences.StripShorterIff` | server/index.js:68 | the stripped text is strictly shorter if and only if the reply holds "```" |
| `Fences.StripRemovesEveryFence` | server/index.js:68 | no "```" survives stripping, not even one formed by joining text around a deleted match |
| `Fences.StripIdempotent` | server/index.js:68 | stripping twice equals stripping once |
| `Fences.StripCleanPrefix` | server/index.js:68 | a fence-free prefix is kept unchanged and the rest is stripped on its own, provided no fence straddles the seam (the prefix does not end in a backtick, or the rest is empty or does not start with one) |
| `Fences.StripJsonBlock` | server/index.js:68 | a reply of "```json", line feed, payload, line feed, "```" strips to the payload plus one line feed, for a payload that holds no "```" |
| `Fences.InteriorFenceRemoved` | server/index.js:68 | the replacement is global: the JSON string literal `"a```b"` strips to `"ab"`, an example of the general `StripRemovesEveryFence` |
| `Prompt.BuildPrompt` | server/index.js:42-58 | the prompt's length is the template's fixed length plus the lengths of the three inputs |
| `Prompt.PromptLayout` | server/index.js:42-58 | the prompt is the preamble, then career, ", with ", experience, the goals lead-in and goals, then the required JSON structure, each at a fixed position |
| `Prompt.PromptContainsInputs` | server/index.js:42-58 | career, experience, goals and the required JSON structure are all substrings of the prompt |
| `Prompt.PromptInjectiveForEqualLengths` | server/index.js:44 | given the lengths of career and experience, the prompt determines all three inputs |
| `Roadmap.PromptFrom` | server/index.js:42-44 | the template literal fails exactly when one field's ToString throws, and then with the ToPrimitive TypeError; otherwise it is the prompt of the three converted fields, and for string fields the prompt of the strings themselves |
| `Roadmap.CheckShape` | server/index.js:72-74 | a parsed value is accepted if and only if it is an object with truthy `title` and `description` and an array `steps`; it is accepted unchanged; null fails at the property read, and only null does |
| `Roadmap.InterpretReply` | server/index.js:66-74 | the inner try succeeds exactly when the stripped reply parses to a roadmap-shaped value, and yields that value; it fails as unparseable exactly when parsing fails |
| `Roadmap.GenerateRoadmap` | server/index.js:20-92 | the status is 200, 400 or 500, and it is 400 exactly when a required field is falsy |
| `Roadmap.IncompleteRequestRejected` | server/index.js:24-29 | a falsy career, experience or goals yields 400 with "Missing required fields" and "Career, experience, and goals are required" |
| `Roadmap.IncompleteRequestIgnoresModel` | server/index.js:24-29 | on an incomplete request the response is the same for every model and parser: the model is never consulted |
| `Roadmap.ModelSeesOnlyPrompt` | server/index.js:60-62 | the response depends on the model only through its answer to the built prompt; when the prompt cannot be built, not at all |
| `Roadmap.PromptFailureReported` | server/index.js:42-91 | whenever the template literal throws for any field, the thrown error is the ToPrimitive TypeError and the response is 500 "Failed to generate roadmap" with that message, before the model is called |
| `Roadmap.UnconvertibleFieldFails` | server/index.js:42-91 | a career object with an own `toString` key makes the template literal throw, which gives 500 "Failed to generate roadmap" with the TypeError message before the model is called |
| `Roadmap.ReplyOutcome` | server/index.js:66-84 | once the model replied, the status is 200 exactly when the stripped reply parses to a roadmap-shaped value, with that value as body; otherwise the response is the fixed "Invalid response format" one, with no trace of the reply text |
| `Roadmap.SuccessMeansValidReply` | server/index.js:66-76 | a 200 response means the fields were present, the model replied, and the stripped reply parsed to a roadmap-shaped value; the body is exactly that value, extra fields included |
| `Roadmap.UpstreamFailureReported` | server/index.js:60-91 | a failed model call yields 500 "Failed to generate roadmap" with the error's message, never "Invalid response format" |
| `Roadmap.OuterCatchOnlyBeforeReply` | server/index.js:77-91 | a "Failed to generate roadmap" response only arises from the prompt or the model call throwing; parse and shape errors never reach the outer catch |
| `Roadmap.FourOutcomes` | server/index.js:20-92 | every response is the 400, the "Invalid response format" 500, a "Failed to generate roadmap" 500, or a 200 whose body has the roadmap shape |
| `Roadmap.StepsNotInspected` | server/index.js:72 | replacing the `steps` of an accepted value by any array keeps it accepted |
| `Roadmap.NullReplyRefused` | server/index.js:69-72 | a reply that parses to null is refused at the first property read, with the TypeError "Cannot read properties of null (reading 'title')" |
| `Roadmap.TitleOnlyRefused` | server/index.js:72-73 | a reply that parses to an object holding only a `title`, whatever its value, is refused by the explicit shape throw |
| `Roadmap.FencedReplyAccepted` | server/index.js:66-76 | a roadmap wrapped in a ```json block, for a payload that holds no "```", gets 200 with the parsed roadmap |

## Left out

- Express, CORS and dotenv setup, the `GEMINI_API_KEY` check with `process.exit`, and `app.listen` (server/index.js:1-18, 94-97). These are process and network plumbing.
- The Gemini SDK (`getGenerativeModel`, `generateContent`, `response.text()`). It is a foreign network call and is the parameter `generate` instead. An error thrown by `getGenerativeModel` is not modelled separately.
- `generationConfig` (server/index.js:35-40). It holds floating-point sampling parameters and is never passed to the call.
- `JSON.parse` is the uninterpreted parameter `parse`. There is no JSON grammar, so the whitespace and syntax rules of JSON are not modelled.
- Logging with `console.log` and `console.error` has no effect on the response.
- The order of object keys is not modelled: objects are maps. So the key order of the echoed roadmap and of the `{error, details}` bodies is not captured.
- Each JSON number is held as its JavaScript string form. Floating-point values and their conversion to text are therefore not modelled.
- `JsValues.Truthy` assumes a `JNumber` text is one `Number.prototype.toString` produces, so zero is exactly "0". The type admits other texts such as "-0" or "0.0", which no parsed JSON value has; on those `Truthy` says truthy where JavaScript says falsy.
- Strings are Dafny strings, that is sequences of Unicode scalar values, while JavaScript strings are sequences of UTF-16 code units. A lone surrogate, in a request field or in the model's reply, cannot be represented, and `Prompt.BuildPrompt`'s length counts scalar values rather than JavaScript's `.length`. No behaviour of the handler depends on this, because the fence pattern and every key the handler reads are ASCII.
- The request body is modelled as an object. With a missing or non-JSON body, `req.body` may be undefined, and destructuring it would throw into the outer catch. That path is not modelled.
- `JsValues.ReadProperty` is defined only for the three keys the handler reads. Prototype properties such as `length` are left out.
- The React front end (src/App.tsx and src/components/*) is not part of this model. It is UI state, `fetch`, `localStorage`, `navigator.share` and `window.print`. The signup and login endpoints it calls are not in the shown server either.
- src/types/index.ts declares the intended roadmap and step shapes. The server never enforces them, so they are not modelled as checks.
- async/await is not modelled. Each await is a single opaque call, so there is no concurrency.
