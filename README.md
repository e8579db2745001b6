# generateCaptions: request defaulting, caption normalisation and failure classification

This project models `generateCaptions` in `src/services/openaiService.ts`.
That function sends five caption parameters to a remote `generateCaptions`
callable and returns the generated captions, or `null` plus one `toast.error`
notice when something goes wrong (for errors whose `message` is a string or absent;
see "Left out"). The model covers the deterministic
parts of the function:

- **Request building.** The payload has all five fields, and `postIdea || niche` picks the post idea.
- **Response handling.** The shape check rejects a falsy response or a falsy `captions`.
- **Caption normalisation.** Each caption is mapped in order. A caption with a legacy `tags` string and no `hashtags` array gets `hashtags = tags.split(/\s+/).filter(tag => tag.trim() !== '')`.
- **Failure classification.** The `catch` block is an if/else-if chain that picks one user-facing notice from the error's `code` and `message`.

Each part is a Dafny function. The remote call is a function parameter
`service: Request -> CallResult`. `toast.error` becomes the `notices` field of
the returned `Outcome`.

Modules:

- `Wrappers` (`wrappers.dfy`): `Option`, standing for a property that may be `undefined`/`null`.
- `Whitespace` (`whitespace.dfy`):
  - the ECMAScript white-space class, which `\s` and `trim()` share;
  - `split(/\s+/)` as written, the blank filter, `trim`, and the collapse of white-space runs;
  - `SplitWs`, the reference description "maximal runs of non-white-space characters";
  - the lemmas that connect these.
- `Captions` (`captions.dfy`): the caption shape and the normalisation done by the `.map` callback.
- `Failures` (`failures.dfy`): the classification chain, the notice texts, and the same table stated row by row with a priority rank.
- `CaptionService` (`caption_service.dfy`): the request, the response shapes, the outcome of the whole call, and worked examples of a request, a legacy response and two failures.

Three points where a reading of the intent could differ from the code; the model follows the code:

- The legacy `tags` field is not dropped after conversion. The code spreads `...caption`, so `tags` stays on the normalised caption. `Normalize` keeps it.
- The code has an `internal`-code "service error" branch (line 110), but it is dead: line 89 already sends `internal` to the CORS branch. `Classify`'s contract states that it never yields `ServiceInternalError`.
- `hashtags` is not always present after normalisation. The guard at line 59 leaves a caption with neither `hashtags` nor a `tags` key unchanged, so it still has no `hashtags`. `Normalize`'s contract states that `hashtags` is an array afterwards exactly when it was one before or `tags` was present.

## Model

| member | source | states |
|---|---|---|
| `Whitespace.SplitOnWsRuns` | src/services/openaiService.ts:63 | `split(/\s+/)` always gives at least one piece, and no piece contains white space |
| `Whitespace.TrimLeft` | src/services/openaiService.ts:63 | the removed prefix is all white space, and the rest is empty or starts with a non-white-space character |
| `Whitespace.TrimRight` | src/services/openaiService.ts:63 | the removed suffix is all white space, and the rest is empty or ends with a non-white-space character |
| `Whitespace.SplitWs` | src/services/openaiService.ts:63 | every token of the reference tokenisation is non-empty and free of white space |
| `Whitespace.SplitFilterIsSplitWs` | src/services/openaiService.ts:63 | `split(/\s+/).filter(t => t.trim() !== '')` equals the maximal non-white-space runs, in order |
| `Whitespace.SplitWsNoneIffAllWs` | src/services/openaiService.ts:63 | a `tags` string gives no hashtags exactly when it is empty or all white space |
| `Whitespace.JoinSplitWsIsCollapsedTrim` | src/services/openaiService.ts:63 | joining the tokens with single spaces gives `tags.trim()` with every white-space run collapsed to one space |
| `Captions.TagsOrEmpty` | src/services/openaiService.ts:60 | the falsy default of `tags` to `''`: the result is empty exactly when `tags` is null/undefined or the empty string, and a non-empty result is the `tags` string itself |
| `Captions.TagsToHashtags` | src/services/openaiService.ts:63 | the hashtags are the maximal non-white-space runs of `tags`; each is non-empty and white-space free; joined with spaces they spell the trimmed, collapsed `tags` |
| `Captions.Normalize` | src/services/openaiService.ts:59-66 | `title`, `caption`, `cta` and `tags` are unchanged; a caption with a `hashtags` array or without a `tags` key is returned as is; afterwards `hashtags` is an array exactly when it was one before or `tags` was present; a legacy caption gets the tokens of its `tags` (a null `tags` counting as `''`) |
| `Captions.NormalizeAll` | src/services/openaiService.ts:57-67 | the `.map` keeps length and order: the i-th output is the normalised i-th input |
| `Captions.NormalizeAllLeavesNoLegacy` | src/services/openaiService.ts:57-67 | no normalised caption is still in the legacy shape |
| `Captions.NormalizeAllIdempotent` | src/services/openaiService.ts:59-66 | normalising the normalised captions again changes nothing |
| `Captions.LegacyHashtags` | src/services/openaiService.ts:60-63 | a legacy caption's hashtags are non-empty and white-space free, and joined they spell the trimmed, collapsed `tags`; a null or empty `tags` gives `[]` |
| `Failures.Classify` | src/services/openaiService.ts:84-116 | the chain never yields the service-error class (line 110 is unreachable) and never a shape violation |
| `Failures.Notice` | src/services/openaiService.ts:94-115 | every class has exactly one non-empty notice text |
| `Failures.CorsPolicyMentionsCors` | src/services/openaiService.ts:86-87 | a message containing "blocked by CORS policy" also contains "CORS", so the line 87 test adds nothing |
| `Failures.ClassifyIsFirstMatch` | src/services/openaiService.ts:84-116 | the chain is a total first-match table: the chosen row matches the error, and no row of higher priority does |
| `Failures.UnmatchedMessageIsEchoed` | src/services/openaiService.ts:112-113 | no known code and a non-empty message without the "CORS" or "limit_reached" markers gives exactly `"Error: " + message` |
| `Failures.NothingMatchedIsGeneric` | src/services/openaiService.ts:114-115 | no known code and an absent or empty message gives the generic "Failed to generate captions" notice |
| `Failures.UnavailableOutranksLimit` | src/services/openaiService.ts:84-109 | an `unavailable` code with a `limit_reached` message matches the plan-limit row but is classified as CORS |
| `CaptionService.BuildRequest` | src/services/openaiService.ts:32-38 | `tone`, `platform`, `niche` and `goal` are copied; `postIdea` is the caller's non-empty post idea, else `niche`; it is never empty when `niche` is not |
| `CaptionService.HandleResult` | src/services/openaiService.ts:48-118 | `null` comes with exactly one notice and success with none; a shape violation happens exactly when the response or its `captions` is falsy, and its notice is "Invalid response from caption generator"; the service-error class never occurs; success keeps the caption count and passes `requests_remaining` through |
| `CaptionService.GenerateCaptions` | src/services/openaiService.ts:17-120 | the call returns `null` exactly when it emits one notice, and a result exactly when it emits none |
| `CaptionService.OnlyBuiltRequestIsSent` | src/services/openaiService.ts:32-43 | the outcome depends on the remote service only through its answer to the built payload |
| `CaptionService.SuccessKeepsOrder` | src/services/openaiService.ts:57-72 | on success the i-th returned caption is the normalised i-th received caption, and none is left in the legacy shape |
| `CaptionService.EmptyCaptionsAccepted` | src/services/openaiService.ts:50-54 | an empty `captions` array passes the shape check and gives an empty result with no notice |
| `CaptionService.ThrownErrorIsClassified` | src/services/openaiService.ts:73-118 | a thrown error returns `null` with the single notice of its class, and that class's row matches the error |
| `CaptionService.CoffeeShopRequest` | src/services/openaiService.ts:32-38 | `("instagram", "playful", "coffee shops", "drive foot traffic")` with no post idea sends `postIdea: "coffee shops"` |
| `CaptionService.CoffeeShopResponse` | src/services/openaiService.ts:57-72 | a legacy caption with `tags: "  #coffee  #local "` gets `hashtags: ["#coffee", "#local"]`, and `requests_remaining: 4` passes through |
| `CaptionService.UnauthenticatedNeedsLogin` | src/services/openaiService.ts:106-107 | an `unauthenticated` failure returns `null` with the sign-in notice |
| `CaptionService.NetworkTimeoutIsEchoed` | src/services/openaiService.ts:112-113 | a codeless `network timeout` failure shows `Error: network timeout` |

## Left out

- The remote call (`getFunctions`, `httpsCallable`, the `await`, lines 28-29 and 43) is the parameter `service`. The region and the callable's name are not modelled.
- `async`/Promise semantics are not modelled. The call is a single request and response with no concurrency.
- `toast.error` is modelled only as the returned `notices` sequence. How a notice is displayed is not modelled.
- `console.log`/`console.error` logging is not modelled (lines 25, 40, 45, 51, 75-81, 91, 102, 104). It has no effect on the result.
- The `window.location` origin capture (lines 99-105) is browser I/O inside its own try/catch. It cannot change the result or the notice, so it is not modelled.
- Dynamic typing is not modelled, including the `as any` and `as CaptionResponse` casts. Five consequences follow:
  - A truthy `tags` value that is not a string makes `.split` throw a TypeError inside the `try`.
  - A truthy `captions` value that is not an array makes `.map` throw a TypeError inside the `try`.
  - A `hashtags` value that is neither absent nor an array is modelled as absent (`None`).
  - A `null` or primitive element of `captions` makes `'tags' in caption` (line 59) throw a TypeError inside the `try`. The catch block then shows `Error: ` followed by the engine's TypeError text. Every modelled `Caption` is an object, so this path is not expressed.
  - A `message` that is neither nullish nor a string (a number, say) makes `error?.message?.includes('CORS')` (line 86) throw inside the `catch`, unless `code` is `functions/cors-error`. The returned promise then rejects with no notice. `CallError.message` is modelled as an optional string, so this path is not expressed, and the one-notice contract of `HandleResult` covers string or absent messages only.
- `requests_remaining` is modelled as an integer. Its pass-through holds for any value, but the model does not cover an absent value.
- `Whitespace.IsWs` hard-codes the ECMAScript WhiteSpace and LineTerminator code points, including the Unicode `Zs` category as of recent Unicode versions. It does not track changes between Unicode versions.
