# Hexa chat core, modelled in Dafny

Hexa is a browser chat assistant for writing code. This project models the
logic behind its chat and pricing screens. The model has four parts:

- **Canned reply matcher** (`MockApi`, from `src/lib/mockApi.ts`). It picks a
  reply for a user message by first match over fixed tables, in this order:
  - eight conversational regular expressions, tested on the raw message with
    the `i` flag;
  - four topic keys, tested as substrings of the lower-cased message;
  - ten "wants code" keywords;
  - a fallback text.

  Reply texts and code examples are the source's literals, kept exactly,
  mis-encoded characters included.
- **Local model loader** (`TransformersApi`, from
  `src/lib/transformersApi.ts`). The class `LocalModel` holds the two module
  flags `textGenerator` and `isInitializing`. `initializeGenerator` is split
  into its steps: `Begin` reuses, waits or starts the load, `Settle` is the
  pipeline call settling, and `Poll` is one test of the wait loop. The ghost
  counters `loads` and `failures` state single flight: at most one pipeline
  call is in flight, and none starts once a handle exists. Around the model
  call sit the language detector, the prompt and the reply message.
- **Provider coordinator** (`AiApi`, from `src/lib/aiApi.ts`). The class
  `Coordinator` holds `currentConfig`, merges partial configurations, and
  routes a message to the mock matcher, the local model or the backend. It
  falls back to the mock matcher when the chosen provider fails. It also
  reports status, and maps the backend's JSON to a message with defaults.
- **Checkout resolution** (`PricingModal` and `Uri`, from
  `src/components/PricingModal.tsx` and `src/config/stripe.ts`). The model
  covers four rules:
  - `stripe:` references resolve to checkout URLs;
  - a chosen plan is dispatched;
  - the `mailto:` link is built with `encodeURIComponent`, which is proved
    inverted by a decoder;
  - the button label is chosen from the price.

`Strings` holds the JavaScript string operations the core uses:
- regular-expression case folding;
- `toLowerCase`;
- `startsWith`, `includes` and `indexOf`;
- `replace` with a string pattern.

`Wrappers` holds `Option`, `Result` and the errors.

Ids, clock readings, what `fetch` returns and how the model pipeline
behaves are parameters. The coordinator's `World` value gathers them for one
call.

Exactly `hello` is caught by the greeting pattern `^(hi|hey|hello|yo|sup)$`
first, so it gets "Hey there! …" with no code
(`MockApi.HelloIsAGreeting`). The `hello` topic, with the welcome text and
the `hello` code example, is reached only by messages that contain `hello`
without being exactly a greeting.

## Model

| member | source | states |
|---|---|---|
| MockApi.CannedReply | src/lib/mockApi.ts:135-185 | The first conversational pattern that matches the raw message decides, with no code or language. Otherwise the first topic key, in table order, that the lower-cased message contains gives that topic's reply, code example and language. Otherwise any keyword gives the `hello` example tagged `python`. Otherwise the fallback text, without code. Code always comes with a language. |
| MockApi.ConversationIndex | src/lib/mockApi.ts:138-148 | The loop returns from the first pattern that matches. It falls through exactly when no pattern matches. |
| MockApi.TopicIndex | src/lib/mockApi.ts:151-162 | The loop returns from the first key, in table order, that the lower-cased message contains. It falls through exactly when none is contained. |
| MockApi.GenerateAIResponse | src/lib/mockApi.ts:131-186 | The message has role `assistant`, the given id and timestamp, and the canned reply's content text, code text and language. It has code iff the reply does, and code implies language. It is total. |
| MockApi.Matches | src/lib/mockApi.ts:139 | `pattern.test(userMessage)` on the raw message: an anchored pattern matches iff the message's ASCII fold is one of its alternatives; an unanchored one iff the fold contains one of them. |
| MockApi.ToMessage | src/lib/mockApi.ts:140-185 | The returned object has role `assistant`, the given id and clock reading, the reply's content and language, and the reply's code text exactly when the reply has code. |
| MockApi.WelcomeMessage | src/lib/mockApi.ts:191-200 | The id is `welcome-msg`, the role is assistant, the code is the `hello` example and the language is `python`. |
| MockApi.WelcomeIsHelloTopic | src/lib/mockApi.ts:191-200 | The welcome message is the `hello` topic's reply under the id `welcome-msg`. |
| MockApi.WholeAlternativesDisjoint | src/lib/mockApi.ts:98-102 | No alternative belongs to two of the anchored patterns. |
| MockApi.WholeMatchReply | src/lib/mockApi.ts:97-148 | A message that equals an alternative of an anchored pattern, up to ASCII case, gets that pattern's reply, with no code or language. |
| MockApi.HelloIsAGreeting | src/lib/mockApi.ts:98 | Exactly `hello` gets "Hey there! ‚ü° Ready to write some code?" with no code. |
| MockApi.UpperCaseGreeting | src/lib/mockApi.ts:98 | `HI` gets the greeting reply. |
| MockApi.LetsGoWithApostrophe | src/lib/mockApi.ts:99 | `let's go` gets the "Awesome!" reply. |
| MockApi.LetsGoWithoutApostrophe | src/lib/mockApi.ts:99 | `Lets Go` gets the "Awesome!" reply. |
| MockApi.ThxIsThanks | src/lib/mockApi.ts:101 | `thx` gets the "You're welcome!" reply. |
| MockApi.SurroundingSpaceDefeatsAnchors | src/lib/mockApi.ts:137-185 | ` hi`, in any ASCII case, matches no anchored pattern, because nothing is trimmed. It names no topic or keyword, so it gets the fallback text without code. |
| MockApi.ConversationBeforeTopics | src/lib/mockApi.ts:138-148 | If any conversational pattern matches, the reply has no code or language. Its text is that of the same pattern or an earlier one, whatever topic the message names. |
| MockApi.HelpMeBeatsFibonacci | src/lib/mockApi.ts:105 | `Help me with fibonacci` gets a reply without code. |
| MockApi.NoConversationIn | src/lib/mockApi.ts:97-106 | Say a message has no upper-case ASCII letter, is not an anchored alternative, and lacks `h` (or lacks both `w` and `p`). Then it matches no conversational pattern. |
| MockApi.NoTopicIn | src/lib/mockApi.ts:109-126 | A message without `v`, `f`, `y` and `h` contains no topic key. |
| MockApi.FibonacciIsTypeScript | src/lib/mockApi.ts:151-162 | `fibonacci`, in any ASCII case, gets the fibonacci reply, the fibonacci example and `typescript`. |
| MockApi.BinarySearchIsRust | src/lib/mockApi.ts:151-162 | `binary search`, in any ASCII case, gets the binary search reply, its example and `rust`. |
| MockApi.KeywordExample | src/lib/mockApi.ts:165-177 | `quicksort please`, in any ASCII case, names no topic but contains the keyword `sort`. It gets the keyword reply with the `hello` example and `python`. |
| MockApi.TopicByFold | src/lib/mockApi.ts:135-162 | The reply depends on the message only through its ASCII fold. If no conversational pattern matches the fold and topic `k` is the first in the lower-cased fold, the reply is topic `k`'s. |
| MockApi.KeywordByFold | src/lib/mockApi.ts:135-177 | If the fold matches no conversational pattern, its lower case names no topic, and it contains a keyword, the reply is the keyword reply with the `hello` example and `python`. |
| MockApi.SameConversationIndex | src/lib/mockApi.ts:138-148 | Messages that match the same conversational patterns stop the first loop at the same pattern. |
| MockApi.CaseInsensitive | src/lib/mockApi.ts:135-166 | Two messages that differ only in the case of ASCII letters get the same reply. |
| Strings.Fold | src/lib/mockApi.ts:98-105 | The `i` flag folds each ASCII capital to its small letter and keeps every other character. |
| Strings.FoldDeterminesLower | src/lib/mockApi.ts:135 | Strings equal up to ASCII case have the same `toLowerCase`. |
| Strings.ToLower | src/lib/mockApi.ts:135 | `toLowerCase` leaves no ASCII capital and never shortens the text. |
| Strings.Contains | src/lib/mockApi.ts:152 | `includes` holds iff the key occurs at some index. |
| Strings.ContainsAny | src/lib/mockApi.ts:166 | `some(includes)` holds iff some key is contained. |
| Strings.ContainsPrefixOfKey | src/lib/transformersApi.ts:79 | A string that contains `t + u` contains `t`. |
| Strings.IndexOf | src/components/PricingModal.tsx:19 | The result is the first index where the pattern occurs. It is none iff the pattern occurs nowhere. |
| Strings.ReplaceFirst | src/components/PricingModal.tsx:19 | With a string pattern and a replacement without `$`, `replace` changes nothing when the pattern does not occur. Otherwise it replaces only the first occurrence and keeps the text before and after it. |
| Strings.StartsWith | src/components/PricingModal.tsx:18 | `startsWith` holds only when the prefix fits in the text and matches it character by character. |
| Strings.StartsWithFirstIndex | src/lib/transformersApi.ts:116 | `startsWith(t)` holds iff the first occurrence of `t` is at index 0. |
| Strings.ReplacePrefix | src/components/PricingModal.tsx:19 | `replace(prefix, '')` on a string that starts with `prefix` removes exactly that prefix, even if `prefix` occurs again later. |
| Strings.FirstWhere | src/lib/mockApi.ts:138-162 | The result is the first table index whose entry satisfies the test. It is none iff no entry does. |
| TransformersApi.StatusName | src/lib/transformersApi.ts:144-148 | The name is one of `not_loaded`, `loading`, `ready` and `error`, and it is `ready` iff the status is `Ready`. |
| TransformersApi.InitializeOutcome | src/lib/transformersApi.ts:20-61 | A stored handle is returned as is. Only a call that starts the load sees its rejection. A waiting call gets the handle as it is after the load, which is null when the load failed. |
| TransformersApi.HandleAfter | src/lib/transformersApi.ts:20-61 | A stored handle is kept. Otherwise the handle after the load is the resolved one, and null iff the load rejected. |
| TransformersApi.LocalModel.constructor | src/lib/transformersApi.ts:13-14 | The handle is null, no load is in flight and no pipeline call has been made. |
| TransformersApi.LocalModel.GetModelStatus | src/lib/transformersApi.ts:144-148 | The status is never `error`. It is `ready` iff a handle is stored, `loading` iff there is no handle and a load is in flight, and `not_loaded` otherwise. |
| TransformersApi.LocalModel.IsModelReady | src/lib/transformersApi.ts:137-139 | Ready iff `getModelStatus()` is `ready`. |
| TransformersApi.LocalModel.Begin | src/lib/transformersApi.ts:21-31 | With a handle, it returns the handle and changes nothing. With a load in flight, it waits and changes nothing. Otherwise it raises `isInitializing` and starts exactly one pipeline call. |
| TransformersApi.LocalModel.Settle | src/lib/transformersApi.ts:38-60 | A resolved load stores the handle. A rejected one leaves the handle null, so the status is back at `not_loaded`. Either way `isInitializing` is cleared. |
| TransformersApi.LocalModel.Poll | src/lib/transformersApi.ts:24-27 | It keeps waiting iff a load is in flight. Otherwise it yields the handle as it is, possibly null. |
| TransformersApi.LocalModel.InitializeGenerator | src/lib/transformersApi.ts:20-61 | The result is `InitializeOutcome` of the flags on entry. A pipeline call starts iff there was no handle and no load in flight, so never a second one. The flag is false afterwards. The single-flight invariant is kept. |
| TransformersApi.LocalModel.PreloadModel | src/lib/transformersApi.ts:153-159 | It never fails, and it changes the state as `initializeGenerator` does. |
| TransformersApi.LocalModel.GenerateCodeWithTransformers | src/lib/transformersApi.ts:89-132 | It loads or reuses the handle like `initializeGenerator`: one pipeline call iff there was no handle and no load in flight, a failure counted iff the load rejected, and the flag cleared. It then resolves to `GenerationResult` of what that returned. |
| TransformersApi.FirstRuleMatches | src/lib/transformersApi.ts:69-81 | A language other than `python` comes from a rule one of whose keys the message contains, and no earlier rule matched. |
| TransformersApi.FirstRuleFound | src/lib/transformersApi.ts:69-81 | When some rule's key is contained, the language is not the default `python`. |
| TransformersApi.DetectLanguage | src/lib/transformersApi.ts:70-81 | The language is one of `typescript`, `javascript`, `rust`, `java`, `go` and `python`. |
| TransformersApi.DetectLanguageFollowsRules | src/lib/transformersApi.ts:70-81 | The if/else chain equals the first-match search over the rule table: `typescript`/`ts`, `javascript`/`js`, `rust`, `java`, `go`/`golang`, else `python`. |
| TransformersApi.ExtractCodeIntent | src/lib/transformersApi.ts:66-84 | The task is the message unchanged. The language is the first rule that matches the lower-cased message. |
| TransformersApi.DetectedLanguageHasKey | src/lib/transformersApi.ts:66-84 | A detected language other than `python` has a key in the lower-cased message, and no earlier language does. The language is `python` iff no language's key is in the lower-cased message. |
| TransformersApi.GolangIsRedundant | src/lib/transformersApi.ts:79 | The `go` rule fires exactly when `go` is contained, so `golang` never decides. |
| TransformersApi.ListsIsTypeScript | src/lib/transformersApi.ts:71 | `lists` is detected as `typescript`, through its `ts`. |
| TransformersApi.GoWhenNoEarlierKey | src/lib/transformersApi.ts:71-79 | A lower-cased message without `s`, `j` and `u` that contains `go` is detected as `go`. |
| TransformersApi.AlgorithmIsGo | src/lib/transformersApi.ts:79 | `algorithm` is detected as `go`. |
| TransformersApi.Prompt | src/lib/transformersApi.ts:98 | The prompt is `# `, the task and `\ndef `, whatever the language. |
| TransformersApi.PromptInjective | src/lib/transformersApi.ts:98 | Different tasks give different prompts. |
| TransformersApi.CleanOutput | src/lib/transformersApi.ts:116-118 | The clean-up returns the model's text unchanged. |
| TransformersApi.GenerationResult | src/lib/transformersApi.ts:89-132 | A failed load is rethrown, a null handle fails, and a failed model call is rethrown. Otherwise the reply has role assistant and carries the model's text for `Prompt(message)` as code. Its language is the detected one, and its content names that language. |
| AiApi.Merge | src/lib/aiApi.ts:26-29 | Every field the patch supplies replaces the old one. Every other field is kept. |
| AiApi.Truthy | src/lib/aiApi.ts:134-135 | An optional string is truthy iff it is neither `undefined` nor the empty string. |
| AiApi.MergeEmpty | src/lib/aiApi.ts:26-29 | An empty patch changes nothing. |
| AiApi.MergeIdempotent | src/lib/aiApi.ts:26-29 | Applying the same patch twice is applying it once. |
| AiApi.MergeSequence | src/lib/aiApi.ts:26-29 | Two updates in a row equal one update with the combined patch. |
| AiApi.MapBackendReply | src/lib/aiApi.ts:174-181 | The role is assistant. The id is `data.id`, or the fresh one when it is falsy. The content is `data.content`, or `data.message` when content is falsy. The code is passed through. The language is `data.language` when it is truthy, and `python` otherwise, even with no code. The timestamp is parsed from `data.timestamp`, or is the clock when it is falsy. |
| AiApi.BackendResponse | src/lib/aiApi.ts:151-182 | A missing or empty backend URL throws before any request. A failed request throws, and so does a non-ok status (with its text) or a body that is not JSON. Otherwise the result is the mapped reply. |
| AiApi.TestBackendConnection | src/lib/aiApi.ts:187-201 | True iff the health request got an ok response. A failed request gives false, not an error. |
| AiApi.Fallback | src/lib/aiApi.ts:94-104 | A success is kept. A failure of any provider other than `mock` becomes the mock matcher's reply for the same message. A failure under `mock` is rethrown. |
| AiApi.StatusFor | src/lib/aiApi.ts:117-146 | `mock` gives `{mock, 'ready', true}`. `backend` is ready iff the URL is truthy, with status `configured`, else `not_configured`. `transformers` reports the model's status, and is ready iff that status is `ready`. |
| AiApi.StatusNameInjective | src/lib/aiApi.ts:124-128 | Distinct model statuses have distinct names. |
| AiApi.ReadyBackendIsConfigured | src/lib/aiApi.ts:131-154 | If the status calls a backend ready, a request is never refused for want of a URL. |
| AiApi.UnconfiguredBackendFallsBack | src/lib/aiApi.ts:152-154 | Under `backend` with no usable URL, every message gets the mock matcher's reply. |
| AiApi.Coordinator.constructor | src/lib/aiApi.ts:19-21 | The configuration holds only the provider `mock`, and no model is loaded. |
| AiApi.Coordinator.SetAIConfig | src/lib/aiApi.ts:26-29 | The new configuration is the old one merged with the patch. The model's single-flight invariant is kept. |
| AiApi.Coordinator.GetCurrentProvider | src/lib/aiApi.ts:34-36 | The configured provider. |
| AiApi.Coordinator.GetAIStatus | src/lib/aiApi.ts:117-146 | The result is `StatusFor` of the configuration and the model's status. Under `transformers`, `ready` agrees with `isModelReady()`. |
| AiApi.Coordinator.InitializeAI | src/lib/aiApi.ts:41-60 | The configuration is unchanged. Under `transformers`, the model is preloaded, with one pipeline call iff it was not loaded. The health check runs iff the provider is `backend` and the URL is truthy. Nothing else changes. |
| AiApi.Coordinator.GenerateResponse | src/lib/aiApi.ts:65-105 | The message is routed on the provider, and every failure of a provider other than `mock` falls back to the mock reply. So the call always succeeds with a well-formed reply. Under `transformers` the model loads as in `initializeGenerator`: one pipeline call iff none was stored or in flight, and no load left in flight. |
| AiApi.Coordinator.SwitchProvider | src/lib/aiApi.ts:206-212 | Only the provider changes; the backend URL and API key are kept. Then the new provider is initialized: under `transformers`, with one pipeline call iff the model was not loaded. |
| PricingModal.Resolve | src/components/PricingModal.tsx:15-21 | A `stripe:` reference becomes the table entry for the text after the prefix, or `undefined` when there is none. `null` and every other link are kept. |
| PricingModal.CheckoutUrlsAreFinal | src/config/stripe.ts:13-17 | No checkout URL is itself a `stripe:` reference. |
| PricingModal.ResolveIdempotent | src/components/PricingModal.tsx:14-27 | Resolving twice is resolving once. |
| PricingModal.StripeProResolves | src/components/PricingModal.tsx:18-20 | `stripe:pro` resolves to the `pro` checkout URL. |
| PricingModal.UnknownStripeKeyIsMissing | src/components/PricingModal.tsx:19-20 | `stripe:enterprise` resolves to `undefined`. |
| PricingModal.ContactIsKept | src/components/PricingModal.tsx:15-18 | `contact` passes through unchanged. |
| PricingModal.ResolveTiers | src/components/PricingModal.tsx:14-27 | The count, the order and every field except `checkoutUrl` are kept. Each `checkoutUrl` is resolved. |
| PricingModal.VisibleTiers | src/components/PricingModal.tsx:11-27 | Nothing is produced iff the modal is closed. Otherwise the result is the resolved tiers. |
| PricingModal.MailtoHref | src/components/PricingModal.tsx:37-55 | The link starts with `mailto:hello@hacktoolkit.com?subject=`. After it, `&body=` starts exactly as many characters in as the encoded subject is long. That `&` and that `=` are the only ones after the prefix. Every other character is unreserved or a `%` that starts a two-digit upper-case hex escape (`BodyQuery`). That both parts decode back is `MailtoQuerySplits`. |
| PricingModal.ChoosePlan | src/components/PricingModal.tsx:29-60 | `null`, and only `null`, closes the modal. `contact`, and only that, navigates to the prefilled `mailto:` link and opens no tab. Anything else opens a new tab on that URL, which is `undefined` for an unresolved key. |
| PricingModal.FirstAmpersand | src/components/PricingModal.tsx:55 | In a text made of an `&`-free head, an `&`-free value and a rest that starts with `&`, the first `&` is the one after the value. |
| PricingModal.QuerySplits | src/components/PricingModal.tsx:55 | In `head + subject + "&body=" + body` with no `&` in `head` or `subject`, the first `&` ends the subject. What follows `&body=` is exactly `body`. |
| PricingModal.MailtoQuerySplits | src/components/PricingModal.tsx:37-55 | The first `&` of the link ends the encoded subject, and what follows `&body=` is the encoded body. Both decode back to the subject and body as written. |
| PricingModal.ButtonLabel | src/components/PricingModal.tsx:156-160 | The label is `Current Plan` iff the price is 0, and `Contact Sales` iff the price is `null`. Otherwise it is `Choose ` and the tier's name. |
| Uri.EncodeURIComponent | src/components/PricingModal.tsx:37-53 | The result is no shorter than the input. It holds only unreserved characters and `%`, and every `%` is followed by two upper-case hex digits. That it is the UTF-8 percent-encoding is `DecodeEncode`, which decodes it back. |
| Uri.EncodeUnreserved | src/components/PricingModal.tsx:37 | A string of unreserved characters is its own encoding. |
| Uri.EncodedHasNoDelimiter | src/components/PricingModal.tsx:55 | No `&`, `=`, `?` or `#` survives encoding. |
| Uri.DecodeEncode | src/components/PricingModal.tsx:37-55 | `decodeURIComponent(encodeURIComponent(s))` is `s` for every string. |

## Left out

- Strings.ReplaceFirst: the `$` patterns of `replace` (`$&`, `$1`, `$$` and the like) are not modelled, so the replacement must not contain `$`. The only replacement in the code is `''`.
- The random delay of `generateAIResponse`, and `Date.now()`/`Math.random()` in ids and timestamps: ids and clock readings are parameters.
- Logging with `console.log` and `console.error`.
- `fetch`, its headers (including the `Authorization` header built from `apiKey`), the request body and JSON parsing. A request's outcome is a `FetchResult`, and a body is a `BackendData` or unreadable. Fields of a non-string JSON type are not modelled.
- The `@xenova/transformers` pipeline, the model download, the progress callbacks and the sampling options. How a load settles is a parameter, and the model's text for a prompt is an injected function. The `result[0].generated_text` wrapping is folded into that function.
- The asynchronous interleaving of concurrent calls and the 100 ms polling timer. The steps `Begin`, `Settle` and `Poll` let a caller order them. `InitializeGenerator` runs one call to completion, with the load in flight settling while a waiting call polls.
- AiApi.Coordinator.SwitchProvider: the restore-and-rethrow branch (src/lib/aiApi.ts:213-218) is not modelled. `initializeAI` cannot reject, because `preloadModel` and `testBackendConnection` catch every error, so the branch is unreachable. That `InitializeAI` has no error result is what shows this.
- AiApi.Coordinator.InitializeAI: the health check's answer is discarded by the source. The model returns it as `healthCheck` only to make visible when the check runs.
- AiApi.MapBackendReply: when `data.content` is falsy and `data.message` is absent, the source's `content` is `undefined`. The model uses the empty string there.
- AiApi.ConfigPatch: a patch whose `provider` is explicitly `undefined` cannot be expressed. Spreading it would leave the configuration without a provider.
- AiApi.Fallback: the mock matcher never throws, so under `mock` the rethrow branch is never taken by `GenerateResponse`. `Fallback` still states it for any failed attempt.
- `getWelcome` (src/lib/aiApi.ts:110-112) returns `getWelcomeMessage()` unchanged. It is modelled by `MockApi.WelcomeMessage`.
- Strings.ToLower: only the characters whose lower case contains an ASCII letter are mapped: A-Z, U+0130 and U+212A. Every other character is kept as is. Against the ASCII keys of the tables this gives the same matches as the full Unicode mapping, but the lower-cased text itself can differ outside ASCII.
- PricingModal.Resolve: a key that the checkout table inherits from `Object.prototype` (`stripe:constructor`, `stripe:toString`, `stripe:__proto__` and the like) gives a function or object in the source, which `handleChoosePlan` then passes to `window.open`. The model treats the table as having only its three own keys, so such a key resolves to `undefined` (`Missing`).
- Uri.DecodeURIComponent: the decoder inverts the encoder. It does not reject overlong or malformed UTF-8 the way JavaScript's decoder does.
- The pricing tiers come from `src/config/pricing.json`, which is not part of this model. The tiers are a parameter. The JSX of the modal, the button colours and `onClose` are rendering.
- `src/pages/*.tsx`, the other components, `useTheme`, `CreditsModal`'s price arithmetic, `src/config/credits.ts` and `next.config.js` are not part of this model.
