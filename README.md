# MUNEZ.AI provider-fallback router, modelled in Dafny

MUNEZ.AI's backend relays a user's message, together with a "mode", to one of
three hosted language-model vendors: Groq, Hugging Face and Gemini. At start-up,
`AIProviderClient.__init__` registers each vendor whose API key is usable, in
the fixed order Groq, Hugging Face, Gemini. For each request, `generate` picks
a system instruction for the mode. It then tries the registered providers in
order and returns the first reply, tagged with that provider's name. When there
is no provider, or every provider raises, it fails with an HTTP 500 error.
`/health` lists the registered providers. The helper script `test_providers.py`
has a `test_api_keys` check that reports which keys are configured and shows
them masked.

The project has four modules:

- `Config` (config.dfy): `Option`, `Result`, and the environment as a map from
  variable name to value. An unset variable has no entry.
- `Text` (text.dfy): Python's substring test `sub in s` and `str.lower()`.
- `Router` (router.dfy): backend/main.py. This covers the system-instruction
  table, the prompt templates and the call each provider function makes. It
  also covers registration (the `AIProviderClient` class, whose constructor
  builds the `providers` field step by step), the `Generate` loop, the
  rate-limit predicate, the chat endpoint's error mapping and the health
  summary.
- `KeyCheck` (key_check.dfy): `test_api_keys` in test_providers.py. This covers
  the configured/missing partition, the placeholder filter, key masking, the
  summary and the boolean verdict.

The vendor SDKs are one abstract function, `Sdk`, from a `Call` to an outcome:
`Ok(text)` or `Err(message)`, where `message` is `str(e)` of the raised
exception. A `Call` records the vendor, the key its client was built with, the
model id and the request. Whether building a client succeeds is a second
abstract function, `Construct`, from a vendor and a key to a boolean.
`Generate` also returns the indices of the providers it invoked. This is what
states "first success wins" and "never invoked".

Each provider function makes exactly one SDK call with one key and one
model (backend/main.py:52-55, 82-112). There is no retry, no pause, and no
rotation over keys or models. The rate-limit test on a failure's message
(backend/main.py:140-146) only chooses which warning is logged, and the loop
moves on to the next provider either way. The model returns that choice as
the `warnings` output of `Generate`.

## Model

| member | source | states |
|---|---|---|
| `Router.SystemInstruction` | backend/main.py:119 | the instruction is always one of the table's four; a mode in the table gets its own entry, any other mode the chat instruction |
| `Router.ModeLookup` | backend/main.py:37-42 | a mode outside chat/summarize/code_explain/grammar gets the chat instruction; each known mode gets its own entry |
| `Router.ChatInstructionIff` | backend/main.py:119 | the chat instruction is used if and only if the mode is "chat" or not in the table (the four instructions are pairwise different) |
| `Router.HuggingFacePrompt` | backend/main.py:98 | the Hugging Face prompt starts with the instruction, then "\n\nUser: ", then the user prompt, and ends with "\nAssistant:"; length is the two lengths plus 19 |
| `Router.GeminiPrompt` | backend/main.py:110 | the Gemini prompt is "System Instruction: ", the instruction, "\n\nUser Message: ", then the user prompt; length is the two lengths plus 36 |
| `Router.PromptsKeepUserText` | backend/main.py:96-112 | with the same instruction, different user prompts give different Hugging Face and Gemini prompts |
| `Router.CallFor` | backend/main.py:82-112 | a provider's call goes out with that provider's key and model id; Groq gets the instruction as system message and the prompt as user message, Hugging Face and Gemini their composed text prompt |
| `Router.CallCarriesPromptAndInstruction` | backend/main.py:82-112 | every provider call uses that provider's key and model, and its request contains both the user prompt and the system instruction |
| `Router.AIProviderClient.constructor` | backend/main.py:47-80 | `providers` ends up equal to `Registered(env, construct)` and keeps registration order |
| `Router.KeyAdmitted` | backend/main.py:52-71 | an admitted key is set and non-empty; Groq and Hugging Face also reject their own placeholder; Gemini admits every set, non-empty key |
| `Router.Enabled` | backend/main.py:52-77 | a vendor is enabled if and only if its key variable is set, the key is admitted, and client construction with that key succeeds |
| `Router.RegisteredInOrder` | backend/main.py:47-78 | registration yields a subsequence of Groq, Hugging Face, Gemini, in that order, each at most once |
| `Router.RegisteredIff` | backend/main.py:52-77 | a vendor is registered if and only if its key passes that vendor's test and client construction succeeds; the registered key is the environment's value |
| `Router.GeminiSkipsPlaceholderTest` | backend/main.py:52-74 | Groq and Hugging Face reject their placeholders while Gemini admits both of them; for every environment with a non-empty Gemini key whose client builds, Gemini is registered last with that key |
| `Router.FirstOk` | backend/main.py:130-138 | the index found is a success and every earlier outcome is a failure; no index means every outcome failed |
| `Router.FirstOkIgnoresLater` | backend/main.py:130-138 | once some provider succeeds, providers appended after the list cannot change which one answers |
| `Router.AIProviderClient.Generate` | backend/main.py:114-155 | no providers: 500 "No API providers configured. ..." and no provider invoked. Otherwise providers are invoked in list order, each at most once, and a provider runs only if all earlier ones raised. The first success returns its text and name, and nothing after it is invoked. If all raise: 500 "All API providers failed. Last error: " + message of the last provider. One classification per failure, and the loop continues for both |
| `Router.IsRateLimit` | backend/main.py:140-143 | a message is a rate-limit error if and only if its lower-cased text contains "quota", "rate limit", "limit exceeded" or "429" |
| `Router.Classify` | backend/main.py:143-146 | a failure is classified as quota-exceeded exactly when the rate-limit test holds, and as another error otherwise |
| `Router.RateLimitInContext` | backend/main.py:140-143 | a message classified as a quota/rate-limit error stays one with any text around it and after lower-casing |
| `Router.RateLimitExamples` | backend/main.py:143 | "HTTP 429" is a rate-limit message (case folded, keyword "429"); the empty message is not |
| `Router.AsHttpError` | backend/main.py:165-171 | an HTTPException passes through unchanged; any other exception becomes status 500 with its text as detail |
| `Router.Chat` | backend/main.py:160-171 | the endpoint succeeds if and only if some provider succeeds, and then returns the first successful provider's text and name; a failure is status 500 with "No API providers configured. ..." for an empty list, else "All API providers failed. Last error: " plus the last provider's message |
| `Router.HealthCheck` | backend/main.py:183-190 | status "healthy", the provider names in list order, and `total_providers` equal to the list length |
| `Router.HealthNamesDistinct` | backend/main.py:186-190 | on a client in registration order, health lists at most three providers and no name twice |
| `Router.HealthAfterStartup` | backend/main.py:186-190 | right after start-up, a vendor's name is in the health list if and only if that vendor was enabled at registration |
| `Text.ContainsIff` | backend/main.py:143 | the substring scan succeeds if and only if the keyword occurs at some index of the text |
| `Config.Getenv` | backend/main.py:52 | a variable's value is returned exactly when it is set, and None otherwise |
| `KeyCheck.IsConfigured` | test_providers.py:29 | a key counts as configured if and only if it is set, non-empty, and none of the three placeholder strings |
| `KeyCheck.KeyTable` | test_providers.py:19-23 | the script checks Groq, Hugging Face and Gemini, in that order, each with its own variable's value |
| `KeyCheck.Mask` | test_providers.py:32 | a masked key has length 15 or 3; a key longer than 12 shows only its first 8 and last 4 characters around "..."; a shorter one shows "***" |
| `KeyCheck.TestApiKeys` | test_providers.py:15-50 | the configured, missing and masked lists are the table's entries filtered in order; the verdict is False exactly when nothing is configured; the tip count is 3 minus the number configured, listing the missing names |
| `KeyCheck.Partition` | test_providers.py:25-36 | a name is configured if and only if its entry passes the filter, and missing if and only if it does not; the two list lengths add up to the table size; one masked key per configured name |
| `KeyCheck.ListsKeepOrder` | test_providers.py:28-36 | both the configured and the missing list are subsequences of the table's names, in table order |
| `KeyCheck.KeyTablePartition` | test_providers.py:38-46 | each of the three names is in exactly one list, and the tip count `3 - len(configured)` equals the number of missing names |
| `KeyCheck.PassedIff` | test_providers.py:28-43 | nothing is configured (verdict False) if and only if none of the three keys is set, non-empty and free of the three placeholders |
| `KeyCheck.ConfiguredPassesRouterKeyTest` | test_providers.py:29 | a key the script calls configured always passes the router's key test for that vendor |
| `KeyCheck.GeminiPlaceholderDisagrees` | test_providers.py:29 | with a Gemini key equal to a script placeholder, the router admits Gemini while the script reports all three missing |

## Left out

- The vendor SDK calls (`chat.completions.create`, `text_generation`, `generate_content`) and client construction are abstract functions. Their results are inputs to the model.
- `temperature` and `max_tokens` / `max_new_tokens` are tuning parameters with no behaviour in this code. They are not modelled.
- Logging is not modelled. The one thing a log line depends on, the rate-limit classification of each failure, is returned as `Generate`'s `warnings`.
- `load_dotenv` and the `os.getenv` reads are replaced by the environment map given to the constructor and to `TestApiKeys`.
- The FastAPI app, CORS middleware, static-file mount and `read_root` are HTTP plumbing. So is the request body's default `mode = "chat"`: `Chat` takes the mode as given.
- `chat` is `async`, but it awaits nothing. It is modelled as a synchronous method.
- Text.Lower: lower-cases ASCII letters only, whereas Python's `str.lower()` covers all of Unicode. The four keywords are ASCII, so only messages with non-ASCII letters could be classified differently.
- `str(last_error)` when `last_error` is still `None` gives "None" in the model too. This path cannot be reached, because `generate` returns early on an empty list.
- A Groq reply whose message content is `None` is not distinguished. A successful SDK call is modelled as returning text.
- `test_individual_providers`, `test_backend_health`, the `__main__` driver and the Windows console re-encoding make live network calls or print to the console. None of them are modelled. The console lines `test_api_keys` prints are replaced by the report it returns.
