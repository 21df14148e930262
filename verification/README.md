# openai-bot, modelled in Dafny

The bot is one HTTP endpoint that receives Slack slash commands. The command
text selects one of three actions: generate an image ("dalle"), complete text
("gpt") or complete code ("code"). The chosen handler calls the OpenAI API. An
image is stored in a Google Cloud Storage bucket and made public. The result
is posted back to the command's response URL. Configuration comes from flags,
and environment variables override them.

This project models all of the program's non-I/O logic, which lives in
`main.go`:

- `strings.dfy` (module `Strings`): Go's `strings.HasPrefix`, `TrimPrefix`
  and `TrimSpace`. A string is a sequence of Unicode scalar values. The space
  set is `unicode.IsSpace`. `TrimSpace` is proved equal to the unique slice that
  has only spaces outside it and no space at its edges. A loop version
  (`TrimSpaceBounds`) computes the same bounds over characters by scanning in
  from both ends.
- `dispatch.dfy` (module `Commands`): `handleSlackCommand`'s decision.
  Matching is a case-sensitive prefix test with no word boundary, tried in the
  order "dalle", "gpt", "code". The prompt is the trimmed remainder. The
  synchronous reply body is `Unknown command: '<text>'` or empty. The module
  proves that the keywords exclude each other, so the order they are tried in
  never matters.
- `format.dfy` (module `Format`): the object name `dalle_<id>.png`, the public
  URL `https://storage.googleapis.com/<bucket>/<object>` and the completion text
  `>prompt\ncompletion`. Each has a parser and a round-trip lemma.
- `config.dfy` (module `Config`): `strconv.ParseBool`, and how a present
  environment variable overrides its flag. The error from `ParseBool` is
  dropped, so a value it rejects reads as false. An unset or empty `PORT`
  becomes 8080.
- `handlers.dfy` (module `Handlers`): `generateImage`, `completeText`,
  `completeCode` and `handleSlackCommand` as traces of outside effects:
  service requests, storage write, ACL update and webhook post. A `World` value
  supplies what the outside world answers: the fresh object id, the image
  payload, whether each storage call succeeds, and the first completion choice.
- `results.dfy` (module `Results`): `Option` and `Outcome`.

## Model

| member | source | states |
|---|---|---|
| Strings.IsSpace | main.go:136-142 | the space set TrimSpace strips: U+0009–U+000D, U+0020, U+0085, U+00A0 and the White_Space characters above Latin-1 (U+1680, U+2000–U+200A, U+2028, U+2029, U+202F, U+205F, U+3000), exactly `unicode.IsSpace`; below U+0100 it is exactly the eight characters of Go's own Latin-1 switch |
| Strings.IsSpaceIsWhiteSpace | main.go:136-142 | a character is a space exactly when it lies in one of the ranges of Go's `unicode.White_Space` table, written out as data |
| Strings.HasPrefix | main.go:135-141 | `strings.HasPrefix`: the text is at least as long as the keyword and agrees with it character by character at every position of the keyword |
| Strings.TrimPrefix | main.go:136 | with the prefix present, prefix + result is the input; otherwise the input comes back unchanged |
| Strings.TrimSpace | main.go:136 | the trimmed prompt is no longer than the input and has no space at either edge |
| Strings.TrimSpaceCharacterised | main.go:136 | TrimSpace equals any slice s[i..j] that has only spaces outside it and no space at its edges, so the prompt is a contiguous slice of the input |
| Strings.TrimSpaceIdempotent | main.go:136 | trimming the prompt again leaves it unchanged |
| Strings.TrimSpaceBounds | main.go:136 | the scan from both ends finds start/stop with only spaces outside and none at the edges, and s[start..stop] is TrimSpace(s) |
| Commands.Dispatch | main.go:135-144 | a text is Unknown (carrying the text) exactly when no keyword is a prefix; otherwise the action's keyword is a prefix and its prompt is the trimmed rest after that keyword |
| Commands.PromptAfter | main.go:136-142 | the extracted prompt has no edge space and is shorter than the text by at least the keyword |
| Commands.Keyword | main.go:135-141 | each handler's keyword is one of the literals "dalle", "gpt" and "code" tested by the three branches |
| Commands.KeywordsAreTheLiterals | main.go:135-141 | the three handlers' keywords are exactly "dalle", "gpt" and "code", a different one for each handler |
| Commands.KeywordsExclusive | main.go:135-143 | no two keywords are prefixes of the same text, so at most one branch can match |
| Commands.DispatchSelects | main.go:135-143 | a text goes to handler h exactly when it starts with h's keyword, and then the prompt is the trimmed remainder |
| Commands.DispatchInOrder | main.go:135-144 | first-match dispatch over any keyword order is Unknown exactly when no keyword in the order matches |
| Commands.DispatchIsSourceOrder | main.go:135-144 | the source's chain is first-match dispatch in the order dalle, gpt, code |
| Commands.OrderIrrelevant | main.go:135-143 | any order of the keywords that includes every matching one dispatches exactly as the source does |
| Commands.ReplyBody | main.go:144-149 | the HTTP body is non-empty exactly for an unknown text with replies enabled, and then it is the unknown-command reply |
| Commands.UnknownCommandReply | main.go:148 | the reply is "Unknown command: '", the text verbatim, and a closing quote |
| Commands.UnknownCommandText | main.go:148 | a reply parsed back yields a text whose reply is exactly that string |
| Commands.UnknownCommandRoundTrip | main.go:148 | parsing the reply of any text gives that text back |
| Commands.DispatchImageExample | main.go:135-137 | "dalle a red fox" dispatches to the image action with prompt "a red fox" |
| Commands.DispatchTextExample | main.go:138-140 | "gpt explain recursion" dispatches to the text action with prompt "explain recursion" |
| Commands.DispatchNoBoundaryExample | main.go:135-136 | "dallex y" dispatches to the image action with prompt "x y", since there is no word boundary |
| Commands.DispatchCaseExample | main.go:135-144 | "DALLE y" is unknown, since matching is case-sensitive |
| Commands.DispatchEmptyExample | main.go:131-144 | the empty text is unknown |
| Commands.ReplyBodyExample | main.go:144-149 | "unknown foo" gets the body "Unknown command: 'unknown foo'" with replies on and an empty body with them off |
| Format.ObjectName | main.go:50 | the object name starts with "dalle_", ends with ".png" and holds exactly the id in between |
| Format.ObjectId | main.go:50 | a name has an id exactly when it has the dalle_/.png shape, and the id rebuilds the name |
| Format.ObjectNameRoundTrip | main.go:50 | reading the id back from an object name gives the id it was built from |
| Format.ObjectNameInjective | main.go:50-52 | distinct ids give distinct object names, so a fresh id names no existing object |
| Format.PublicUrl | main.go:71 | the URL is the storage host, the bucket, '/', then the object name, each at its position |
| Format.UrlLocation | main.go:71 | a parsed URL yields a slash-free bucket and an object that rebuild the URL exactly |
| Format.PublicUrlRoundTrip | main.go:71 | for a bucket name without '/', the URL names the bucket and object it was built from |
| Format.ImageUrlShape | main.go:50-71 | the image URL is https://storage.googleapis.com/<bucket>/dalle_<id>.png |
| Format.CompletionText | main.go:94 | the text is '>', the prompt, a newline, then the completion |
| Format.CompletionParts | main.go:94 | a parsed text yields a one-line prompt and a completion that rebuild the text |
| Format.CompletionRoundTrip | main.go:94 | a one-line prompt and its completion are read back from the text |
| Config.ParseBool | main.go:166 | the value is accepted exactly for the twelve spellings; true exactly for 1/t/T/true/TRUE/True, false exactly for 0/f/F/false/FALSE/False |
| Config.ParseBoolOrFalse | main.go:166 | with the error dropped, the value is true exactly for a true spelling |
| Config.StringSetting | main.go:162-164 | a present variable, even an empty one, replaces the flag; an absent one leaves the flag |
| Config.BoolSetting | main.go:165-167 | a present variable gives true exactly for a true spelling; an absent one leaves the flag |
| Config.Port | main.go:193-196 | the port is never empty; it is PORT when that is set and non-empty, and 8080 otherwise |
| Config.ListenAddress | main.go:199 | the listen address is ':' followed by the resolved port |
| Config.Resolve | main.go:154-176 | each of the five settings is its variable's value (parsed for booleans) when present and its flag otherwise; the port is resolved as in serve |
| Config.ResolveWithoutEnv | main.go:154-196 | with an empty environment the flags are used as given and the port is 8080; with the flag defaults as well, the tokens and bucket are empty and both switches are off |
| Config.EnvOverridesAllFlags | main.go:161-176 | when all five variables are set, the flags do not affect the settings |
| Config.OnlyPresentVariablesOverride | main.go:161-176 | a setting differs from its flag only if its variable is present |
| Config.UnparsableBoolIsFalse | main.go:165-176 | an unparsable SEND_TO_SLACK or BOT_DEBUG turns the setting off whatever its flag says |
| Config.EmptyValueExamples | main.go:162-196 | an empty SLACK_TOKEN overrides to the empty token, an empty PORT gives 8080, and an empty or "yes" SEND_TO_SLACK gives false while "T" gives true |
| Handlers.ImageMessage | main.go:74-77 | the image reply is one in-channel image block with the URL, the prompt as alt text and title, and block id "image1" |
| Handlers.CompletionMessage | main.go:94-97 | the completion reply is one in-channel markdown section holding the completion text |
| Handlers.GenerateImage | main.go:31-84 | the handler requests one 256x256 image; on failure it stops; otherwise it uploads the payload as dalle_<id>.png to the bucket, makes that object public, and posts its public URL only when replies are enabled |
| Handlers.Complete | main.go:86-124 | the handler requests a completion from its model with 256 tokens; it posts the quoted prompt and the completion only on success with replies enabled |
| Handlers.HandleSlackCommand | main.go:126-151 | the HTTP body is the dispatcher's reply body, and a background trace exists exactly for a matched command |
| Handlers.ImagePosts | main.go:73-83 | an image command posts once if the image arrives and replies are on, and never otherwise |
| Handlers.CompletionPosts | main.go:93-103 | a completion command posts once if the completion arrives and replies are on, and never otherwise |
| Handlers.AtMostOnePost | main.go:126-151 | each command produces at most one notification, and none when replies are disabled |
| Handlers.ImageTraceOrder | main.go:50-79 | the ACL update comes right after the upload of the same bucket and object, and a posted image URL is the public URL of an object uploaded earlier |
| Handlers.ImagePostNamesUpload | main.go:50-75 | for a bucket name without '/', the posted image URL parses back to exactly the bucket and object uploaded, and that object name parses back to the drawn id |
| Handlers.ImageFailureStops | main.go:32-38 | after a failed image request nothing but the request happens: no write and no post |
| Handlers.StorageFailuresDoNotStop | main.go:55-69 | a failed write or ACL update changes no later step: the same steps are attempted and the same message is posted |
| Handlers.MatchedCommandRequestsPrompt | main.go:134-143 | a text starting with a keyword gets an empty body, and its effects are exactly that handler's trace for the extracted prompt, the command's response URL, the configured bucket or the handler's model, and the configured reply switch |
| Handlers.CompletionPostReadsBack | main.go:94-103 | the posted completion of a one-line prompt reads back as that prompt and the completion |
| Handlers.RedFoxScenario | main.go:135-137 | "dalle a red fox" starts the image handler on "a red fox" with the configured bucket and an empty body |
| Handlers.ExplainRecursionScenario | main.go:138-140 | "gpt explain recursion" starts the text-completion handler on "explain recursion" |
| Handlers.UnknownFooScenario | main.go:144-149 | "unknown foo" with replies on starts nothing and returns "Unknown command: 'unknown foo'" |

## Left out

- The HTTP server, route registration and `slack.SlashCommandParse` are network I/O and a foreign library. The command text and response URL are the model's input. When parsing fails, the source logs the error and goes on with an empty command, which the model dispatches as Unknown (`Commands.DispatchEmptyExample`).
- The OpenAI client is a foreign call. Its image reply is `Outcome<string>` (the base64 payload). Its completion reply is `Outcome<string>` (the first choice's text). The random temperature (`rand.Float32`) is not modelled. The model names `MODEL_GPT_DAVINCI` and `MODEL_CODEX_DAVINCI` are the enumeration `Model`.
- Base64 decoding of the image payload is left out. The upload effect carries the payload the service returned.
- `uuid.NewString()` is randomness. The id is an opaque input (`World.id`). `Format.ObjectNameInjective` shows that distinct ids give distinct names.
- The storage client, the `DoesNotExist` write precondition and the 50-second deadline are storage I/O. A storage call is reduced to its success flag. A failed `storage.NewClient` (main.go:42-46) is not modelled, because what happens next depends on the storage library.
- Handlers.GenerateImage: a failed image request ends the model's trace after the request, with no write and no post. The source does not stop there. It logs the error and then reads `img.Data[0]` at main.go:38. Unless the library returns data together with the error, that read panics in main.go itself, as a nil dereference or an index out of range. The panic happens in the goroutine started at main.go:137, which has no `recover`, so it ends the whole bot process and every command in flight. The model does not represent the process exit.
- Handlers.Complete: the first choice is taken as given. An empty `Choices` list, which would make `res.Choices[0]` fail, is not modelled.
- The `go` statements are concurrency. A dispatched handler is modelled as the trace of the background task it starts, next to the HTTP body.
- Logging, zerolog level selection from `debug`, `slack.New`, `openai.New` and the actual `slack.PostWebhook` call are side effects only. A post is an effect in the trace, and its delivery is not modelled.
- Command-line parsing (`flag.Parse`) is left out. `Config.Flags` is its result, and `Config.DefaultFlags` holds the flag defaults.
- Strings are sequences of Unicode scalar values, while Go strings are UTF-8 bytes. The keywords are ASCII, so a byte prefix test and a character prefix test agree. `TrimSpace` decodes runes and tests `unicode.IsSpace`, and `Strings.IsSpace` is exactly that set.
- The process environment is a map, so a variable can appear only once.
