# NQRust Identity installer — a Dafny model of its core

The installer is a terminal wizard. It prepares a deployment of the NQRust
analytics stack in five steps:

- It offers a menu ("Generate .env", "Generate config.yaml", "Proceed with
  Installation", "Cancel") whose entries depend on which of the two files exist.
- It collects the provider's API keys in a form.
- It writes `.env` from a template by rewriting the template line by line.
- It renders `config.yaml` from one of fourteen provider templates.
- It runs `docker compose build` and `docker compose up`, turning the
  compose output into a progress bar and a log window of 100 lines.

A separate update view compares the tracked container images with the GitHub
Container Registry and the installer with its latest GitHub release.

The model is a set of pure functions over immutable datatypes:

| module | file | models |
|---|---|---|
| `Util` | util.dfy | options and results, trimming, `contains`, `lines`, `join`, ASCII lower-casing, string order, sorting |
| `SemVer` | semver.dfy | parsing a tag into a Semantic Versioning 2.0.0 version and the precedence order of section 11 of that standard |
| `Updates` | updates.dfy | `UpdateInfo`, the tolerance rule, status notes, folding the registry's version list, the latest release tag, the two package endpoints, the installer release, `docker image inspect`, the collection loop, the status text |
| `Forms` | forms.dfy | `FormData`: providers, field count, key names, validation |
| `Registry` | registry.dfy | `RegistryForm`: the token form and its validation |
| `Templates` | templates.dfy | the template table, pipeline bindings and overrides, settings, and the three-step `render` |
| `State` | state.dfy | the menu entries the confirmation screen displays |
| `Install` | install.dfy | the log window, log-line classification, progress, and the two compose runs |
| `EnvFile` | env_file.dfy | `generate_env_file`: default filling and the line rewrite |
| `Wizard` | wizard.dfy | the application state machine: the menu, the form, the template list, and one event step |

Everything the program gets from outside is a parameter:

- HTTP replies come from a function from URL to reply.
- The release reply, the `docker image inspect` result, RFC 3339 parsing,
  the `.env` template text, the UUID fragment, file-write failures and the
  output of the compose processes are given as values.

Timestamps are integers counting nanoseconds. Progress is a real number.

`src/app/mod.rs` has no registry-setup or update-list screen, so
`Wizard.Step` has none. The update logic is modelled on its own, in
`Updates`.

Template texts get their meaning from `Templates.Expand`. A text is read as a
sequence of pieces: plain text without `{`, and `{{NAME}}` placeholders. Its
meaning replaces each placeholder by its first binding and leaves a
placeholder without a binding as it is. The lemmas connect the chains of
`str::replace` calls in the code to this meaning.

## Model

| member | source | states |
|---|---|---|
| Wizard.NewApp | src/app/mod.rs:39-68 | the app starts running on the menu, with nothing logged or counted, the template list at its first entry and a displayed option other than Cancel selected |
| Wizard.InitialMenu | src/app/mod.rs:46-52 | the first selection is a displayed option other than Cancel: "Generate config.yaml" when the config is missing, else "Generate .env" when only the env file is missing |
| Wizard.MenuUpAsWritten | src/app/mod.rs:201-227 | as written, Up lands on a displayed option exactly unless it starts from "Generate .env" while config.yaml exists |
| Wizard.MenuUp | src/app/mod.rs:201-227 | the corrected Up always lands on a displayed option and is the inverse of Down on displayed options: Down undoes it, and it picks the only displayed option that Down takes to the current one. It agrees with the code except in the two cases of findings 1 and 2 |
| Wizard.MenuDown | src/app/mod.rs:228-256 | Down/Tab always lands on a displayed option |
| Wizard.MenuDownVisitsAll | src/app/mod.rs:228-256 | from any displayed option, every displayed option is reached within three Down presses |
| Wizard.ConfirmationKey | src/app/mod.rs:196-274 | only Enter confirms the current selection; Esc, q and Ctrl+C choose Cancel; only Up, Down and Tab move the selection |
| Wizard.RunAction | src/app/mod.rs:77-139 | the app stops only on Cancel; Success or Error happens only for Proceed with both files present; Success means progress 100; Generate .env opens the form and Generate config.yaml opens the list at index 0 |
| Wizard.ConfirmationStep | src/app/mod.rs:196-274 | the menu screen never writes a file; Esc, q and Ctrl+C stop the app; the state changes only on Enter |
| Wizard.FormKey | src/app/mod.rs:276-331 | the form keeps its provider and a valid field index; Ctrl+S submits exactly when validation passes; Esc, q and Ctrl+C leave the form; editing changes only the current field |
| Wizard.TypeThenBackspace | src/app/mod.rs:280-292 | while editing, typing a character and then Backspace restores the form |
| Wizard.Reselect | src/app/mod.rs:157-159 | returning from the form always selects a displayed option, and keeps the selection when it is displayed (the corrected half of finding 3) |
| Wizard.EnvSetupStep | src/app/mod.rs:142-161 | .env is marked present exactly when it is written; it is written only after validation passes, with the content of `generate_env_file`; a write failure is the only way to reach Error |
| Wizard.ClampIndex | src/app/mod.rs:341-343 | the template index is always inside the table, and an index already inside it is kept |
| Wizard.IndexUpDownInverse | src/app/mod.rs:349-358 | Up and Down on the template list wrap around and undo each other |
| Wizard.FormFor | src/app/mod.rs:365-372 | choosing a template resets the form to a fresh one for that provider |
| Wizard.ConfigSelectionStep | src/app/mod.rs:333-403 | config.yaml is written only on Enter, with the chosen template rendered; a write failure is the only way to reach Error; after a write the form is fresh, and the next state is EnvSetup when .env is missing, else the menu on Proceed |
| Wizard.Step | src/app/mod.rs:70-194 | files only ever become present, and only by writing them; Success is reached with progress 100; Ctrl+C stops the app outside the form; no event changes nothing outside the template list |
| Wizard.NewAppWellFormed | src/app/mod.rs:39-68 | the initial app is well formed: the selection is displayed and the form's field index is valid |
| Wizard.RunActionWellFormed | src/app/mod.rs:77-139 | running a menu action keeps the app well formed |
| Wizard.ConfirmationStepWellFormed | src/app/mod.rs:196-274 | with the corrected Up, every menu key keeps the selection on a displayed option |
| Wizard.EnvSetupStepWellFormed | src/app/mod.rs:142-161 | with the corrected return, the form screen keeps the app well formed |
| Wizard.ConfigSelectionStepWellFormed | src/app/mod.rs:333-403 | the template list keeps the app well formed |
| Wizard.StepWellFormed | src/app/mod.rs:70-194 | with both corrections, every event keeps the selection on a displayed option |
| Wizard.UpFromGenerateEnvAsWritten | src/app/mod.rs:212-215 | as written, Up from "Generate .env" with config.yaml present selects the hidden "Generate config.yaml" |
| Wizard.UpFromCancelAsWritten | src/app/mod.rs:217-224 | as written, with neither file present, Up alternates between "Generate config.yaml" and "Cancel" and never reaches "Generate .env"; the corrected Up reaches it from "Cancel" |
| Wizard.LeaveFormAfterConfigAsWritten | src/app/mod.rs:374-375 | as written, leaving the form right after writing config.yaml returns to a menu whose selection is hidden |
| State.FirstShown | src/ui/confirmation.rs:126-173 | the first option in display order, which is never Cancel |
| Forms.EmbeddingProvidersExactly | src/app/form_data.rs:53-60 | exactly deepseek, anthropic, groq, grok, zhipu and qwen3 need an OpenAI embedding key |
| Forms.TotalFields | src/app/form_data.rs:61-68 | the form has two fields exactly for the embedding providers, else one |
| Forms.ApiKeyName | src/app/form_data.rs:69-88 | every known provider has its own display name; only unknown providers get "API" |
| Forms.EnvKeyName | src/app/form_data.rs:89-108 | only ollama has no variable; open_router and qwen3 share OPENROUTER_API_KEY; only openai uses OPENAI_API_KEY; unknown providers get API_KEY |
| Forms.BedrockUsesGenericKey | src/app/form_data.rs:69-106 | bedrock has a display name but no variable of its own, so its key is written as API_KEY |
| Forms.WithCurrentValue | src/app/form_data.rs:45-52 | field 1 is the OpenAI key and every other index is the provider key |
| Forms.CurrentValueRoundTrip | src/app/form_data.rs:45-52 | writing the current field and reading it back agree, and writing back what was read changes nothing |
| Forms.Validate | src/app/form_data.rs:23-44 | validation changes only the error message; it passes exactly when the message is empty; a missing provider key and a missing embedding key each get their message |
| Forms.LocalProvidersAlwaysValid | src/app/form_data.rs:24-28 | lm_studio and ollama pass validation whatever the keys |
| Registry.NewRegistryForm | src/app/registry_form.rs:10-18 | a new form has an empty token, field 0, not editing, no error |
| Registry.OneInputField | src/app/registry_form.rs:19-26 | of the two items, only item 0 is an input field |
| Registry.WithCurrentValue | src/app/registry_form.rs:27-30 | the current value is the token and nothing else changes |
| Registry.Validate | src/app/registry_form.rs:31-41 | the token form passes exactly when the token is not blank, with the "required" message otherwise |
| Registry.ValidateIdempotent | src/app/registry_form.rs:31-41 | validating twice is the same as validating once |
| EnvFile.EnvKeyNamesValid | src/app/form_data.rs:89-106 | every provider variable other than OPENAI_API_KEY is a non-empty name that does not start with whitespace and cannot be mistaken for an `OPENAI_API_KEY=` line |
| EnvFile.ProviderLineNotOpenai | src/app/mod.rs:461-471 | the provider's key line never looks like an OpenAI key line |
| EnvFile.EntryKept | src/app/mod.rs:453-485 | a template line is copied exactly when it is neither an OpenAI placeholder, a provider key line nor an OpenAI key line |
| EnvFile.KeptNotInserted | src/app/mod.rs:461-485 | a copied template line can never be mistaken for a line the rewrite inserts |
| EnvFile.AddedKept | src/app/mod.rs:449-485 | a vendor-keys comment or plain line produces itself followed only by inserted key lines; every other entry produces only inserted key lines |
| EnvFile.AddedFlags | src/app/mod.rs:461-484 | a line that sets a "key added" flag emits that key's line |
| EnvFile.AddedOthers | src/app/mod.rs:449-485 | apart from inserted key lines, one template line's output is that line when it is copied, else nothing |
| EnvFile.AddedNoOpenai | src/app/mod.rs:465-471 | when no OpenAI key is needed, no line starting with `OPENAI_API_KEY=` is emitted |
| EnvFile.RewriteAllOthers | src/app/mod.rs:449-486 | the rewrite loop keeps every copied template line, in order, and adds only key lines |
| EnvFile.RewriteAllWritten | src/app/mod.rs:444-486 | the loop's two flags are true exactly when the matching key line was emitted; with no OpenAI key needed, none is emitted |
| EnvFile.RewriteLinesOthers | src/app/mod.rs:441-498 | the rewritten file holds the template's copied lines in their order, plus key lines only |
| EnvFile.MissingKeys | src/app/mod.rs:488-496 | keys not yet added are appended at the end: the provider key unless added, the OpenAI key only when needed and not added |
| EnvFile.RewriteLinesKeys | src/app/mod.rs:441-498 | the rewritten file sets the provider's variable, and has an `OPENAI_API_KEY=` line exactly when one is needed |
| EnvFile.RewriteLinesCorrect | src/app/mod.rs:441-498 | the rewrite sets the provider key, sets the OpenAI key exactly when needed, and otherwise keeps the template's lines in order |
| EnvFile.FillDefaultsExpands | src/app/mod.rs:415-424 | filling the defaults gives the template's meaning under the five default bindings: each default placeholder gets its value, and every other placeholder stays |
| EnvFile.GenerateEnvContentSubstitutes | src/app/mod.rs:426-439 | for ollama and for openai, the file is the template's meaning under the default bindings plus the OpenAI placeholder bound to nothing, or to the trimmed key |
| EnvFile.GenerateEnvContentSetsKeys | src/app/mod.rs:405-504 | for every provider with its own variable, the generated .env holds `NAME=<trimmed key>` and holds an OpenAI key line exactly when the provider embeds with OpenAI and that key is not blank |
| Templates.PlaceholdersDistinct | src/templates.rs:21-31 | the six pipeline placeholders are pairwise different |
| Templates.TemplateTableSize | src/templates.rs:218-233 | the template table has fourteen entries |
| Templates.TemplateKeysInOrder | src/templates.rs:218-233 | the fourteen provider keys, in menu order |
| Templates.TemplateTableWellFormed | src/templates.rs:218-233 | template keys are unique, and each is a provider the form knows by name |
| Templates.FindOverride | src/templates.rs:251-255 | an override is found exactly when one is listed for the placeholder, and the value found is one listed for it |
| Templates.Bindings | src/templates.rs:247-260 | each default placeholder keeps its place and is bound to the first override listed for it, else to its default |
| Templates.OverrideKeysAreDefaults | src/templates.rs:34-82 | every override table names only default placeholders |
| Templates.NoOverridesBindDefaults | src/templates.rs:21-33 | without overrides every placeholder gets `litellm_llm.default` |
| Templates.DeepseekBindings | src/templates.rs:34-48 | DeepSeek answers with deepseek-chat, reasons with deepseek-reasoner, and keeps the default model for charts |
| Templates.BoolLiteral | src/templates.rs:272-275 | the literal is "true" exactly for true, else "false" |
| Templates.ApplyBindingsExpands | src/templates.rs:247-260 | replacing placeholders one binding after another gives the text's meaning under those bindings, for placeholder-shaped keys and brace-free values |
| Templates.RenderPipelineExpands | src/templates.rs:247-260 | the rendered pipeline section is its template with every placeholder bound to the first override for it, else to its default |
| Templates.RenderSettingsFillsPlaceholders | src/templates.rs:262-270 | the rendered settings section is its template with every settings placeholder, wherever and however often it occurs, bound to the template's value for it |
| Templates.RenderIsApply | src/templates.rs:235-243 | rendering splices engine, pipeline and settings in that order |
| Templates.RenderExpands | src/templates.rs:235-243 | the rendered file is the provider text with the engine section, the rendered pipeline and the rendered settings in place of their placeholders |
| Templates.BoolLiteralsPlain | src/templates.rs:262-275 | a boolean literal cannot reintroduce a later placeholder |
| Templates.RenderWithoutPlaceholders | src/templates.rs:235-243 | a provider text without section placeholders renders to itself |
| Templates.EngineSectionExpandedBeforeSettings | src/templates.rs:235-243 | the engine section is substituted first, so a settings placeholder inside it is still expanded |
| Install.AddLog | src/app/mod.rs:669-675 | the newest message is always last, and the log never grows past 100 lines |
| Install.WindowOfWindow | src/app/mod.rs:669-675 | trimming to the newest 100 lines early or late gives the same log |
| Install.AddLogsKeepsNewest | src/app/mod.rs:669-675 | adding many messages keeps exactly the newest 100 lines of the whole history |
| Install.FirstContained | src/app/mod.rs:661-666 | finds a candidate contained in the text exactly when one exists, and returns a contained candidate |
| Install.ExtractServiceName | src/app/mod.rs:653-667 | a service is named exactly when the lower-cased line mentions one of the four known services |
| Install.KindOf | src/app/mod.rs:614-651 | a line's kind is the first keyword, in the code's order, that the lower-cased line contains |
| Install.Classify | src/app/mod.rs:614-651 | the kind of a raw line: the first matching keyword, else Info for non-blank lines and Blank for blank ones |
| Install.LineMessage | src/app/mod.rs:616-650 | a log message is produced unless the line is blank or names no service where one is needed; failures and info lines quote the line |
| Install.Record | src/app/mod.rs:616-650 | one classified line logs at most one entry, the message for its kind; only "started" moves the counter and progress; only a named service changes the current one; a line that logs nothing changes nothing |
| Install.ProcessLogLine | src/app/mod.rs:614-651 | only a line whose lower-cased text first matches "started" counts a service and moves progress; the current service changes only to a known service the line names, on a pull, create or start line |
| Install.ProgressIsNotClamped | src/app/mod.rs:637-639 | the fourth started service gives progress 100, and a fifth goes beyond 100 |
| Install.ProcessLines | src/app/mod.rs:529-552 | the services counted equal the started lines; progress is unchanged without a started line, else the share of all services counted so far; the log stays within 100 lines |
| Install.Drain | src/app/mod.rs:529-552 | a read error is logged last and ends the loop; the count and progress follow the lines read, as for `ProcessLines` |
| Install.RunProcess | src/app/mod.rs:517-558 | one compose run succeeds exactly when it spawned and exited successfully, with the code's error for each failure; its progress follows its started lines |
| Install.RunDockerCompose | src/app/mod.rs:513-612 | compose succeeds exactly when both runs succeed, ending at progress 100 with the success message; a failed build stops before `up` with the build's progress; a failed `up` leaves progress at 50 without started lines, else at the share of all services counted over both runs |
| Updates.RecomputeStatus | src/app/updates.rs:70-84 | only `has_update` changes: no remote stamp means no update, no local stamp means an update, else an update exactly when remote is more than five seconds newer |
| Updates.ApplyLocalCreated | src/app/updates.rs:86-89 | the local stamp is recorded and `has_update` agrees with the stamps afterwards |
| Updates.ToleranceBoundary | src/app/updates.rs:74-75 | exactly five seconds is up to date, one nanosecond more is an update |
| Updates.NewerLocalNeverAddsUpdate | src/app/updates.rs:70-89 | a newer local image can only remove an update, and knowing no local image can only add one |
| Updates.AppendStatus | src/app/updates.rs:382-392 | the note is the message when there was none, else the old note, "; " and the message |
| Updates.AppendAllJoins | src/app/updates.rs:382-392 | appending several messages gives all of them joined by "; " in order |
| Updates.ClearLocalError | src/app/updates.rs:99-105 | the note is dropped exactly when it mentions a failed local inspection; nothing else changes |
| Updates.ClearAfterInspectFailure | src/app/updates.rs:159-164 | a note written after an inspection failure is always cleared, with everything joined before it |
| Updates.AddTags | src/app/updates.rs:258-261 | the tag list stays free of duplicates and gains exactly the new tags |
| Updates.CollectTags | src/app/updates.rs:246-266 | the collected tags are duplicate-free and are exactly the tags of the versions that carry metadata |
| Updates.AddDates | src/app/updates.rs:262-264 | a tag that already has a date keeps it; new tags get this version's stamp |
| Updates.CollectDates | src/app/updates.rs:246-266 | a tag's date is the stamp of the first version, in response order, that carries it with a stamp |
| Updates.TagDatesAreFirstStamps | src/app/updates.rs:246-266 | the date map agrees with the first-stamp reference definition for every tag |
| Updates.TagVersion | src/app/updates.rs:288-289 | a tag's version is the valid version whose canonical text is the tag without its leading `v`s; there is none exactly when no valid version prints as that text |
| Updates.TagVersionPrint | src/app/updates.rs:288-289 | a printed valid version, with or without a leading `v`, is a tag of that version |
| Updates.LatestIndex | src/app/updates.rs:295-300 | picks the earliest entry with the greatest version, and nothing exactly when no tag parses |
| Updates.LatestStep | src/app/updates.rs:299 | a new strict maximum beats every earlier entry |
| Updates.DetermineLatestReleaseTag | src/app/updates.rs:284-301 | the chosen tag is a listed tag whose version is greatest among the tags that parse, at a position before which every parsing tag is strictly older; none exactly when no tag parses |
| Updates.LatestOfThree | src/app/updates.rs:284-301 | of three parsing tags, the one with the strictly greatest version is chosen |
| Updates.LatestReleaseExample | src/app/updates.rs:284-301 | versions compare numerically: among `1.2.0`, `v1.10.0` and `1.9.9` the release is `v1.10.0` |
| Updates.LatestReleaseOrderIndependent | src/app/updates.rs:284-301 | two tag lists with the same tags choose the same version |
| Updates.ApplyRemoteVersions | src/app/updates.rs:241-282 | the tags become the sorted set of listed tags; the release date and the "latest" date come from the first stamped version; the status is recomputed; a note is added exactly when there are no tags |
| Updates.PackageReply | src/app/updates.rs:329-346 | a package endpoint answers only with 200 and a decodable body; a send failure, an undecodable 200, 401 or 403, 500 to 599, and any other status each give their own error with the body |
| Updates.TryEndpoints | src/app/updates.rs:318-350 | endpoints are tried in order and a 404 is the only reason to try the next; all 404 gives "not found" |
| Updates.FetchPackageVersions | src/app/updates.rs:303-351 | the orgs endpoint decides unless it says 404, in which case the users endpoint decides |
| Updates.UsersEndpointOnlyAfterNotFound | src/app/updates.rs:318-348 | the users endpoint's reply does not matter unless the orgs endpoint said 404 |
| Updates.LastUrl | src/app/updates.rs:204-211 | the URL kept for a kind is that of the last matching asset, or the previous URL when none matches |
| Updates.ScanAssets | src/app/updates.rs:202-211 | the download is the last `_amd64.deb` asset and the checksum the last `SHA256SUMS` asset in any case |
| Updates.RunningVersion | src/app/updates.rs:197-198 | the running version is the valid version whose canonical text is the package version, else 0.0.0 |
| Updates.FetchInstallerUpdate | src/app/updates.rs:178-239 | a 404 or a release without a Debian package gives no entry; a failed send is RequestFailed, other failure statuses are ReleaseStatus, and an undecodable reply is DecodeFailed; the entry is the self entry with no tags and no note, the release tag, date and asset URLs, and reports an update only when the tag parses to a version newer than the running one |
| Updates.InspectLocalImageCreatedAt | src/app/updates.rs:353-376 | a failed command is an error; a non-zero exit, blank output or an unparseable stamp give none; otherwise the trimmed output's stamp |
| Updates.ServiceInfo | src/app/updates.rs:146-168 | one image's entry fails exactly when its package fetch fails; it describes that image; a missing package gets the "not found" note first; its status agrees with its stamps |
| Updates.CollectServices | src/app/updates.rs:146-169 | the collection fails exactly when one image's fetch fails, and otherwise has one entry per image, in order |
| Updates.CollectedEntriesAreCurrent | src/app/updates.rs:146-169 | every collected entry has a status that agrees with its stamps |
| Updates.Combine | src/app/updates.rs:171-175 | the installer entry, when there is one, follows the image entries; any failure fails the whole |
| Updates.CollectUpdateInfos | src/app/updates.rs:143-176 | fails exactly when a package fetch or the release fetch fails, else lists both images then the optional installer entry |
| Updates.StatusText | src/pages/update.rs:230-238 | a note wins; otherwise "Update available" when there is an update and "Up to date" when there is not |
| SemVer.Split | src/app/updates.rs:289 | splitting gives at least one part, no part holds the separator, and joining the parts with the separator gives the text back |
| SemVer.SplitJoin | src/app/updates.rs:289 | splitting a join of separator-free parts gives the parts back |
| SemVer.ParseNumber | src/app/updates.rs:289 | a number parses exactly when the text is the decimal rendering, without leading zeros, of a value below 2^64, and the value is that one |
| SemVer.ParseIdentifier | src/app/updates.rs:289 | an identifier parses exactly when the text is the rendering of a valid identifier: a canonical number, or a non-empty, not all-digit run of ASCII letters, digits and hyphens |
| SemVer.ParseIdentifiers | src/app/updates.rs:289 | a pre-release parses exactly when every dot-separated part does, keeping one identifier per part in order |
| SemVer.ParseCore | src/app/updates.rs:289 | the core parses only from the text of three numbers below 2^64 joined by dots |
| SemVer.ParseWithPre | src/app/updates.rs:289 | a core with a pre-release parses only to a valid version that prints as the core, `-` and the pre-release |
| SemVer.Parse | src/app/updates.rs:289 | a parsed version is valid and prints as the input |
| SemVer.ParsePrint | src/app/updates.rs:289 | every valid version parses back from its printed text, so parsing is a bijection between canonical texts and valid versions |
| SemVer.ParseComplete | src/app/updates.rs:289 | the printed text of a valid version never fails to parse |
| SemVer.IdLeTotal | src/app/updates.rs:299 | any two pre-release identifiers are comparable |
| SemVer.IdLeAntisymmetric | src/app/updates.rs:299 | identifiers ordered both ways are equal |
| SemVer.IdLeTransitive | src/app/updates.rs:299 | the identifier order is transitive |
| SemVer.IdsLeTotal | src/app/updates.rs:299 | any two pre-release lists are comparable |
| SemVer.IdsLeAntisymmetric | src/app/updates.rs:299 | pre-release lists ordered both ways are equal |
| SemVer.IdsLeTransitive | src/app/updates.rs:299 | the pre-release order is transitive |
| SemVer.LeTotal | src/app/updates.rs:299 | any two versions are comparable, so the sort is well defined |
| SemVer.LeAntisymmetric | src/app/updates.rs:299 | versions ordered both ways are equal |
| SemVer.LeTransitive | src/app/updates.rs:299 | version precedence is transitive |
| SemVer.LeLtTransitive | src/app/updates.rs:299 | a version at most one strictly below another is strictly below it |

## Left out

- Drawing the screens (`src/ui/*.rs`, `render` in `src/app/mod.rs`) is left out. Only the set of displayed menu entries is modelled, because the selection invariant needs it.
- Terminal I/O, the 100 ms poll time-out and key-release events are left out. A poll that returns nothing, and a release event, are modelled as "no event".
- The `tokio::select!` interleaving of stdout and stderr is left out. Each compose run is modelled as the one sequence of lines the loop reads before it stops, plus an optional read error.
- A Ctrl+C while the awaited compose run is still in progress is left out. Its handler reaches the key only after the run has returned, and the model treats the run as one step.
- HTTP, JSON decoding, RFC 3339 parsing, `docker image inspect`, the file system, `project_root`, the bundled `.env` template and the UUID generator are parameters. Their own behaviour is not modelled.
- Error values are strings or a small error datatype. The exact `Display` text of library errors is not modelled.
- `f64` progress is modelled as a real number, so rounding is not modelled.
- `to_lowercase` is modelled as ASCII lower-casing. Non-ASCII case mappings are not modelled.
- SemVer.Parse: build metadata (`+...`) is rejected rather than parsed. Container tags cannot contain `+`, and the installer's own version carries none. A GitHub release whose `tag_name` carries `+build` does parse in the semver crate, and `Updates.FetchInstallerUpdate` then reports no update for it where the program might. Beyond that, the parser follows the semver crate only as far as section 2 and section 9 of Semantic Versioning 2.0.0 go.
- Templates.ApplyBindingsExpands, Templates.RenderPipelineExpands, Templates.RenderSettingsFillsPlaceholders, Templates.RenderExpands: stated for texts in which `{` occurs only inside `{{NAME}}` placeholders, and for substituted values without `{`. A value holding a placeholder can create new matches for a later replacement; `Templates.EngineSectionExpandedBeforeSettings` shows one such case.
- EnvFile.FillDefaultsExpands, EnvFile.GenerateEnvContentSubstitutes: stated under the same condition, for UUID fragments and keys without `{`. UUID fragments are hexadecimal.
- Install.TotalServices is the constant 4 that `App::new` sets. Nothing in the core changes it.
- The "No configuration templates available" branch and the `get` that can miss in `handle_config_selection_events` are left out. The table has fourteen entries and the index is clamped first (`Templates.TemplateTableSize`, `Wizard.ClampIndex`).
- EnvFile.GenerateEnvContentSetsKeys: the properties are stated on the lines joined into the file, not on the joined text itself.
- `get_local_image_created` and `pull_reference` are one-line wrappers, and the update page's own key handling lies outside the core. Neither is modelled beyond `Updates.InspectLocalImageCreatedAt` and `Updates.StatusText`.

## Findings

| source | as written | input that shows it | evidently intended | confidence | as-written member | corrected member |
|---|---|---|---|---|---|---|
| src/app/mod.rs:212-215 | Up from "Generate .env" always selects "Generate config.yaml" | config.yaml present, .env missing: the menu starts on "Generate .env"; press Up | Up moves only between displayed entries, so the selection goes to "Cancel" | not executed | Wizard.UpFromGenerateEnvAsWritten | Wizard.MenuUp |
| src/app/mod.rs:217-224 | Up from "Cancel" selects "Generate config.yaml" whenever config.yaml is missing, even when "Generate .env" is displayed; Down visits config first, then env, so from "Cancel" Up should go to "Generate .env", the option Down visits last before "Cancel" | neither file present: the menu starts on "Generate config.yaml"; press Up twice | Up undoes Down, so from "Cancel" it goes to "Generate .env" and Up cycles through all three options | not executed | Wizard.UpFromCancelAsWritten | Wizard.MenuUp |
| src/app/mod.rs:157-159 | leaving the form returns to the menu without fixing the selection, after src/app/mod.rs:374-375 entered the form with config.yaml just written | neither file present: Enter on "Generate config.yaml", Enter on a template, then Esc on the form | the selection moves to a displayed entry ("Generate .env") | not executed | Wizard.LeaveFormAfterConfigAsWritten | Wizard.Reselect |

In the first and the last case the menu highlights nothing, and Enter re-runs
an action for a file that already exists. In the second, "Generate .env" can
be reached only with Down. `Wizard.Step` uses the corrected behaviour when
asked for the `Corrected` variant, and `Wizard.StepWellFormed` proves that,
with both corrections, the selection always stays on a displayed entry.
