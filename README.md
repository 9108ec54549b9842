# k1 core, modelled in Dafny

k1 is a small personal-assistant runtime written in Python. It has:

- a launcher that reads a flat `key: value` settings file and coerces command-line values;
- a persistable state with dotted-path access to nested dicts;
- a kill-switch safety check;
- timestamped state snapshots;
- a settings validator;
- a per-key sliding-window rate limiter;
- roles and an ACL, an in-memory inbox, a substring search index and thread-safe counters;
- a pool of AI chat providers (Claude, OpenAI, Gemini) that rotates round-robin and falls back from one provider to the next.

This project models that core in Dafny and proves what it promises.

- **Pure logic** becomes functions and lemmas. This covers parsing, coercion, `to_bool`, `safe_tag`, `validate`, `evaluate_safety`, the message envelopes and the fallback decision.
- **Objects that update their own fields** become classes: `K1State`, `RateLimiter`, `Metrics`, `ACL`, `Inbox`, `SimpleIndex` and `ProviderPool`. Their methods have `modifies` clauses, and each `ensures` ties the new state to a specification function of the old state.
- **Loops in the source** become `while`/`for` loops with invariants, proved against those functions:
  - the `parse_simple_yaml` line loop;
  - the `set_path` descent;
  - the `get_path` walk;
  - the rate limiter's eviction loop;
  - the Gemini `contents` loop;
  - the fallback loop of the pool.

The files:

- `wrappers.dfy` holds `Option` and `Result`.
- `values.dfy` holds the dynamically typed values stored in settings and memory.
- `strings.dfy` holds the Python string operations used by the core. These are `strip` over Python's whitespace set, ASCII `lower`, `isdigit` and `isalnum`, `split`, `join`, `splitlines`, `in`, `int` and `str`.
- There is one file per source module.

The fallback loop of `ProviderPool.generate_with_fallback` is specified by a pure function, `Fallback`. Each provider call is a value `generate(provider, system, messages, k)`: the outcome of calling the provider with the system prompt and the conversation at the k-th attempt of the round. The round starts at the cursor. Every provider is tried once, in rotation order. The first success is returned with the provider's name. Otherwise the error lists one note per provider. `RoundIsRotation` is a stated result that no other proof uses: a round visits `ps[start:] + ps[:start]`.

## Model

| member | source | states |
|---|---|---|
| Strings.Strip | run.py:24 | the stripped text is no longer than the input and has no whitespace at either end |
| Strings.StripSlice | run.py:24 | stripping removes only a whitespace prefix and a whitespace suffix; the rest of the text is kept |
| Strings.StripPadded | run.py:73 | whitespace before and after a text that is not itself padded, of any lengths chosen independently, is removed exactly |
| Strings.StripIdempotent | run.py:24 | stripping twice is stripping once |
| Strings.Lower | run.py:74 | lower-casing keeps the length and maps each upper-case ASCII letter to its lower-case form, every other character to itself |
| Strings.LowerIdempotent | search/index.py:9 | lower-casing twice is lower-casing once |
| Strings.Contains | search/index.py:9 | `needle in hay` holds exactly when the needle occurs at some position |
| Strings.IndexOf | run.py:29 | the split point is the first `:` of the line |
| Strings.Split | core/state.py:20 | `split` gives at least one part, no part holds the separator, and joining the parts with it gives the text back |
| Strings.SplitJoin | core/state.py:20 | splitting a join of separator-free parts gives the parts back |
| Strings.SplitConcat | core/state.py:20 | a separator between two texts splits them apart |
| Strings.SplitLines | run.py:23 | no line of `splitlines` holds a line break, and only the empty text has no lines |
| Strings.SplitLinesBreak | run.py:23 | a line followed by `\n` or by `\r\n` ends there, the `\r\n` pair counting as one boundary, and the lines of the rest follow |
| Strings.SplitLinesFinalBreak | run.py:23 | a final boundary does not start an extra empty line |
| Strings.SplitLinesOne | run.py:23 | a non-empty text without a boundary is one line |
| Strings.SplitLinesJoin | run.py:23 | splitting the `\n`- or `\r\n`-join of non-empty single-line texts gives them back |
| Strings.SplitLinesJoinEnd | run.py:23 | splitting single-line texts each followed by `\n` or `\r\n`, the last one included, gives them back |
| Strings.NatToStringValue | run.py:80 | the decimal text of a number reads back as that number |
| Strings.IntToString | agents/providers.py:74 | the decimal text of an integer is non-empty and starts with `-` exactly for negatives |
| Run.ParseSimpleYaml | run.py:12-31 | the loop's result is the map of the parsed entries of `splitlines(text)`, later keys overriding earlier ones |
| Run.ParseLine | run.py:24-30 | a line gives no entry exactly when, once stripped, it is blank, starts with `#` or holds no `:` |
| Run.ParseLineShape | run.py:24-30 | an accepted line gives a stripped key and a stripped value, and the key holds no `:` |
| Run.ParseLineEntry | run.py:24-30 | a line `key:value` with a stripped, colon-free key that is empty or does not start with `#`, and a stripped value, parses to exactly that entry |
| Run.EntriesOfLines | run.py:23-30 | every accepted line contributes its entry |
| Run.EntriesFromLines | run.py:23-30 | every entry comes from an accepted line |
| Run.ParseLinesKeys | run.py:12-31 | the keys of the result are exactly the keys of the accepted lines |
| Run.EntriesLast | run.py:23-30 | an accepted last line appends its entry after those of the lines before it |
| Run.EntriesMapKeys | run.py:30 | the keys of the result are exactly the keys of the entries |
| Run.EntriesMapLastWins | run.py:30 | a key's value is the one from its last occurrence |
| Run.EntriesMapSnoc | run.py:30 | a further entry writes its key over the map of the earlier ones |
| Run.ParseLinesLastWins | run.py:23-30 | a key's value comes from the last accepted line with that key, whatever skipped lines lie between |
| Run.Render | run.py:23-30 | entries rendered as `key:value` lines, one per entry |
| Run.RenderEntries | run.py:23-30 | rendered entries parse back, line by line, to the same entries |
| Run.RenderParse | run.py:12-31 | the whole text built from writable entries, one per line with `\n` or `\r\n` between them, parses back to their map (round trip) |
| Run.RenderParseEnd | run.py:12-31 | the same for a file whose every line, the last one included, ends with `\n` or `\r\n` |
| Run.CoerceValue | run.py:72-83 | a bool exactly for `true`/`false` in any case after stripping; otherwise an int exactly for an optional `-` followed by digits, with that value; otherwise the stripped text |
| Run.CoerceIntRoundTrip | run.py:78-80 | the decimal text of any integer, with any whitespace before and after it, coerces back to that integer |
| Run.CoerceBoolWord | run.py:73-76 | a `true`/`false` word in any case, with any whitespace before and after it, coerces to the matching bool |
| Run.CoerceNoDigits | run.py:78-83 | a lone `-` and the empty text stay strings |
| Run.CoerceKeepsText | run.py:83 | a value that is neither a bool word nor an integer is returned stripped, as text |
| Run.ToBool | run.py:37-43 | a stripped, lower-cased text among `true`, `yes`, `1`, `on` gives true; among `false`, `no`, `0`, `off` gives false; anything else gives the default |
| Run.ToBoolWord | run.py:37-43 | a recognised word in any letter case, with any whitespace before and after it, gives its own truth value whatever the default |
| Run.WordsDisjoint | run.py:39-42 | no word is both a true word and a false word, so the order of the two tests does not matter |
| Run.PlainWord | run.py:38 | a word already stripped and lower-case is its own normal form |
| Run.ToBoolNormal | run.py:37-43 | `to_bool` depends only on the stripped, lower-cased text |
| Run.Settings.AsDict | run.py:45-51 | the settings dict has exactly the five setting keys |
| Run.Settings.AsDictText | run.py:46-48 | the three text settings are stored as strings |
| Run.LoadSettings | run.py:45-51 | each key present in the parsed file is taken from it, the two flags through `to_bool` |
| Run.LoadSettingsDefaults | run.py:45-51 | each absent key takes its default: `k1`, `EN`, `.k1`, safe mode on, admin off |
| Run.DefaultWords | run.py:49-50 | the default texts of the two flags, `true` and `false`, read as on and off |
| State.NonEmpty | core/state.py:20 | the kept parts are exactly the non-empty parts of the input |
| State.NonEmptyConcat | core/state.py:20 | the filter works piece by piece, keeping the order |
| State.NonEmptySingle | core/state.py:20 | a single part is kept exactly when it is non-empty |
| State.Segments | core/state.py:20 | the segments of a dotted key are non-empty and dot-free |
| State.SegmentsOne | core/state.py:20 | a non-empty key without a dot names the one-segment path of itself |
| State.SegmentsTwo | core/state.py:20 | `x.y` with two non-empty dot-free names names the path `[x, y]` |
| State.SegmentsConcat | core/state.py:20 | a dot between two keys concatenates their paths |
| State.SegmentsEmpty | core/state.py:20-22 | the empty key names no path |
| State.SegmentsDoubleDot | core/state.py:20 | a doubled dot acts as one separator |
| State.SegmentsLeadingDot | core/state.py:20 | a leading dot is ignored |
| State.SegmentsTrailingDot | core/state.py:20 | a trailing dot is ignored |
| State.FindAssign | core/state.py:23-30 | after writing a path, reading it gives the written value |
| State.FindAssignDiverge | core/state.py:23-30 | writing a path leaves every path branching off it unchanged |
| State.AssignMakesDicts | core/state.py:24-29 | after writing, every proper prefix of the path leads to a dict |
| State.FindStops | core/state.py:36-41 | reading yields `None` at the first missing segment or non-dict value |
| State.SetThenGet | core/state.py:14-41 | `get_path` after `set_path` with the same key gives back the value |
| State.Descend | core/state.py:23-29 | the loop yields, for each segment but the last, the dict `set_path` walks into: the stored dict, or a fresh empty one in place of anything else |
| State.Rebuild | core/state.py:23-30 | storing the value in the deepest dict and putting each dict back into its parent gives exactly the write at the path |
| State.K1State.constructor | core/state.py:7-12 | the defaults: version `0.1-day1`, language `EN`, admin off, empty memory |
| State.K1State.SetPath | core/state.py:14-30 | a key without segments fails with `Key is empty.` and leaves memory alone; otherwise memory becomes the old memory with the value written at the key's path |
| State.K1State.GetPath | core/state.py:32-41 | the loop returns the value found at the key's path (`None` for no segments) |
| RateLimit.Evict | api/rate_limit.py:13-14 | eviction never grows the queue and leaves a front entry inside the window |
| RateLimit.EvictSuffix | api/rate_limit.py:13-14 | eviction keeps a suffix of the queue and drops only entries older than the window |
| RateLimit.EvictSorted | api/rate_limit.py:13-14 | on a sorted queue, every entry kept lies inside the window |
| RateLimit.EvictOrdered | api/rate_limit.py:13-14 | eviction keeps a sorted queue of past time stamps sorted and in the past |
| RateLimit.AppendSorted | api/rate_limit.py:17 | appending the current time keeps the queue sorted |
| RateLimit.StoreOrdered | api/rate_limit.py:12-18 | storing an ordered queue keeps every queue ordered |
| RateLimit.OrderedLater | api/rate_limit.py:10-11 | queues ordered at one time are ordered at any later time |
| RateLimit.RateLimiter.constructor | api/rate_limit.py:5-8 | defaults 10 requests per 60 seconds; no queues |
| RateLimit.RateLimiter.Allow | api/rate_limit.py:10-18 | allowed exactly when the evicted queue is below the limit; the key's queue becomes the evicted queue plus `now` if allowed, else just the evicted queue; no queue exceeds the limit and all stay sorted; a limit of zero or below refuses every request |
| Snapshots.KeepTagChars | persistence/snapshots.py:19 | the filter keeps only letters, digits, `-` and `_` |
| Snapshots.SafeTag | persistence/snapshots.py:19 | the safe tag is non-empty and made of tag characters only |
| Snapshots.KeepConcat | persistence/snapshots.py:19 | filtering works piece by piece, keeping the order |
| Snapshots.KeepAll | persistence/snapshots.py:19 | a text of tag characters is kept whole |
| Snapshots.KeepNone | persistence/snapshots.py:19 | a text without tag characters is dropped |
| Snapshots.KeepHas | persistence/snapshots.py:19 | every tag character of the input survives |
| Snapshots.KeepStrip | persistence/snapshots.py:19 | stripping first removes no tag character |
| Snapshots.SafeTagIgnoresStrip | persistence/snapshots.py:19 | the safe tag is the filtered tag, or `manual` when nothing is left |
| Snapshots.SafeTagKeepsClean | persistence/snapshots.py:19 | a non-empty clean tag comes back unchanged |
| Snapshots.SafeTagIdempotent | persistence/snapshots.py:19 | sanitising twice is sanitising once |
| Snapshots.SafeTagFallback | persistence/snapshots.py:19 | a tag without tag characters becomes `manual` |
| Snapshots.SnapshotFileName | persistence/snapshots.py:18-20 | the file name starts with the time stamp and ends in `.json`, and nothing in between is a `/` or a `.` |
| Snapshots.SnapshotFileNameParts | persistence/snapshots.py:14-20 | the file name is the time stamp, `_`, the safe tag and `.json`, and the tag part holds no `/` or `.` |
| Validator.MissingKeys | config/validator.py:8 | the missing keys are exactly the required keys absent from the settings; none are missing exactly when all are present |
| Validator.MissingKeysConcat | config/validator.py:8 | missing keys are listed piece by piece, so in the order of the required keys |
| Validator.MissingKeysHead | config/validator.py:8 | the first key is looked at first |
| Validator.MissingKeysSingle | config/validator.py:8 | one key is listed exactly when it is absent |
| Validator.FirstNonStr | config/validator.py:11-13 | the index found is the first required key whose value is not a string; none exactly when all are strings |
| Validator.Validate | config/validator.py:7-13 | a `ValueError` is raised exactly when some required key is absent; success means every required key holds a string |
| Validator.ValidateSucceedsIff | config/validator.py:7-13 | validation succeeds exactly when every required key holds a string |
| Validator.MissingFirst | config/validator.py:8-10 | a missing key raises `ValueError` listing all missing keys, before any type is checked |
| Validator.TypeErrorNamesFirst | config/validator.py:11-13 | with every key present, the `TypeError` names the first non-string key |
| Validator.ValidateIgnoresExtra | config/validator.py:7-13 | keys other than the required ones play no part |
| Validator.SettingsValid | config/validator.py:7-13 | the dict of any settings record passes validation |
| Validator.LoadedSettingsValid | config/validator.py:1-13 | settings built by `load_settings` always pass validation |
| Safety.EvaluateSafety | core/safety.py:14-23 | the kill switch forces safe mode with its reason; otherwise the default applies, with the default reason |
| Safety.PaddedCodeForces | core/safety.py:21-22 | the code with any whitespace before and after it still triggers the kill switch |
| Safety.UnsetUsesDefault | core/safety.py:21-23 | an unset variable gives the default |
| Safety.OtherValueUsesDefault | core/safety.py:21-23 | any value that does not strip to the code gives the default |
| Metrics.Bump | metrics/metrics.py:9-11 | the named counter grows by the value, starting from 0; every other counter is unchanged |
| Metrics.BumpCommutes | metrics/metrics.py:9-11 | increments commute |
| Metrics.BumpAdds | metrics/metrics.py:9-11 | two increments of one counter add up |
| Metrics.Metrics.constructor | metrics/metrics.py:5-7 | no counters |
| Metrics.Metrics.Inc | metrics/metrics.py:9-11 | the counters become the old counters bumped |
| Metrics.Metrics.Snapshot | metrics/metrics.py:13-15 | the copy equals the counters |
| Roles.Role.Allows | auth/roles.py:9-10 | a role allows exactly the permissions in its set |
| Roles.EmptyAllowsNothing | auth/roles.py:9-10 | a role without permissions allows nothing |
| Roles.AllowsIgnoresName | auth/roles.py:9-10 | the role's name plays no part in what it allows |
| Acl.Permits | auth/acl.py:11-13 | permitted exactly when the role is registered and holds the permission |
| Acl.PermitsAfterAdd | auth/acl.py:8-13 | after a role is added, checks under its name use that role; checks under every other name are unchanged |
| Acl.ACL.constructor | auth/acl.py:5-6 | no roles |
| Acl.ACL.AddRole | auth/acl.py:8-9 | the role is stored under its name, replacing any earlier one |
| Acl.ACL.Check | auth/acl.py:11-13 | true exactly when the role is registered and allows the permission |
| Index.SimpleIndex.constructor | search/index.py:2-3 | no entries |
| Index.SimpleIndex.Add | search/index.py:5-6 | the value is stored under the key, replacing any earlier one |
| Index.SimpleIndex.Search | search/index.py:8-9 | the result holds exactly the entries whose lower-cased value contains the lower-cased query, with their values |
| Index.SearchEmpty | search/index.py:9 | the empty query matches every entry |
| Index.SearchIgnoresCase | search/index.py:8-9 | queries that agree after lower-casing find the same entries |
| Index.SearchLowered | search/index.py:9 | lower-casing the query first changes nothing |
| Inbox.Sticky | messaging/inbox.py:11-12 | the messages returned are exactly the sticky messages of the inbox |
| Inbox.StickyConcat | messaging/inbox.py:12 | the filter keeps the order of arrival |
| Inbox.StickyAfterSend | messaging/inbox.py:8-12 | sending a message adds it to `unread` exactly when it is sticky |
| Inbox.StickyAll | messaging/inbox.py:12 | an inbox of sticky messages is returned whole |
| Inbox.Inbox.constructor | messaging/inbox.py:5-6 | no messages |
| Inbox.Inbox.Send | messaging/inbox.py:8-9 | the message is appended |
| Inbox.Inbox.Unread | messaging/inbox.py:11-12 | exactly the sticky messages |
| Providers.Provider.Name | agents/providers.py:47-48 | the name is the provider type's value, and no other type has that name |
| Providers.OpenAIMessages | agents/providers.py:84-86 | the OpenAI messages are the system message followed by the conversation unchanged |
| Providers.GeminiRole | agents/providers.py:131 | `user` stays `user`; every other role becomes `model` |
| Providers.GeminiTurns | agents/providers.py:130-135 | one turn per message, in order |
| Providers.GeminiContents | agents/providers.py:117-135 | the `System: ` user turn, then the fixed model acknowledgement, then one turn per message |
| Providers.GeminiContentsAppend | agents/providers.py:130-135 | one more message appends exactly its turn |
| Providers.BuildGeminiContents | agents/providers.py:117-135 | the loop builds exactly the specified contents |
| Providers.GeminiRoundTrip | agents/providers.py:130-135 | for `user`/`model` roles, the conversation can be read back from the contents |
| Providers.Classify | agents/providers.py:71-74 | status 200 succeeds with the reply text; 429 is the provider's rate-limit error; any other status is an API error naming it; a raised exception fails with its message |
| Providers.Generate | agents/providers.py:54-158 | the outcome is the classified reply of the service to the provider's own request |
| Providers.Wrap | agents/providers.py:218 | the cursor stays below the pool size |
| Providers.WrapMod | agents/providers.py:218 | the cheap wrap equals `% len(providers)` |
| Providers.WrapStep | agents/providers.py:218 | advancing the wrapped cursor is wrapping the advanced cursor |
| Providers.RoundIndex | agents/providers.py:236-237 | the k-th attempt of a round uses an index inside the pool |
| Providers.RoundIsRotation | agents/providers.py:236-237 | a round visits the providers in the rotation that starts at the cursor |
| Providers.RoundStep | agents/providers.py:236-237 | every provider is reached at some attempt of the round |
| Providers.RoundVisitsEachOnce | agents/providers.py:236-237 | within a round no provider is tried twice and every provider is tried |
| Providers.Outcomes | agents/providers.py:236-239 | one outcome per attempt, in order |
| Providers.RoundNames | agents/providers.py:236-240 | the names of the providers in attempt order |
| Providers.FirstOk | agents/providers.py:239-240 | the first successful attempt, if any |
| Providers.Notes | agents/providers.py:241-249 | one error note per failed attempt |
| Providers.AttemptCount | agents/providers.py:236-249 | no more attempts than providers |
| Providers.FallbackAt | agents/providers.py:236-240 | the first success ends the round with that reply and provider name after exactly that many attempts |
| Providers.FallbackExhausted | agents/providers.py:241-251 | when every attempt fails, the error is the `All providers failed:` prefix followed by the notes joined with `; `, and every provider was tried |
| Providers.FallbackSucceedsIff | agents/providers.py:236-251 | the call succeeds exactly when some provider of the round succeeds |
| Providers.ServiceFallbackSucceedsIff | agents/providers.py:221-251 | with real provider calls, the fallback succeeds exactly when the service answers some attempt of the round with status 200 |
| Providers.FailureNamesEveryProvider | agents/providers.py:241-251 | the failure message names every provider of the pool |
| Providers.FailureNamesAttempt | agents/providers.py:241-251 | the failure message names the provider of each attempt |
| Providers.NotesNameEach | agents/providers.py:242-251 | each note, and so the joined message, holds its provider's name |
| Providers.ProviderPool.constructor | agents/providers.py:177-179 | an empty pool with the cursor at 0 |
| Providers.ProviderPool.AddProvider | agents/providers.py:181-183 | the provider is appended; the cursor is unchanged and stays valid |
| Providers.ProviderPool.AddClaude | agents/providers.py:185-192 | appends a Claude provider with the given key and model, default model `claude-sonnet-4-20250514` |
| Providers.ProviderPool.AddOpenAI | agents/providers.py:194-201 | appends an OpenAI provider, default model `gpt-4o` |
| Providers.ProviderPool.AddGoogle | agents/providers.py:203-210 | appends a Google provider, default model `gemini-1.5-pro` |
| Providers.ProviderPool.Length | agents/providers.py:253-254 | the number of providers; zero exactly for an empty pool |
| Providers.ProviderPool.ProviderNames | agents/providers.py:256-258 | the providers' names in pool order |
| Providers.ProviderPool.GetNextProvider | agents/providers.py:212-219 | an empty pool fails; otherwise it returns the provider at the cursor and advances the cursor modulo the pool size, which is the one-step wrap used by the fallback round |
| Providers.ProviderPool.TryNext | agents/providers.py:237-239 | one attempt: the next provider in rotation is called, and the cursor advances by one |
| Providers.ProviderPool.GenerateWithFallback | agents/providers.py:221-251 | the loop returns exactly the fallback decision; the cursor advances once per attempt made; the pool is unchanged |

## Left out

- HTTP transport is not modelled:
  - URLs, headers and the 120-second timeout;
  - the request body fields `model`, `max_tokens` and `temperature`;
  - reading the reply text out of the response JSON.
  A `Service` function stands for the remote endpoint and returns either a status with the reply text or a raised exception's message. The envelope each provider sends is modelled.
- `async`/`await` is left out: the calls are sequential in the source's own loop.
- `temperature` is a float and is not carried in `ProviderConfig`.
- `create_provider_pool_from_env` reads environment variables to decide which providers to add. Only the `add_*` methods it calls are modelled.
- `agents/specialized_agents.py` and the other modules of the repository are not part of this model. This includes the HTTP API server, storage, identity and the demo tools.
- `Strings.Lower`, `Strings.IsDigit` and `Strings.IsAlnum` cover ASCII only. Python's `str.lower`, `isdigit` and `isalnum` are Unicode-aware. For the bool words of `to_bool` and `coerce_value` the result is the same. Search over non-ASCII text and non-ASCII digits or letters in tags and values are not covered.
- Run.CoerceValue: `int(v)` cannot fail on ASCII digits, so the `except ValueError` path is unreachable in the model. It is reachable in Python only for Unicode digits that `int` rejects.
- Run.LoadSettings: reading `config/settings.yaml` from disk is left out. The function starts from the parsed map.
- Run.LoadSettings: the returned dict is the record `Settings`, and `Settings.AsDict` gives it as a dict.
- Run.RenderParse: the round trip is stated for entries that can be written on one line. Their keys are stripped, colon-free and either empty or not starting with `#`, and their values are stripped and hold no line break.
- RateLimit.RateLimiter.Allow: `time.time()` is a float clock. Time stamps are integers passed in by the caller. The sortedness invariant assumes the caller's clock does not go backwards.
- State.K1State.SetPath: nested dicts are values. The aliasing of a dict stored in memory and also held elsewhere is not modelled.
- Values: lists and floats are not among the modelled values.
- Snapshots: the `strftime` time stamp is a parameter. Creating the directory and writing the JSON file are left out.
- Safety.EvaluateSafety: the `K1_KILL_SWITCH` environment variable is an `Option<string>` parameter (`None` when unset, which Python reads as `""`).
- Metrics.Metrics: the lock is left out because the model is sequential.
- Acl.ACL.AddRole: roles are values. A `Role` object mutated after it was added is not reflected.
- Inbox.Inbox.Send: messages are values. A `Message` object mutated after it was sent, for example its `sticky` flag, does not change `unread` in the model, while it does in Python.
- Messages: the `timestamp` field and its default from the clock are left out.
- Providers.ProviderPool.GenerateWithFallback: a Python exception raised by a provider is modelled as a failed outcome carrying its message text.
