# telegram_world_bot — a Dafny model of its stores, onboarding flow and chat-log logic

This project models the parts of telegram_world_bot that have logic of their own:

- **Per-user session store** (`SessionStore`): a class whose `sessions` map is updated in place.
  - The session of user `u` is created lazily by `get`, `set_value` and `get_value`.
  - `clear` drops it.
  - Any sequence of calls is also described by `Apply`/`Run` over maps.
- **Idempotency ledger and event log** (`MySQLDAO`): a class with a `set` of claimed keys and a `seq` of events.
  - The unique constraint on the key becomes set membership.
  - Each call is also a pure `Step` on the two tables.
- **Profile cache** (`UserStore`): a class holding the `_cache` map and the last JSON object `_save` wrote.
  - Loading the file becomes a loop over the object's items.
  - The id ↔ `str(id)` key encoding is modelled, with Python's `str(int)` and `int(str)` written out.
- **Agent registry** (`AgentRegistry`): a name → agent map whose `get` answers a `KeyError` for a missing name.
- **Agent memory** (`AgentMemory`) and **`safe_trim`**, including Python's negative-slice semantics.
- **Settings**: `load_settings` over an environment map, with each error it raises, and `DBConfig.sqlalchemy_url`, proved to round-trip through a parser of the URL.
- **Onboarding conversation** (`/start` → CHOOSE_MODE → CONFIRM → END, plus cancel).
  - Each handler is a pure transition function over a `World`: the sessions, the DAO tables, the profile cache and the saved profile file.
  - Each handler is also a method over the three store objects, proved equal to that function.
  - The agent's reply is an oracle parameter.
- **The console chat's log operations** (`tests/grok_talking.py`), over a log modelled as a sequence of records:
  - recovering the system prompt;
  - rebuilding the message list;
  - replacing the last assistant record;
  - deleting the last turn;
  - listing and numbering session files.
- **The Telegram chat bot** (`tests/telegram_bot_test.py`):
  - rendering a transcript;
  - splitting long text into ≤ 3900-character messages;
  - `get_or_init_state`;
  - `handle_text` with its "重置 / 刷新 / 重写消息" edits, as a `Bot` class holding `STATE` and the log files of the data directory.

## Model

| member | source | states |
|---|---|---|
| Sessions.Touch | src/telegram_world_bot/services/session_store.py:19-22 | after `get(u)`, `u` has a session: an existing one is kept as is; otherwise a new empty session tagged `u` is added; no other session changes |
| Sessions.ApplyTagged | src/telegram_world_bot/services/session_store.py:19-32 | every store call keeps each session filed under the user id it carries |
| Sessions.ApplyFrame | src/telegram_world_bot/services/session_store.py:19-32 | a call that neither clears `u` nor sets key `k` of `u` leaves what `get_value(u, k, d)` answers unchanged |
| Sessions.SetValueReads | src/telegram_world_bot/services/session_store.py:27-32 | after `set_value(u, k, v)`, `get_value(u, k)` answers `v` and every other (user, key) pair answers what it answered before |
| Sessions.ReadsLastSet | src/telegram_world_bot/services/session_store.py:24-32 | after any sequence of calls, `get_value(u, k)` answers the value of the last `set_value(u, k, _)` not overwritten later by a `clear(u)` or another `set_value(u, k, _)` |
| Sessions.ReadsDefault | src/telegram_world_bot/services/session_store.py:24-32 | starting from an empty store, `get_value(u, k, d)` answers the default `d` when every `set_value(u, k, _)` was followed by a `clear(u)`, in particular when `k` was never set |
| Sessions.SessionStore.constructor | src/telegram_world_bot/services/session_store.py:16-17 | a new store holds no session |
| Sessions.SessionStore.Get | src/telegram_world_bot/services/session_store.py:19-22 | returns the session of `u`, tagged `u`; an existing session is returned unchanged and nothing is stored; on first access an empty session is created |
| Sessions.SessionStore.Clear | src/telegram_world_bot/services/session_store.py:24-25 | `u` has no session afterwards; every other session is untouched; clearing an absent user changes nothing |
| Sessions.SessionStore.SetValue | src/telegram_world_bot/services/session_store.py:27-29 | `get_value(u, k, d)` reads `v` afterwards for every default; every other user and key reads as before; other users' sessions are unchanged |
| Sessions.SessionStore.GetValue | src/telegram_world_bot/services/session_store.py:31-32 | returns the stored value, or the default when the user or the key is absent; creates the empty session as a side effect, as `get` does |
| Dao.Step | src/telegram_world_bot/db/dao.py:13-32 | acquire answers true exactly for an unclaimed key and adds it, while a claimed key leaves both tables unchanged; logging appends exactly one event; clearing empties the ledger, answers its size and keeps the events |
| Dao.KeysAfterRun | src/telegram_world_bot/db/dao.py:13-32 | after any call sequence, a key is claimed iff it was acquired since the last clear, or it was already claimed and no clear happened |
| Dao.AcquireAnswers | src/telegram_world_bot/db/dao.py:13-21 | acquiring answers true iff the key was not claimed since the last clear: the first acquire succeeds, later ones fail until a clear, and one after a clear succeeds again |
| Dao.EventsAppendOnly | src/telegram_world_bot/db/dao.py:23-32 | the event log only grows: the events before any call sequence are a prefix of the events after it |
| Dao.MySQLDAO.constructor | src/telegram_world_bot/db/dao.py:10-11 | the DAO starts from the given table contents |
| Dao.MySQLDAO.TryAcquireIdempotency | src/telegram_world_bot/db/dao.py:13-21 | answers true iff the key was not in the ledger; the key is in the ledger afterwards and the events are unchanged |
| Dao.MySQLDAO.LogEvent | src/telegram_world_bot/db/dao.py:23-26 | appends exactly the event (user id, event, payload, with payload defaulting to None) and leaves the ledger alone |
| Dao.MySQLDAO.ClearIdempotencyKeys | src/telegram_world_bot/db/dao.py:28-32 | empties the ledger, returns how many keys it held and keeps the events |
| Text.Strip | src/telegram_world_bot/agents/tools.py:11 | `str.strip()`: the result is a contiguous slice of the input; only whitespace is removed before and after it; it neither starts nor ends with whitespace |
| Text.StripIdempotent | src/telegram_world_bot/agents/tools.py:11 | stripping a stripped string changes nothing |
| Text.IntToString | src/telegram_world_bot/services/user_store.py:35 | `str(i)` is non-empty, all digits except a leading '-', and has a '-' exactly for negative `i` |
| Text.ParseIntToString | src/telegram_world_bot/services/user_store.py:30-35 | `int(str(i)) == i` for every integer |
| Text.IntToStringInjective | src/telegram_world_bot/services/user_store.py:35 | distinct integers have distinct decimal strings |
| Text.Upper | src/telegram_world_bot/config.py:39 | `upper()` keeps the length. Each lower-case ASCII letter becomes its upper-case letter, 32 code points lower. No other character changes |
| Users.IdKeysInjective | src/telegram_world_bot/services/user_store.py:35 | two cached ids never collide on the same JSON key |
| Users.Encode | src/telegram_world_bot/services/user_store.py:34-39 | the saved object has exactly one key `str(id)` per cached id, holding that id's profile |
| Users.DecodeOne | src/telegram_world_bot/services/user_store.py:29-30 | one item loads iff the load so far succeeded, `int(k)` parses and the value builds a `UserProfile`; it then (over)writes the entry for `int(k)` |
| Users.DecodeFailurePersists | src/telegram_world_bot/services/user_store.py:27-32 | once one item fails, the whole load fails, so the cache is reset to empty |
| Users.SaveLoadRoundTrip | src/telegram_world_bot/services/user_store.py:29-35 | loading any listing of the object `_save` writes gives back exactly the cache that was saved, ids and profiles |
| Users.UserStore.constructor | src/telegram_world_bot/services/user_store.py:18-22 | a new store holds what loading the file gives and has saved nothing |
| Users.UserStore.Load | src/telegram_world_bot/services/user_store.py:24-32 | a missing file loads nothing, an unreadable one resets the cache to empty, and an object loads its items |
| Users.UserStore.LoadItems | src/telegram_world_bot/services/user_store.py:27-32 | the loop over the items leaves the cache equal to the decoded items, or empty when any item fails |
| Users.UserStore.Upsert | src/telegram_world_bot/services/user_store.py:41-43 | last write wins for the profile's id; other ids keep their profiles; the file then holds the encoding of the whole cache; a cache filed by id stays so |
| Users.UserStore.Get | src/telegram_world_bot/services/user_store.py:45-46 | returns the cached profile, or None for an id never stored; it modifies nothing |
| Registry.AgentRegistry.constructor | src/telegram_world_bot/agents/registry.py:7-8 | a new registry is empty |
| Registry.AgentRegistry.Register | src/telegram_world_bot/agents/registry.py:10-11 | the agent is filed under its name, replacing any earlier one; the entries under other names are unchanged |
| Registry.AgentRegistry.Get | src/telegram_world_bot/agents/registry.py:13-16 | succeeds iff the name is registered and then returns that agent; otherwise answers `KeyError("Agent not found: " + name)`; modifies nothing |
| Memory.AgentMemory.constructor | src/telegram_world_bot/agents/memory.py:11-12 | the history is the given list, empty by default |
| Memory.AgentMemory.Add | src/telegram_world_bot/agents/memory.py:14-15 | appends exactly one `{role, content}` entry at the end and keeps the earlier ones |
| Memory.AgentMemory.LastN | src/telegram_world_bot/agents/memory.py:17-18 | `history[-n:]` is always a suffix of the history. For `n ≥ 1` it is the last `min(n, len)` entries. `n = 0` gives the whole history. A negative `n` drops the first `min(-n, len)` entries. `n` defaults to 10 |
| Tools.SafeTrim | src/telegram_world_bot/agents/tools.py:9-12 | the result is a prefix of the stripped input. With `limit ≥ 0` its length is `min(limit, len)` and it is the whole stripped input when that fits; a negative limit drops from the end. None or "" give "". It never starts with whitespace. The default limit is 800 |
| Config.SqlalchemyUrl | src/telegram_world_bot/config.py:18-24 | the URL starts with `mysql+pymysql://` and ends with `?charset=` followed by the charset |
| Config.LocationRoundTrip | src/telegram_world_bot/config.py:22-23 | the `host:port/name?charset=…` part determines host, port, name and charset |
| Config.UrlRoundTrip | src/telegram_world_bot/config.py:18-24 | the URL determines the whole configuration: parsing it back gives every field, provided the user has no ':', the password no '@', the host no ':' and the name no '?' |
| Config.LoadDb | src/telegram_world_bot/config.py:42-56 | fails with "Missing DB_HOST" iff the stripped host is blank. It fails on the port iff the host is set and `int(DB_PORT)` fails. It succeeds iff the host is set, the port parses, and the stripped user and name are both non-blank. Any other failure is the user-or-name error, and the port error carries the DB_PORT text as its literal |
| Config.MessageInjective | src/telegram_world_bot/config.py:36-56 | the raised texts tell the errors apart: distinct errors, port literals included, give distinct texts |
| Config.BuildDb | src/telegram_world_bot/config.py:46-56 | builds the config with the given host and port iff the stripped user and name are non-blank; otherwise the error is "Missing DB_USER or DB_NAME" |
| Config.LoadSettings | src/telegram_world_bot/config.py:33-63 | fails with "Missing BOT_TOKEN" iff the stripped token is blank, before any database variable is read. Otherwise it succeeds iff the database part does, with the same error |
| Config.LoadedSettings | src/telegram_world_bot/config.py:58-63 | a successful load holds the stripped, non-blank token and a present `db`. That `db` has the stripped host, the parsed port, and a non-blank user and name. User, password, name and charset are the variables as read, with "utf8mb4" as the charset default. The env is ENV or "dev". The log level is LOG_LEVEL (default "INFO") in upper case |
| Config.DefaultPort | src/telegram_world_bot/config.py:48 | the default port text "3306" parses to 3306 |
| Config.Defaults | src/telegram_world_bot/config.py:38-52 | with ENV, LOG_LEVEL, DB_PORT and DB_CHARSET unset, a successful load has env "dev", log level "INFO", port 3306 and charset "utf8mb4" |
| Onboarding.IdemKey | src/telegram_world_bot/flows/onboarding.py:100 | the idempotency key is in the `onboarding_submit:` namespace |
| Onboarding.IdemKeyInjective | src/telegram_world_bot/flows/onboarding.py:100 | the key determines the user id and the stored mode (None or one of the two modes), so distinct submissions never share a key |
| Onboarding.DoneReply | src/telegram_world_bot/flows/onboarding.py:133-135 | the reply starts with "✅ 已完成设置。"; it is exactly that when the agent reply is None or ""; otherwise it continues with "\n\n" and the agent reply |
| Onboarding.AgentReply | src/telegram_world_bot/flows/onboarding.py:121-129 | the reply is the run's reply exactly when the "onboarding" agent is registered and its run returns. A missing agent or a failed run gives None |
| Onboarding.CancelStep | src/telegram_world_bot/flows/onboarding.py:142-150 | ends; clears the user's session when there is a user and keeps all other sessions; writes no key, event or profile; replies iff there is a message |
| Onboarding.EntryStartStep | src/telegram_world_bot/flows/onboarding.py:39-50 | a missing user or message ends with no change; otherwise the user's session is cleared and the state becomes CHOOSE_MODE |
| Onboarding.ChooseModeStep | src/telegram_world_bot/flows/onboarding.py:54-76 | A missing user or message ends with no change. A cancel is exactly `cancel`. Any other text that is not a mode stays in CHOOSE_MODE with nothing changed and the option prompt. A mode moves to CONFIRM with `mode` set for that user and every other session value unchanged |
| Onboarding.ProfileFor | src/telegram_world_bot/flows/onboarding.py:110-117 | the profile stored is the cached one when it exists, else one carrying the Telegram user's id |
| Onboarding.ConfirmStep | src/telegram_world_bot/flows/onboarding.py:80-138 | A missing user or message ends with no change. A cancel behaves as `cancel`. Any other text than cancel or "确认提交" stays in CONFIRM with no change and the button prompt. "确认提交" submits. The flow never goes back to CHOOSE_MODE |
| Onboarding.SubmitAlreadyClaimed | src/telegram_world_bot/flows/onboarding.py:97-104 | with the key already claimed, the only change is that the user's session is cleared: no event, no profile write. The flow ends with "这个提交已处理过。" |
| Onboarding.SubmitFirstClaim | src/telegram_world_bot/flows/onboarding.py:97-138 | On a first claim, the key is added and exactly one `onboarding_submit` event with payload `mode={mode}` is logged. A profile built from the Telegram user is stored only if none exists, else the cache is unchanged, and the file is rewritten. The session is cleared, and the flow ends with the done reply |
| Onboarding.StoreProfile | src/telegram_world_bot/flows/onboarding.py:110-119 | storing the profile adds the new user's profile, or re-stores the existing one unchanged, and keeps every other profile |
| Onboarding.ConversationSubmits | src/telegram_world_bot/flows/onboarding.py:39-97 | `/start`, a valid mode, then "确认提交" submit with that mode read from the session; the tables and profiles are untouched before the submit |
| Onboarding.ResubmissionLogsOnce | src/telegram_world_bot/flows/onboarding.py:97-107 | going through the conversation twice with the same mode logs at most one event. The second pass is answered "这个提交已处理过。" and changes no table or profile |
| Onboarding.EntryStart | src/telegram_world_bot/flows/onboarding.py:39-50 | the handler on the store objects leaves them as `EntryStartStep` says and returns its state and reply |
| Onboarding.Cancel | src/telegram_world_bot/flows/onboarding.py:142-150 | the handler on the store objects leaves them as `CancelStep` says and returns its state and reply |
| Onboarding.ChooseMode | src/telegram_world_bot/flows/onboarding.py:54-76 | the handler on the store objects leaves them as `ChooseModeStep` says and returns its state and reply |
| Onboarding.Confirm | src/telegram_world_bot/flows/onboarding.py:80-138 | the handler on the store objects leaves them as `ConfirmStep` says, with the agent reply the registry and the run give |
| Onboarding.SubmitAndFinish | src/telegram_world_bot/flows/onboarding.py:95-138 | the submit calls on the store objects (read mode, claim key, then the rest or the early exit) match `Submit` |
| Onboarding.RecordSubmission | src/telegram_world_bot/flows/onboarding.py:106-138 | log, profile upsert, agent call, session clear and reply, on the store objects, match `Record` |
| Onboarding.AskAgent | src/telegram_world_bot/flows/onboarding.py:121-129 | the optional agent call yields the reply `AgentReply` describes |
| ChatLog.LastMatch | tests/grok_talking.py:126-129 | the backward search finds the last record that matches, with none matching after it, or reports that none matches |
| ChatLog.SystemPromptOf | tests/grok_talking.py:203-208 | the prompt is the content of the last "system" record with string content, or `SYSTEM_DEFAULT` when there is none |
| ChatLog.ExtractSystemPrompt | tests/grok_talking.py:203-208 | the forward loop that keeps overwriting the prompt returns the content of the last system record with string content, or the default |
| ChatLog.Turns | tests/grok_talking.py:213-221 | only user and assistant messages come from the records, at most one per record |
| ChatLog.TurnsSnoc | tests/grok_talking.py:213-221 | what each record adds, whatever its timestamp: a user record with string content adds its human message, an assistant record with string content adds its AI message, and any other record adds nothing |
| ChatLog.RebuildMessages | tests/grok_talking.py:211-222 | the list starts with the system message; every later message is a human or an AI message. It is the system message followed by `Turns`, which `TurnsSnoc` and `TurnsAppend` fix record by record |
| ChatLog.TurnsAppend | tests/grok_talking.py:211-222 | rebuilding is per record in order: the messages of a concatenation are the messages of each part, concatenated |
| ChatLog.TurnsIgnore | tests/grok_talking.py:214-221 | a record with non-string content, or a role other than user and assistant, adds no message |
| ChatLog.ReplacedLog | tests/grok_talking.py:94-102 | With an assistant record, only the last one changes (its timestamp and content) and the length is kept. Without one, exactly one assistant record is appended |
| ChatLog.ReplaceLastAssistant | tests/grok_talking.py:94-102 | the backward loop that rewrites in place leaves the log `ReplacedLog` describes |
| ChatLog.ReplaceKeepsOtherTurns | tests/grok_talking.py:94-102 | after the replacement, rebuilding gives the same messages as before, except the replaced reply, which becomes the new content |
| ChatLog.WithoutOne | tests/grok_talking.py:145 | filtering out one index removes exactly that record and keeps the rest in order |
| ChatLog.WithoutTwo | tests/grok_talking.py:145 | filtering out two indices removes exactly those two records and keeps the rest in order |
| ChatLog.TurnToDrop | tests/grok_talking.py:120-143 | there is a turn to delete iff some record has role "user" |
| ChatLog.DeleteLastTurn | tests/grok_talking.py:115-147 | answers true iff the log has a user record; the log is left unchanged otherwise, and is the filtered log when true |
| ChatLog.KeepOthers | tests/grok_talking.py:145 | the filtering loop keeps exactly the records whose index is not dropped, in order |
| ChatLog.DeletedTurnShape | tests/grok_talking.py:133-147 | Deletion removes the last user record and, if there is one after it, the last assistant record. All other records are kept in order, and the log shrinks by 1 or 2 |
| ChatLog.SessionNames | tests/grok_talking.py:155-159 | a name is kept iff it fully matches `\d+\.jsonl` |
| ChatLog.SortByNumber | tests/grok_talking.py:160 | the sort is a permutation of the session names |
| ChatLog.SortSorted | tests/grok_talking.py:160 | the sorted list is in ascending order of file number |
| ChatLog.ListSessionFiles | tests/grok_talking.py:153-161 | returns exactly the names that match, as a permutation, sorted by ascending number |
| ChatLog.SessionName | tests/grok_talking.py:169 | `f"{n}.jsonl"` is a session name carrying the number `n` |
| ChatLog.FirstName | tests/grok_talking.py:167 | the first session file is "1.jsonl" |
| ChatLog.HighestLast | tests/grok_talking.py:165-168 | the last listed file is one of the directory's session files, and it has the highest number |
| ChatLog.NextNameFresh | tests/grok_talking.py:164-169 | the next name is a session name not already present. It is "1.jsonl" when there is none, and otherwise its number is above every existing one |
| ChatLog.NextSessionFile | tests/grok_talking.py:164-169 | computes the next name whose freshness `NextNameFresh` proves |
| ChatBot.Appended | tests/grok_talking.py:66-69 | `append_log` keeps every record and adds exactly one at the end with the clock value, the role and the content |
| ChatBot.AppendedTurn | tests/grok_talking.py:66-69 | appending a user record adds a human message, and an assistant record an AI message, to what rebuilding gives; any other record adds nothing |
| ChatBot.HeaderNoTurns | tests/grok_talking.py:110-112 | a session header adds no message to what rebuilding gives |
| ChatBot.RolePrefix | tests/telegram_bot_test.py:69-81 | the prefix is "[meta] ", "[error] ", "system> ", "you> " or "grok> " by role, and `{role}> ` for any other role ("unknown" when absent) |
| ChatBot.Rendered | tests/telegram_bot_test.py:68-81 | exactly one line per record, in order |
| ChatBot.ChatLines | tests/telegram_bot_test.py:61-83 | the lines are the header, one per record or "(空)" for none, and the footer |
| ChatBot.FormatFullChat | tests/telegram_bot_test.py:57-84 | the transcript starts with the header and ends with the footer line |
| ChatBot.EmptyChat | tests/telegram_bot_test.py:63-66 | an empty log renders exactly as header, "(空)" and footer on three lines |
| ChatBot.ChatRendering | tests/telegram_bot_test.py:68-84 | a non-empty log renders as the header, then each record's line after a newline, in order, then a newline and the footer |
| ChatBot.SplitLines | tests/telegram_bot_test.py:94 | `splitlines(keepends=True)` gives no empty piece |
| ChatBot.LineLength | tests/telegram_bot_test.py:94 | the first line is one line: no boundary before its ending, which is one boundary character or "\r\n". It stops at a boundary unless it reaches the end of the text. It never ends in a "\r" that is followed by "\n" |
| ChatBot.SplitLinesWellCut | tests/telegram_bot_test.py:94 | every piece is one line. Every piece except the last ends at a line boundary. A piece ending in "\r" is never followed by one that starts with "\n" |
| ChatBot.SplitLinesConcat | tests/telegram_bot_test.py:94 | the pieces concatenate back to the text |
| ChatBot.OneLine | tests/telegram_bot_test.py:94 | a non-empty text without a line boundary is a single piece |
| ChatBot.SendLongText | tests/telegram_bot_test.py:86-102 | sends nothing without a message, otherwise the chunks of the text's lines, in order |
| ChatBot.ChunksConcat | tests/telegram_bot_test.py:93-102 | the chunks sent concatenate to the text; an empty text sends nothing |
| ChatBot.ChunksFit | tests/telegram_bot_test.py:96-102 | every chunk is at most 3900 characters unless it is a single line longer than that |
| ChatBot.EmptyChunkSent | tests/telegram_bot_test.py:97-100 | a text of one line longer than 3900 characters is sent as an empty message followed by the line |
| ChatBot.EmptyChunkExample | tests/telegram_bot_test.py:97-100 | a line of 3901 'a' makes the first message sent empty |
| ChatBot.FixedChunksNonEmpty | tests/telegram_bot_test.py:97-100 | when an empty buffer is never flushed, no empty chunk is sent |
| ChatBot.CommandOf | tests/telegram_bot_test.py:261-321 | the text is an ordinary turn iff it is none of "重置", "刷新", "重写消息", and then the turn carries the text |
| ChatBot.Regenerate | tests/telegram_bot_test.py:271-295 | Under 3 messages, or a last message that is not an AI message, the list is unchanged. On an answer only the last message is replaced and the length is kept. On a failure the popped AI message is not restored |
| ChatBot.Rewrite | tests/telegram_bot_test.py:300-308 | At most two messages are popped from the end, and the first message is never removed. A trailing human/AI pair after the system message is removed. A lone trailing human message is removed. A trailing AI message not preceded by a human one is removed alone. Fewer than two messages, or a list ending in a system message, stay unchanged |
| ChatBot.PopIf | tests/telegram_bot_test.py:302-307 | the last message is popped exactly when there are at least two and it has the asked-for kind; otherwise nothing changes |
| ChatBot.Converse | tests/telegram_bot_test.py:321-336 | a turn appends the human message, then the AI message on an answer; on a failure nothing else is added |
| ChatBot.ResetInStep | tests/telegram_bot_test.py:261-266 | after "重置", the message list is what rebuilding the new log gives |
| ChatBot.ConverseInStep | tests/telegram_bot_test.py:321-336 | an ordinary turn keeps the message list equal to what rebuilding the log gives, on an answer and on a failure |
| ChatBot.FailedRegenerateOutOfStep | tests/telegram_bot_test.py:279-287 | a failed "刷新" leaves the message list different from what rebuilding the log gives, because the log keeps the old reply |
| ChatBot.InitStateFile | tests/telegram_bot_test.py:126-137 | a new chat resumes the existing session file with the highest number, or starts "1.jsonl" when there is none |
| ChatBot.InitStateInStep | tests/telegram_bot_test.py:126-142 | a new chat's message list is what rebuilding its log file gives, and that file exists afterwards |
| ChatBot.Bot.constructor | tests/telegram_bot_test.py:55 | the bot starts with no chat state and the given files |
| ChatBot.Bot.AppendLog | tests/grok_talking.py:66-69 | the file gets exactly one appended record; other files and chat states are unchanged |
| ChatBot.Bot.WriteSessionHeader | tests/grok_talking.py:110-112 | the file gets the meta record and the system record |
| ChatBot.Bot.NewState | tests/telegram_bot_test.py:124-140 | the state and the files are those `InitState` describes |
| ChatBot.Bot.GetOrInitState | tests/telegram_bot_test.py:114-142 | the state and files are what `Fetched` gives: a cached chat gets its state back with nothing written, and a new chat gets the initial state. Either way the state is cached |
| ChatBot.Bot.Reset | tests/telegram_bot_test.py:261-266 | the message list becomes the system message alone, and the log file becomes a fresh header |
| ChatBot.Bot.RegenerateLast | tests/telegram_bot_test.py:271-295 | the messages, the log file and the reply are those `Regenerate`, `RegenerateLog` and `RegenerateReply` describe |
| ChatBot.Bot.RewriteLast | tests/telegram_bot_test.py:300-316 | the messages, the log file and the reply are those `Rewrite`, `RewriteLog` and `RewriteReply` describe |
| ChatBot.Bot.Talk | tests/telegram_bot_test.py:321-336 | the messages, the log (user record, then an assistant or error record) and the reply are those of one turn |
| ChatBot.Bot.Respond | tests/telegram_bot_test.py:256-336 | dispatches on the command and leaves the messages, files and reply the command describes |
| ChatBot.Bot.HandleText | tests/telegram_bot_test.py:242-336 | A missing or empty text changes nothing and sends nothing. Otherwise the chat's state is fetched or created. A blank stripped text leaves it cached and sends nothing. Any other text sets the chat's messages, the log file and the reply to what `EditMessages`, `EditLog` and `EditReply` give for its command. No other chat's state changes |

## Left out

- I/O:
  - File reading, writing and JSON encoding are left out.
    - A log file is the sequence of records it holds.
    - The user file is either missing, unreadable, or the items of its JSON object.
    - `read_log_lines` skipping blank and malformed lines is not modelled, and neither are keys other than `ts_utc`, `role` and `content`.
  - Directory globbing becomes a `listing` parameter of names in arbitrary order.
- Oracles: the clock (`utc_now_iso`), the LLM (`llm.invoke`) and `agent.run` are oracle parameters.
  - A failed LLM call is represented by its error text. The `[ERROR] Type: message` formatting is not built.
  - `getattr(resp, "content", str(resp))` is taken to be a string.
  - An agent reply that is not a string is not modelled.
- The agent classes are out of scope: `base.py`, `onboarding_agent.py`, `control_agent.py` and `moderation_agent.py` are placeholders that return canned dicts. An agent's handler is left abstract.
- Telegram wiring is not modelled:
  - `build_onboarding_conv`, the keyboards and `reply_text`;
  - `build_app.py`, the help and echo handlers, `errors.py`.
  - The `/start`, `/help`, `/where`, `/list`, `/new` and `/use` command handlers of the chat bot script. They are thin replies around operations modelled here: listing, the next file name, rebuilding a chat from a log, rendering and chunking.
- SQLAlchemy is not modelled: sessions, commit and rollback, the `created_at` server timestamp and the auto-increment id.
  - A database error other than the key conflict is not modelled. `try_acquire_idempotency` catches only `IntegrityError` (src/telegram_world_bot/db/dao.py:16-21), so a lost connection or similar error propagates to the caller there; in the model every call succeeds.
  - The `String(128)` length limit of a key is not modelled.
  - Concurrent racing on a key is not modelled: calls are sequential.
- Console loops (`choose_session_file` and both `main`s), `load_dotenv` and `setup_logging`, and the scripts under `scripts/` are not modelled.
- The Python built-ins are modelled only partly:
  - `int()` accepts only ASCII digits, not underscores or other Unicode digits.
  - `upper()` changes only ASCII letters.
  - `\d` and `str.isdigit()` are taken as ASCII digits. Under that reading the chat bot's own `list_session_files` (`stem.isdigit()`) and the one in `tests/grok_talking.py` (`re.fullmatch`) agree, and one model serves both.
- `Session` and `ChatState` objects are values stored in their owner's map. A caller holding a reference to one and mutating it later is not modelled.
- The line `from telegram_world_bot.services.user_store import UserProfile` inside `confirm` is taken to import successfully.
- `Config.Message`: the `InvalidPort` text quotes the literal as-is. Python's `repr` escaping of quotes, backslashes and control characters is not modelled.
- The clock: each handler takes one `now`, and every record it writes carries it. The source calls `utc_now_iso()` once per record, so two records of one call may differ in their stamps there.
- A log line that is valid JSON but not an object makes `.get` raise `AttributeError` (tests/grok_talking.py:82, 97, 127, 206, 214). The model's records are always objects, so that crash is not modelled.
- ChatLog.NextSessionFile: its contract only ties the result to `NextName`. That the name is fresh and numbered above every existing file is proved about `NextName` in `ChatLog.NextNameFresh`.

## Findings

| source | as written | input that shows it | evidently intended | confidence | as-written member | corrected member |
|---|---|---|---|---|---|---|
| tests/telegram_bot_test.py:97-100 | `send_long_text` flushes the buffer whenever the next line would overflow it, even when the buffer is empty, so it sends an empty message (which Telegram refuses) before an over-long first line | a text of one line of 3901 'a' characters | flush only a non-empty buffer, so every message sent is non-empty. The bug is latent: its only caller, `cmd_use` (tests/telegram_bot_test.py:238-239), always starts the text with a short header line. Were it reached, `reply_text("")` would raise rather than send | not executed | ChatBot.EmptyChunkExample | ChatBot.FixedChunksNonEmpty |
