# Asterisk AI voice agent: a verified model of five core pieces

This project models, in Dafny, five pieces of an AI voice agent that answers
Asterisk telephone calls:

- **Call troubleshooting** (`agent troubleshoot`, Go). The command discovers recent call
  identifiers in the `ai_engine` container logs. It picks the newest call or the one it
  is given, keeps the log lines that mention that call, and classifies them into
  errors, warnings, audio issues and pipeline flags. It then prints a findings report with
  capped sections and rule-based recommendations, or lists the twenty newest calls.
  Modules `Troubleshoot` (troubleshoot.dfy) and `Text` (text.dfy, the string operations
  the tool relies on).
- **Model switching in the local AI server** (Python). A JSON request
  switches STT/TTS backends and model paths on an immutable configuration record, and
  the server keeps a log of what changed. Module `ControlPlane` (control_plane.dfy).
- **The admin UI's configuration API** (Python). It reads a `.env` file into a map,
  merges updates into the `.env` lines, and sets one field of one provider in the YAML
  configuration. Module `ConfigApi` (config_api.dfy).
- **The conversation coordinator** (Python). It tracks per-call barge-in
  attempts while text-to-speech plays, forwards TTS gating to the session store, updates
  conversation state and summarises the metrics. Module `Coordinator` (coordinator.dfy).
  The coordinator is a class whose fields are the two barge-in maps and the session
  store.
- **The WAV quality analyser** (Python). It guesses a WAV file's encoding,
  brings the samples to 16-bit PCM, counts zero crossings and clipped samples, computes
  per-frame RMS statistics and recommends an end-to-end format. Module `WavQuality`
  (wav_quality.dfy).

`Wrappers` (wrappers.dfy) holds the `Option` and `Result` datatypes.

How the model is organised:

- Loops in the source are methods with loop invariants. Each method is proved equal to a
  specification function.
- The properties the source relies on are lemmas about those functions. Examples:
  discovery ranks call identifiers newest first, a filter keeps exactly the matching
  lines, a `.env` update whose keys and values hold no line break reads back as
  written, and barge-ins are counted once per
  playback.
- External effects become parameters:
  - the output of `docker logs` is a `Result<string, string>`;
  - the current time is an integer;
  - a file's contents are an `Option` of its text (or of its parsed YAML document);
  - the session store's answer to set/clear gating is a boolean, and the sessions it
    holds afterwards are a map;
  - `audioop.rms` is a function parameter;
  - `audioop.ulaw2lin` is an `Option` of bytes.

To verify the project, give all its files to Dafny 4.11 together, with a resource limit
per proof and the warning for proofs that rest on contradictory assumptions:

    dafny verify --resource-limit 2000000 --verification-time-limit 0 --warn-contradictory-assumptions *.dfy

## Model

| member | source | states |
|---|---|---|
| Troubleshoot.GetRecentCalls | cli/internal/troubleshoot/troubleshoot.go:148-189 | a log-read failure becomes "failed to read logs: …"; otherwise the calls are exactly the distinct identifiers discovered in the log lines, ranked strictly newest first and cut at the limit, each stamped with the current time |
| Troubleshoot.CallMap | cli/internal/troubleshoot/troubleshoot.go:155-172 | the map's keys are exactly the identifiers discovered in the lines, each mapped to a fresh call record |
| Troubleshoot.NewestFirst | cli/internal/troubleshoot/troubleshoot.go:174-182 | the map's records come out ranked by identifier, greatest first, with every key present and each record the map's own |
| Troubleshoot.SortDescending | cli/internal/troubleshoot/troubleshoot.go:180-182 | the identifiers come out strictly descending and every one of them is present |
| Troubleshoot.GreatestId | cli/internal/troubleshoot/troubleshoot.go:180-182 | returns the member of a non-empty set that is greater than all the others |
| Troubleshoot.RankedPrefix | cli/internal/troubleshoot/troubleshoot.go:184-186 | cutting a complete ranking at the limit gives the ranking with that limit |
| Troubleshoot.RankedUnique | cli/internal/troubleshoot/troubleshoot.go:174-186 | there is only one ranking of a set under a limit, so the order after sorting does not depend on map iteration order |
| Troubleshoot.NewestIsGreatest | cli/internal/troubleshoot/troubleshoot.go:85 | the first entry of a non-empty ranking is the greatest identifier discovered |
| Troubleshoot.IdLessTrans | cli/internal/troubleshoot/troubleshoot.go:181 | string comparison of identifiers is transitive |
| Troubleshoot.IdLessTotal | cli/internal/troubleshoot/troubleshoot.go:181 | two different identifiers are ordered one way or the other |
| Troubleshoot.IdLessIrreflexive | cli/internal/troubleshoot/troubleshoot.go:181 | no identifier sorts before itself |
| Troubleshoot.DescendingAppend | cli/internal/troubleshoot/troubleshoot.go:180-182 | appending an identifier below all present ones keeps the sequence strictly descending |
| Troubleshoot.CaptureFromSpec | cli/internal/troubleshoot/troubleshoot.go:158 | a capture at a position is a `digits.digits` identifier matched by `call_id[=:]\s*([0-9]+\.[0-9]+)` there; no capture means no match starts there |
| Troubleshoot.MatchIsGreedy | cli/internal/troubleshoot/troubleshoot.go:158 | a match takes all the spaces and all the digits before and after the dot |
| Troubleshoot.FirstCaptureSpec | cli/internal/troubleshoot/troubleshoot.go:162 | the scan returns the leftmost position's capture, or none when no position has one |
| Troubleshoot.FindFromSpec | cli/internal/troubleshoot/troubleshoot.go:162 | the leftmost capture at or after a position is found, and nothing is found only when there is none |
| Troubleshoot.FindCallIdSpec | cli/internal/troubleshoot/troubleshoot.go:162-164 | `FindStringSubmatch` finds nothing exactly when the line has no match; otherwise it returns the capture of the leftmost match |
| Troubleshoot.DiscoveredIdsMembers | cli/internal/troubleshoot/troubleshoot.go:160-172 | an identifier is discovered exactly when some log line's first match captures it |
| Troubleshoot.DiscoveredIdsAreCallIds | cli/internal/troubleshoot/troubleshoot.go:158-164 | every discovered identifier has the `digits.digits` form |
| Troubleshoot.KeepMembers | cli/internal/troubleshoot/troubleshoot.go:204-208 | a line is kept exactly when it is in the input and passes the test |
| Troubleshoot.KeepIsSubsequence | cli/internal/troubleshoot/troubleshoot.go:204-208 | the kept lines keep their original order |
| Troubleshoot.KeepIdempotent | cli/internal/troubleshoot/troubleshoot.go:204-208 | filtering twice keeps the same lines as filtering once |
| Troubleshoot.CollectCallData | cli/internal/troubleshoot/troubleshoot.go:192-211 | a log-read failure is returned unchanged; otherwise the result is the lines containing the call identifier, joined by newlines |
| Troubleshoot.CollectedLinesRoundTrip | cli/internal/troubleshoot/troubleshoot.go:199-210 | splitting the collected text again gives back exactly the kept lines, and each contains the identifier |
| Troubleshoot.ClassifyMeaning | cli/internal/troubleshoot/troubleshoot.go:227-273 | the errors and warnings are exactly the matching lines in order; the audio issues are the per-line findings in order; each pipeline flag holds exactly when some line mentions it |
| Troubleshoot.ScanLine | cli/internal/troubleshoot/troubleshoot.go:236-270 | one loop iteration updates the analysis as the per-line classification says |
| Troubleshoot.AnalyzeBasic | cli/internal/troubleshoot/troubleshoot.go:227-273 | the analysis of the split log text: errors, warnings, audio issues and flags as in the classification, no metrics |
| Troubleshoot.AudioIssuesBound | cli/internal/troubleshoot/troubleshoot.go:261-269 | a line yields at most three audio issues |
| Troubleshoot.UnderflowFindingPerLine | cli/internal/troubleshoot/troubleshoot.go:261-263 | the buffer-underflow finding appears once per line that mentions "underflow" |
| Troubleshoot.WarningIsWarn | cli/internal/troubleshoot/troubleshoot.go:245 | the "warning" test is subsumed by "warn": a line is a warning exactly when its lower case contains "warn" |
| Troubleshoot.ZeroErrorsNotAnError | cli/internal/troubleshoot/troubleshoot.go:240 | a line reporting "0 errors" is never counted as an error |
| Troubleshoot.UpperCaseErrorIsError | cli/internal/troubleshoot/troubleshoot.go:237-240 | matching is case-insensitive: a line with "ERROR" is an error unless it reads "0 error" |
| Troubleshoot.Truncate | cli/internal/troubleshoot/troubleshoot.go:392-397 | short strings are returned unchanged; longer ones are cut to the limit, keep their first limit−3 characters and end in "..." |
| Troubleshoot.TruncDiv | cli/internal/troubleshoot/troubleshoot.go:384-389 | Go integer conversion of a duration quotient truncates toward zero |
| Troubleshoot.FormatDurationMeaning | cli/internal/troubleshoot/troubleshoot.go:382-390 | under a minute the text is whole seconds plus 's', under an hour whole minutes plus 'm', otherwise whole hours plus 'h'; each number reads back as the truncated quotient |
| Troubleshoot.NumberWithUnit | cli/internal/troubleshoot/troubleshoot.go:384-389 | a number followed by its unit letter parses back to the number |
| Troubleshoot.CappedSectionShape | cli/internal/troubleshoot/troubleshoot.go:313-342 | a non-empty section is the count header, the first `cap` items numbered from 1 and truncated to 100 characters, "… and N more" when items were dropped, and a blank line |
| Troubleshoot.RenderCapped | cli/internal/troubleshoot/troubleshoot.go:313-342 | the printing loop produces exactly the capped section |
| Troubleshoot.Numbered | cli/internal/troubleshoot/troubleshoot.go:319-321 | line i is the i-th item, numbered i+1 and cut to 100 characters |
| Troubleshoot.Bulleted | cli/internal/troubleshoot/troubleshoot.go:306-308 | line i is the i-th issue as a bullet |
| Troubleshoot.RenderIssues | cli/internal/troubleshoot/troubleshoot.go:304-310 | the audio-issue loop prints the header with the count, one bullet per issue and a blank line, or nothing when there are none |
| Troubleshoot.DisplayFindings | cli/internal/troubleshoot/troubleshoot.go:276-346 | prints the banner, the pipeline status, the issue, error and warning sections, then the recommendations |
| Troubleshoot.RecommendationRules | cli/internal/troubleshoot/troubleshoot.go:349-369 | the AudioSocket checks appear exactly when no AudioSocket was seen; the doctor and network checks exactly when audio issues were found; the error-log checks exactly when there are more than 10 errors |
| Troubleshoot.Pad2 | cli/internal/troubleshoot/troubleshoot.go:136 | `%2d` right-aligns a one-digit number in two columns and leaves longer numbers alone |
| Troubleshoot.CallLinesAt | cli/internal/troubleshoot/troubleshoot.go:133-141 | line i of the listing shows call i: its number i+1 in two columns, its identifier, its age at the listing time, and its duration when it has one |
| Troubleshoot.RenderCallLines | cli/internal/troubleshoot/troubleshoot.go:133-141 | the listing loop produces the listing lines of all calls |
| Troubleshoot.ListCalls | cli/internal/troubleshoot/troubleshoot.go:121-145 | the list-mode output: "no recent calls" when empty, otherwise the count header, the call lines and the usage hint |
| Troubleshoot.ListedCallsRanked | cli/internal/troubleshoot/troubleshoot.go:121-145 | for the calls discovery ranks under 20: "No recent calls found" exactly when no call was found; otherwise line i+2 lists the i-th of the min(found, 20) newest identifiers, which are strictly descending and all discovered |
| Troubleshoot.SelectCall | cli/internal/troubleshoot/troubleshoot.go:71-88 | an explicit identifier is kept; for "" or "last" a log failure is wrapped twice, no discovered call gives "no calls to analyze" after the tips, otherwise the newest discovered call is chosen and announced |
| Troubleshoot.InvestigateCall | cli/internal/troubleshoot/troubleshoot.go:90-117 | a collection failure gives "failed to collect data: …"; collect-only returns the call's log text; otherwise the analysis of the call's lines (errors, warnings and audio issues as classified) and its findings report, followed by the interactive stub when asked; the progress lines printed in each case |
| Troubleshoot.Run | cli/internal/troubleshoot/troubleshoot.go:59-118 | everything printed, banner included, and the outcome: in list mode the ranked 20 newest calls and their listing; otherwise each error path's message, success whenever a call is chosen and its log read, the newest call when none is given, and the analysis of exactly that call's lines |
| Text.ContainsAt | cli/internal/troubleshoot/troubleshoot.go:205 | `strings.Contains` holds exactly when the substring occurs at some position |
| Text.Lower | cli/internal/troubleshoot/troubleshoot.go:237 | lower-casing keeps the length and maps each character |
| Text.JoinSplit | cli/internal/troubleshoot/troubleshoot.go:200-210 | joining the pieces of a split with the same separator gives back the text |
| Text.SplitJoin | cli/internal/troubleshoot/troubleshoot.go:201-210 | splitting a join of separator-free pieces gives back the pieces |
| Text.Strip | admin_ui/backend/api/config.py:66 | `str.strip` returns the run of the text between a whitespace-only prefix and a whitespace-only suffix, and the run neither starts nor ends with whitespace |
| Text.StripNewline | admin_ui/backend/api/config.py:95 | a trailing newline does not change what `strip` returns |
| Text.IntToStringParses | local_ai_server/control_plane.py:55-57 | a printed integer parses back to itself |
| Text.Basename | local_ai_server/control_plane.py:26 | `os.path.basename` returns a suffix of the path without a slash, preceded by a slash when shorter than the path |
| ControlPlane.StripOr | local_ai_server/control_plane.py:17 | `(v or default).strip()` fails exactly on a truthy non-string and never lengthens a string |
| ControlPlane.NormalizeOr | local_ai_server/control_plane.py:94-97 | lower-casing after the strip fails exactly when the strip fails |
| ControlPlane.BackendAfter | local_ai_server/control_plane.py:16-20 | the backend either stays or becomes one of the whitelisted names, and stays when the key is absent |
| ControlPlane.RenderReadBack | local_ai_server/control_plane.py:20 | a log entry `name=text` reads back: the first '=' ends the field's name and the entry's text follows it |
| ControlPlane.ChangedReadBack | local_ai_server/control_plane.py:13-117 | the i-th returned string reads back as the i-th change: field name before the first '=', text after it |
| ControlPlane.JustifiedLog | local_ai_server/control_plane.py:10-117 | in a justified log, URL and key fields read `=updated`, backend entries name a whitelisted backend, and path entries carry a bare file name |
| ControlPlane.WithPath | local_ai_server/control_plane.py:22-32 | replacing one path field sets that field and leaves every other field alone |
| ControlPlane.SetSttBackend | local_ai_server/control_plane.py:16-20 | a non-string truthy value raises; a whitelisted normalised name is set and logged; anything else is ignored |
| ControlPlane.RouteSttModelPath | local_ai_server/control_plane.py:22-32 | `stt_model_path` goes to the sherpa path, the kroko path or the STT path according to the current backend and is logged under that field; nothing else changes |
| ControlPlane.SetPath | local_ai_server/control_plane.py:34-42 | a string path is set and logged by its basename; a non-string raises |
| ControlPlane.SetKrokoLanguage | local_ai_server/control_plane.py:44-47 | the language is stored as given and logged by its printed form |
| ControlPlane.SetKrokoUrl | local_ai_server/control_plane.py:49-51 | the URL is stored and logged as `kroko_url=updated` |
| ControlPlane.SetKrokoPort | local_ai_server/control_plane.py:53-59 | an integer-convertible value is stored and logged; anything else is silently ignored |
| ControlPlane.SetKrokoEmbedded | local_ai_server/control_plane.py:61-67 | a string is true exactly for 1/true/yes/y/on after normalising; otherwise Python truthiness; logged as 1 or 0 |
| ControlPlane.SetTtsBackend | local_ai_server/control_plane.py:74-78 | as for STT, with the piper/kokoro/melotts whitelist |
| ControlPlane.RouteTtsModelPath | local_ai_server/control_plane.py:80-87 | `tts_model_path` goes to the piper path when piper is current, else to the kokoro path, and is logged under that field |
| ControlPlane.SetKokoroVoice | local_ai_server/control_plane.py:89-92 | the voice is stored as given and logged by its printed form |
| ControlPlane.SetKokoroMode | local_ai_server/control_plane.py:94-97 | the mode is normalised with "local" as default, stored and logged |
| ControlPlane.SetKokoroApiBaseUrl | local_ai_server/control_plane.py:104-106 | the stripped URL is stored and logged only as `=updated` |
| ControlPlane.SetKokoroApiKey | local_ai_server/control_plane.py:108-110 | the stripped key is stored and logged only as `=updated` |
| ControlPlane.SetKokoroApiModel | local_ai_server/control_plane.py:112-115 | the stripped model name, with "model" as default, is stored and logged |
| ControlPlane.ApplySttModel | local_ai_server/control_plane.py:16-42 | the STT stage: failure conditions, the new backend, and the three STT paths, with explicit sherpa/kroko keys winning over routed ones; the log grows by the backend entry and the path entries in handler order |
| ControlPlane.ApplyKrokoSettings | local_ai_server/control_plane.py:44-72 | the kroko and LLM stage: each field as its key says, failure exactly on a non-string LLM path, and one log entry per applied key in handler order |
| ControlPlane.ApplyTtsModel | local_ai_server/control_plane.py:74-87 | the TTS stage: the new backend and the routed TTS path, nothing else changed, and their log entries in order |
| ControlPlane.ApplyKokoroSettings | local_ai_server/control_plane.py:89-115 | the kokoro stage: each field as its key says, failing exactly on a value the handler cannot strip or take the basename of, and one log entry per applied key in handler order |
| ControlPlane.ApplySwitchModelRequest | local_ai_server/control_plane.py:10-117 | succeeds exactly on an acceptable request; an empty request changes nothing; every field ends as the ordered handler sets it; the log is one entry per applied key in handler order, with `stt_model_path`/`tts_model_path` under the field the new backend routes them to; the returned strings render it entry by entry; secrets are never echoed |
| ConfigApi.SplitSetting | admin_ui/backend/api/config.py:68 | `split('=', 1)` gives a key without '=' and a value that rebuild the line |
| ConfigApi.FileLinesShaped | admin_ui/backend/api/config.py:64-65 | reading a text file in text mode gives lines that each hold exactly one "\n", at their end, except a last line without a break, and no "\r" |
| ConfigApi.WrittenReadsBack | admin_ui/backend/api/config.py:124-125 | lines of that shape, written one after the other with `writelines`, read back as the same lines |
| ConfigApi.GetEnvConfig | admin_ui/backend/api/config.py:59-72 | a missing file gives an empty map; otherwise the file's text, read in text mode ("\r\n" and "\r" as "\n"), is parsed line by line |
| ConfigApi.ReadLines | admin_ui/backend/api/config.py:64-71 | the reading loop produces the parse of all lines |
| ConfigApi.ReadEnvPrefix | admin_ui/backend/api/config.py:65-69 | each line either fails the parse (no '='), sets its key, or is skipped as blank or comment |
| ConfigApi.ReadEnvFailureSticks | admin_ui/backend/api/config.py:70-71 | once a line fails, the whole request fails with that error |
| ConfigApi.ReadEnvFails | admin_ui/backend/api/config.py:65-71 | the parse fails, with status 500, exactly when some content line has no '=' |
| ConfigApi.ReadEnvKeys | admin_ui/backend/api/config.py:65-69 | the keys of the result are exactly the keys of the content lines |
| ConfigApi.ReadEnvLast | admin_ui/backend/api/config.py:69 | a key's value is the one of its last setting line |
| ConfigApi.LineKey | admin_ui/backend/api/config.py:95-98 | the key recorded for a line contains no '=' |
| ConfigApi.KeyLinesLast | admin_ui/backend/api/config.py:93-99 | a key is in the line map exactly when some line sets it, and the map gives its last such line |
| ConfigApi.KeyLineMap | admin_ui/backend/api/config.py:93-99 | the indexing loop builds that line map |
| ConfigApi.Terminated | admin_ui/backend/api/config.py:102-106 | the copied lines keep their count, and only the last gains a newline when it had none |
| ConfigApi.MergeSettings | admin_ui/backend/api/config.py:108-122 | the merge loop's result equals the fold of the updates over the terminated lines |
| ConfigApi.MergeFoldClosed | admin_ui/backend/api/config.py:108-122 | that fold is the closed form: known keys replaced in place, new keys appended in order |
| ConfigApi.MergeItem | admin_ui/backend/api/config.py:110-122 | one update skips an empty key, replaces a known key's line, or appends a new line |
| ConfigApi.UpdateEnv | admin_ui/backend/api/config.py:86-125 | the new lines are the merged lines of the file's lines, as read in text mode, and the updates; the text written is those lines one after the other |
| ConfigApi.OldLineShape | admin_ui/backend/api/config.py:102-117 | an original line is kept, or replaced by the setting of the key that was last set on it |
| ConfigApi.NewLineShape | admin_ui/backend/api/config.py:118-120 | every line past the original ones sets a new, non-empty key from the updates |
| ConfigApi.AppendedCount | admin_ui/backend/api/config.py:118-120 | exactly one line is appended per new key |
| ConfigApi.SettingPosition | admin_ui/backend/api/config.py:113-120 | every update with a non-empty key has its `key=value` line, at the key's old line when it had one and after the old lines otherwise |
| ConfigApi.SettingLineRead | admin_ui/backend/api/config.py:66-69 | a written `key=value` line reads back as that key and, for a plain value, that value; written to a file alone it reads back as one line when neither key nor value holds a line break |
| ConfigApi.MergedShaped | admin_ui/backend/api/config.py:102-122 | merging settings without line breaks into a read file gives lines shaped as read lines, each ending in "\n" |
| ConfigApi.MergedReadable | admin_ui/backend/api/config.py:59-125 | when the file parsed before an update whose keys are plain and whose values hold no line break, the written file reads back as the merged lines and still parses |
| ConfigApi.LastSetting | admin_ui/backend/api/config.py:108-120 | among the merged lines, each update's line reads back as its pair, and no later line sets that key differently |
| ConfigApi.UpdateThenRead | admin_ui/backend/api/config.py:59-125 | writing the merged file and reading it back gives each plain key its new value, when no key or value of the update holds a line break |
| ConfigApi.LineBreakInjects | admin_ui/backend/api/config.py:59-125 | a value holding "\n" is written as two lines: setting `k` to `a + "\n" + k2 + "=" + b` on an empty file reads back as `k` set to `a` and `k2` set to `b` |
| ConfigApi.UpdateYamlProviderField | admin_ui/backend/api/config.py:344-384 | succeeds exactly when the loaded document is a non-empty mapping with editable providers; then the field holds the value, and every other entry, provider and field is kept |
| Coordinator.Register | src/core/conversation_coordinator.py:62-66 | registering clears the call's seen flag, keeps an existing total (or starts at 0), touches no other call and keeps the ledger consistent |
| Coordinator.Unregister | src/core/conversation_coordinator.py:71-76 | unregistering drops the call from both maps and touches no other call |
| Coordinator.Note | src/core/conversation_coordinator.py:110-119 | noting audio marks the call seen and adds one to its total only when it was not yet seen |
| Coordinator.Regate | src/core/conversation_coordinator.py:100-102 | a successful gating change re-arms barge-in detection for the call and leaves the totals alone |
| Coordinator.NoteOncePerCycle | src/core/conversation_coordinator.py:115-119 | noting twice is the same as noting once |
| Coordinator.NoteTotal | src/core/conversation_coordinator.py:118 | the sum of totals grows by one exactly on a first barge-in |
| Coordinator.CycleCountsOne | src/core/conversation_coordinator.py:83-119 | after a re-gating, any number of audio notes adds exactly one barge-in |
| Coordinator.RegisterTotals | src/core/conversation_coordinator.py:62-76 | registering keeps the total sum; unregistering subtracts the call's total |
| Coordinator.SumUpdate | src/core/conversation_coordinator.py:118 | the sum of a map after setting one key changes by the difference |
| Coordinator.CountBound | src/core/conversation_coordinator.py:180-181 | a count of sessions never exceeds the number of sessions |
| Coordinator.StateUpdated | src/core/conversation_coordinator.py:121-132 | an accepted state is written to a stored session; an unknown state or call changes nothing |
| Coordinator.StateUpdateIdempotent | src/core/conversation_coordinator.py:121-132 | updating to the same state twice is updating once, and stored states stay among the accepted ones |
| Coordinator.ConversationCoordinator.constructor | src/core/conversation_coordinator.py:51-56 | both barge-in maps start empty and the ledger is consistent |
| Coordinator.ConversationCoordinator.RegisterCall | src/core/conversation_coordinator.py:62-69 | the ledger becomes `Register` of the old one and the store is unchanged |
| Coordinator.ConversationCoordinator.UnregisterCall | src/core/conversation_coordinator.py:71-77 | the ledger becomes `Unregister` of the old one |
| Coordinator.ConversationCoordinator.OnTtsStart | src/core/conversation_coordinator.py:83-90 | returns the store's answer, re-arms detection only when the store accepted the token, and takes the sessions the store leaves |
| Coordinator.ConversationCoordinator.OnTtsEnd | src/core/conversation_coordinator.py:92-104 | returns the store's answer, re-arms detection only when the token was cleared, and takes the sessions the store leaves |
| Coordinator.ConversationCoordinator.CancelTts | src/core/conversation_coordinator.py:106-108 | behaves as the end of playback |
| Coordinator.ConversationCoordinator.NoteAudioDuringTts | src/core/conversation_coordinator.py:110-119 | the ledger becomes `Note` of the old one |
| Coordinator.ConversationCoordinator.UpdateConversationState | src/core/conversation_coordinator.py:121-133 | the store becomes `StateUpdated` of the old one and the ledger is unchanged |
| Coordinator.ConversationCoordinator.GetSummary | src/core/conversation_coordinator.py:177-187 | gating and capture-disabled counts are the numbers of matching sessions, each at most the number of sessions; the barge-in total is the sum of totals |
| Coordinator.CountSessions | src/core/conversation_coordinator.py:180-181 | the counting loop counts the sessions that satisfy the test |
| Coordinator.SumTotals | src/core/conversation_coordinator.py:182 | the summing loop returns the sum of the totals |
| WavQuality.GuessFormat | scripts/wav_quality_analyzer.py:94-100 | pcm16 exactly for width 2 and no compression, mulaw exactly for width 1, unknown otherwise |
| WavQuality.ToPcm16 | scripts/wav_quality_analyzer.py:118-133 | empty input gives empty; width 2 is used as is; μ-law decoding is used when it succeeds, on the main path for width 1 or a mulaw guess, else as the fallback; raw bytes otherwise |
| WavQuality.Sample | scripts/wav_quality_analyzer.py:148 | a little-endian byte pair reads as a signed 16-bit sample |
| WavQuality.SamplesRoundTrip | scripts/wav_quality_analyzer.py:148 | encoding samples and unpacking them with `<h` gives them back |
| WavQuality.ZeroCrossingsCount | scripts/wav_quality_analyzer.py:143-151 | the zero-crossing count is the number of positions where the sign of "greater than zero" changes |
| WavQuality.CountZeroCrossings | scripts/wav_quality_analyzer.py:144-151 | the loop returns the zero-crossing count |
| WavQuality.Clips | scripts/wav_quality_analyzer.py:155-159 | at most one clip per sample |
| WavQuality.ClipsMonotone | scripts/wav_quality_analyzer.py:158 | a higher clip threshold never counts more clips |
| WavQuality.ClipsAll | scripts/wav_quality_analyzer.py:158 | a threshold of zero or below counts every sample |
| WavQuality.CountClips | scripts/wav_quality_analyzer.py:155-159 | the loop returns the clip count |
| WavQuality.AnalyzeBase | scripts/wav_quality_analyzer.py:136-162 | empty audio gives all zeros; otherwise the sample count, fewer crossings than samples and at most one clip per sample |
| WavQuality.FrameBytes | scripts/wav_quality_analyzer.py:169-171 | the frame size is positive: the computed size, else 320 at 8 kHz, else an even size of at least 2 |
| WavQuality.FrameRmsAt | scripts/wav_quality_analyzer.py:177-181 | value i is the RMS of the i-th whole frame, which lies inside the audio |
| WavQuality.SliceFrames | scripts/wav_quality_analyzer.py:173-181 | the framing loop returns one RMS per whole frame |
| WavQuality.CountSilence | scripts/wav_quality_analyzer.py:182-183 | the loop counts the frames below the silence threshold |
| WavQuality.CountBelowAll | scripts/wav_quality_analyzer.py:182-183 | all frames are silent exactly when each is below the threshold, and none exactly when each is at or above it |
| WavQuality.SeqMin | scripts/wav_quality_analyzer.py:188 | the minimum is one of the values and no value is smaller |
| WavQuality.SeqMax | scripts/wav_quality_analyzer.py:189 | the maximum is one of the values and no value is larger |
| WavQuality.AnalyzeFrames | scripts/wav_quality_analyzer.py:165-203 | no audio or a non-positive rate gives zero stats; an odd frame size raises `audioop.error` exactly when there is a whole frame; otherwise the frame count is the number of whole frames, silence is at most that, and min ≤ max are the extremes of the frame RMS values |
| WavQuality.RecommendationFamilies | scripts/wav_quality_analyzer.py:206-222 | the telephony advice exactly at 8000 Hz, the wideband advice exactly at 16000 or 24000 Hz, the generic advice for every other rate |

## Left out

- Process execution and terminal colours: `docker logs` output, the clock and file reads
  and writes are parameters or results. Printed output is modelled as the list of lines,
  in `Troubleshoot.Run` from the banner on; the error a run returns is printed by its
  caller, which is not part of this model. The troubleshooting command writes no files,
  although its collect-only message says "Files saved to logs/"; the model prints that
  message as the source does.
- The interactive follow-up of the troubleshooting command is only a fixed banner in the
  source and is modelled as those lines.
- Go strings are bytes and Python strings are Unicode. Here both are sequences of
  characters: lower-casing is the ASCII case, Python's whitespace (`str.strip`) is its
  full Unicode set and Go's regular-expression `\s` is ASCII whitespace, and `truncate`
  counts characters rather than bytes.
- Troubleshoot.FormatDurationMeaning: `time.Duration` is integer nanoseconds here, and
  the float conversions `d.Seconds()`, `d.Minutes()` and `d.Hours()` are taken as exact
  before `int()` truncates.
- Troubleshoot.NewestFirst: `sort.Slice` over the map is modelled by repeatedly taking the
  greatest remaining identifier. Identifiers are distinct, so the result is the same
  ranking, but no in-place array sort is modelled.
- Troubleshoot.Run: the call timestamps are not refined from log timestamps, because
  the source does not do it either. Go reads `time.Now()` once per new identifier
  (troubleshoot.go:168) and `time.Since` once per listed call (troubleshoot.go:134); the
  model takes one reading for discovery and one for listing, so it ignores the time the
  loops themselves take.
- ControlPlane: the `replace` of a dataclass is a datatype update. Python values are
  limited to None, booleans, integers and strings.
- ControlPlane.SetKrokoPort: `int()` of a string is read as optional surrounding whitespace,
  an optional sign and ASCII digits, in base 10. The non-ASCII decimal digits that
  Python's `int()` also accepts (for example "٨٠٨٠" is 8080), underscores between
  digits, and floats are not modelled.
- The YAML and ZIP import/export, backup, provider-test and other HTTP handlers of the
  configuration API are not part of this model. Only the `.env` read, the `.env` update
  and the provider-field update are.
- ConfigApi.UpdateEnv: a `Dict` is modelled as a sequence of distinct keys in insertion order.
  The backup copy and the file write are left out.
- ConfigApi.UpdateThenRead: stated for keys without '=', surrounding whitespace or a
  leading '#' and for values without surrounding whitespace, and only when no key or
  value holds a line break ("\n" or "\r"). Other keys and values are written the same
  way but may read back differently. A line break inside a key or value is written
  as it is and splits the setting into several lines when the file is read back, so a
  value can set another key (ConfigApi.LineBreakInjects). The written text uses "\n",
  as Python's text mode does on POSIX; its translation to "\r\n" on Windows is not
  modelled.
- ConfigApi.UpdateYamlProviderField: YAML loading and dumping and the file system are
  parameters. An exception while writing is not modelled. The document is a tree with
  string keys: YAML anchors and aliases, which make PyYAML share one dict between
  several places, are not modelled, so an edit through one alias is not seen at the
  others. Scalars other than null, booleans, integers and strings are kept only as
  their text and truth value. A mapping is a Dafny `map`, which has no order, so the
  model does not say that the dump keeps the loaded key order (`sort_keys=False`,
  config.py:379) or that a provider or field that is new goes last.
- ConfigApi.GetEnvConfig: the result is a Dafny `map`, so the insertion order of the
  Python dict (first appearance of each key in the file) is not modelled. Only which
  key maps to which value is stated.
- The coordinator's asyncio fallback timers (`schedule_capture_fallback`,
  `_cancel_capture_fallback`, `get_pending_timer_count`), its Prometheus gauges and
  `sync_from_session` only schedule tasks or publish metrics. They are left out.
  The session store (session_store.py) is not part of this model: its set/clear gating
  answers and the sessions it holds after them are parameters, and its sessions are a
  map field.
- WavQuality: the float statistics (zero-crossing rate, clip ratio, RMS mean and
  standard deviation, silence ratio, duration) are left out, and so are the report
  formatting and the command line. `audioop.rms`, `avg` and `max` are inputs, and `ulaw2lin`'s
  outcome is an `Option`.
- WavQuality.FrameBytes: `int(rate * frame_ms / 1000.0 * 2)` is computed in floating point
  and is passed in as an integer. Only the fallback branch is modelled exactly.
- WavQuality.AnalyzeBase: PCM of odd length is excluded. On such input the source's
  first call, `audioop.rms(pcm16, 2)` (wav_quality_analyzer.py:139), raises "not a whole
  number of frames"; the model does not return that error.
- WavQuality.Recommendation: its text is modelled. RecommendationFamilies states
  which of the three advice families is chosen; it says nothing about the rate and
  format printed inside the generic and wideband texts.
