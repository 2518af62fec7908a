# Oracle AI Accelerator: a verified model of its core logic

This project models, in Dafny, the logic of the Oracle AI Accelerator, a Streamlit application. It covers:

- the voice-chat page and its realtime speech session;
- the Agent Builder's `DBMS_CLOUD_AI_AGENT` script generation and the agent service's attribute normalisers;
- the quiz page, its database layer and its report page;
- the Select AI prompt handling and agent queries, and the Select AI table-creation flow;
- the login helpers;
- the database connection singleton.

Each source file is one Dafny module, except three that are split in two: app/pages/app_agent_builder.py into `AgentBuilder` (node data and scripts) and `PlsqlBlock` (the PL/SQL block text); app/services/database/quiz.py into `QuizDb` (uploads and inserts) and `QuizQueries` (the report queries); app/pages/app_quiz.py into `QuizSelect` (question selection and the evaluation name) and `QuizPage` (the quiz session). The helper modules are:

- `Wrappers` (`Option`, `Result`);
- `Strings` (Python's `strip`, `split`, `join`, `splitlines`, `replace` of one character by two, `upper`, digit filtering and the reading of a quoted SQL literal);
- `PyJson` (the Python values held in dictionaries, `json.dumps` with and without `ensure_ascii` and `indent=4`, truthiness, and `str()` of scalars);
- `Queues` (the `queue.Queue` objects shared by the speech pipeline).

Code that changes state step by step is modelled with classes, `modifies` clauses and loop methods:

- the voice session's `st.session_state`;
- the audio processor, the realtime client and its send and session loops;
- the quiz session;
- the insert loops of the quiz database layer;
- the row loops of the table-creation flow;
- the login session;
- the connection singleton.

Each such method is proved against a specification function, and the properties are proved about that function. Builders, parsers and validators are functions with lemmas.

Things the program does not control become parameters:

- clocks, `random.sample` and `random.shuffle`;
- `json.loads` and `ast.literal_eval`;
- the text-to-speech and LLM calls, `DBMS_CLOUD_AI.GENERATE`;
- the database cursor and the Oracle driver.

A database statement that raises is modelled as a fault at a given statement index, and a driver call that fails as a boolean.

Behaviour the model keeps as written, although it may surprise a reader.

Voice chat and speech session:

- A transcription that is final while `speech_processing_llm` is set is logged but never queued for the LLM (`SpeechPage.VoiceSession.HandleResult`).
- Turn ids are `%H:%M:%S` timestamps, so two turns of one second share their id (`SpeechPage.AutoplayCollides`).
- `process_transcription_results` is defined but the page never calls it. The page's own polling loop stops draining at the first final result, and the model has both (`ProcessTranscriptionResults`, `PollPass`).
- `start_realtime_session` is modelled as written, including its handling of the stream's sentinel. See the findings.

Select AI:

- `get_chat` doubles quotes and percent signs in the prompt although the prompt is passed as a bind variable, so the model receives the doubled text (`SelectAi.ChatPromptKeepsEscapes`).
- `get_conversation` doubles percent signs in the query but not in the profile (`SelectAiAgent.ProfileKeepsPercents`).
- `create_agent` does not escape the profile names (`SelectAiAgent.CreateAgent`).
- `drop_user` returns nothing for any error other than ORA-01918 (`SelectAi.DropUser`).

Quiz:

- A reload whose inserts fail keeps the deletion already committed (`QuizDb.FailedReloadKeepsDeletion`).
- The report splits a stored evaluation name at its first dash (`QuizReport.EvaluationCaptionAsWritten`). See the findings.

Agent Builder:

- The generated scripts indent the attributes JSON at every `splitlines` break (`PlsqlBlock.BuildDbmsBlock`). See the findings.

## Model

| member | source | states |
|---|---|---|
| SpeechRealtime.LanguageCode | app/services/oci_speech_realtime.py:11-15 | the three application languages, and only they, map to a service language code |
| SpeechRealtime.GetRealtimeParameters | app/services/oci_speech_realtime.py:23-43 | the fixed fields are set as listed (generic model, 0 ms / 2000 ms silence thresholds, raw 16 kHz encoding, no stabilisation, no punctuation); an empty id list leaves customizations unset, otherwise only the last id survives, paired with the compartment |
| SpeechRealtime.AudioProcessor.constructor | app/services/oci_speech_realtime.py:47-49 | a new processor has no audio queue |
| SpeechRealtime.AudioProcessor.Recv | app/services/oci_speech_realtime.py:51-63 | the frame is returned unchanged; without a queue nothing is queued; with one, every resampled frame's bytes are appended in order, and a raising resampler appends nothing |
| SpeechRealtime.ChunksAppend | app/services/oci_speech_realtime.py:57-59 | queueing the frames of two batches queues the first batch's chunks then the second's |
| SpeechRealtime.OnResult | app/services/oci_speech_realtime.py:72-78 | only the first transcription is read; it is a final text exactly when flagged final; a result with no transcriptions raises |
| SpeechRealtime.Client.Close | app/services/oci_speech_realtime.py:147 | closing raises the close flag and sends nothing |
| SpeechRealtime.Client.SendData | app/services/oci_speech_realtime.py:142 | a send succeeds exactly when the connection still has capacity, and then appends that packet only |
| SpeechRealtime.StreamPlanUnlimited | app/services/oci_speech_realtime.py:144-149 | with a connection that never fails, the loop sends every chunk up to the first sentinel, stops right after taking it, and stops on an empty queue only after taking everything |
| SpeechRealtime.SendPlanInOrder | app/services/oci_speech_realtime.py:139-149 | the first packet is sent, then every queued packet in order, up to the first sentinel or the end of the queue |
| SpeechRealtime.StreamPlanPrefix | app/services/oci_speech_realtime.py:144-154 | under any capacity, what is sent is a prefix of the queued payloads in order: the loop never reorders or invents packets |
| SpeechRealtime.SendAudioLoop | app/services/oci_speech_realtime.py:139-154 | the loop sends exactly what the plan sends, consumes exactly the plan's items from the queue, and leaves the client closed unless it is waiting for data |
| SpeechRealtime.SendStep | app/services/oci_speech_realtime.py:144-149 | one turn takes one item and either stops with the plan's end and the plan's packets sent, or keeps the plan's remainder ahead of it |
| SpeechRealtime.SendSoFarStep | app/services/oci_speech_realtime.py:144-154 | each case of the next turn (empty queue, sentinel, refused send, sent packet) advances the plan by exactly the item it takes |
| SpeechRealtime.StartRealtimeSession | app/services/oci_speech_realtime.py:104-168 | the session loop consumes and sends what the session plan says; after at least one connection the last client opened is published with the session's language and no customizations; a leading sentinel ends it without connecting |
| SpeechRealtime.SessionStep | app/services/oci_speech_realtime.py:116-137 | one turn of the session loop appends the packets of at most one connection and keeps the plan's remainder ahead of it |
| SpeechRealtime.SessionPass | app/services/oci_speech_realtime.py:117-168 | one pass waits for a first packet, ends on a sentinel or an empty queue, and otherwise opens one connection and streams until its send loop stops |
| SpeechRealtime.Connect | app/services/oci_speech_realtime.py:122-156 | a fresh client with the session's parameters is published in the session state before its send loop streams |
| SpeechRealtime.SessionPlanStep | app/services/oci_speech_realtime.py:116-168 | a pass on a first packet is that packet's connection followed by the session loop on what is left |
| SpeechRealtime.StopRealtimeSession | app/services/oci_speech_realtime.py:170-175 | a published client is closed without sending anything more, and the slot is emptied |
| SpeechRealtime.StreamSentinelLeavesLoopWaiting | app/services/oci_speech_realtime.py:116-148 | a stream ending in one sentinel is consumed by the send loop, and the session loop is left waiting for another first packet |
| SpeechRealtime.SessionPlanStopping | app/services/oci_speech_realtime.py:116-148 | the corrected session loop: a sentinel read by the send loop also ends the session |
| SpeechRealtime.StoppingEndsOnSentinel | app/services/oci_speech_realtime.py:116-148 | the corrected loop ends exactly when a sentinel was queued, right after the first one, having sent every packet before it |
| SpeechRealtime.StreamSentinelEndsStoppingLoop | app/services/oci_speech_realtime.py:116-148 | under the corrected loop, the stream of the finding ends the session after one connection |
| SpeechPage.KeyIndexAt | app/pages/app_speech.py:47-59 | the eleven session keys are enumerated in the order of the defaults table, each exactly once |
| SpeechPage.FromRecognized | app/pages/app_speech.py:369-373 | a final transcription becomes a `final` result and any other a `partial`, with the same text |
| SpeechPage.UptoEnd | app/pages/app_speech.py:60-62 | visiting every key of the defaults table inserts exactly the missing keys with their default values |
| SpeechPage.InitializedIdempotent | app/pages/app_speech.py:60-62 | initialising an initialised state changes nothing |
| SpeechPage.InitializedWhenComplete | app/pages/app_speech.py:60-62 | a state that already holds every key is left untouched: existing values are never replaced |
| SpeechPage.DefaultedAll | app/pages/app_speech.py:60-62 | after the loop, a key was given its default exactly when it was missing before |
| SpeechPage.VoiceSession.constructor | app/pages/app_speech.py:45-62 | a fresh session holds none of the keys and no worker |
| SpeechPage.VoiceSession.SetDefault | app/pages/app_speech.py:60-62 | one iteration inserts the key's default when it is missing, and changes nothing otherwise |
| SpeechPage.VoiceSession.InitializeSessionState | app/pages/app_speech.py:45-62 | the loop leaves exactly the initialised state: every key present, the missing ones at their defaults, the rest unchanged |
| SpeechPage.LastText | app/pages/app_speech.py:335-339 | the last final or partial message of a batch, which is absent exactly when every message is an error |
| SpeechPage.Contents | app/pages/app_speech.py:324-328 | the texts of a run of turns, one per turn, in order |
| SpeechPage.ApplyAllConversation | app/pages/app_speech.py:319-342 | draining a batch keeps the old log as a prefix and appends exactly one user turn per final, with that final's text, in order, without audio |
| SpeechPage.ApplyAllLlm | app/pages/app_speech.py:330-332 | the finals are queued for the model in order when no response is under way, and none of them otherwise; the flag is never changed |
| SpeechPage.ApplyAllPartial | app/pages/app_speech.py:334-339 | after the batch the partial slot holds the last partial's text, is empty when the last text was final, and is unchanged when no text came |
| SpeechPage.ApplyAllFrame | app/pages/app_speech.py:319-342 | draining changes only the log, the model queue and the partial slot |
| SpeechPage.VoiceSession.HandleResult | app/pages/app_speech.py:322-342 | one message updates the state as a final, a partial or an error prescribes, and keeps the same queue objects |
| SpeechPage.VoiceSession.ProcessTranscriptionResults | app/pages/app_speech.py:316-344 | the loop empties the result queue, applies every message in order, and returns true exactly when a final or partial was among them |
| SpeechPage.VoiceSession.DrainOne | app/pages/app_speech.py:319-342 | one iteration takes the next message of the batch and keeps the drain invariant one message further |
| SpeechPage.DrainDone | app/pages/app_speech.py:319 | an empty result queue means the whole batch was applied, and the flag says whether a text came |
| SpeechPage.UntilFinal | app/pages/app_speech.py:515-532 | the length of the batch up to and including its first final, or the whole batch when it has none |
| SpeechPage.PassTurns | app/pages/app_speech.py:515-532 | one pass of the page's polling loop adds one user turn, the first final's text, when the batch has a final, and none otherwise |
| SpeechPage.FinalTextsNone | app/pages/app_speech.py:518 | a batch without finals queues nothing for the model |
| SpeechPage.VoiceSession.Deliver | app/pages/app_speech.py:369-373 | the worker's batch is appended to the result queue and nothing else changes |
| SpeechPage.VoiceSession.PollPass | app/pages/app_speech.py:515-540 | one pass applies the batch up to its first final, leaves the rest queued, and asks for a rerun exactly when a final was seen |
| SpeechPage.PollTurns | app/pages/app_speech.py:510-547 | one page run's polling adds at most one user turn: one when it ended on a final's rerun, none when the pass limit or a stopped stream ended it |
| SpeechPage.VoiceSession.PollWhilePlaying | app/pages/app_speech.py:510-547 | the loop runs the passes the polling function describes, at most the pass limit, and ends the way it says |
| SpeechPage.Recent | app/pages/app_speech.py:273 | the context holds the last six turns of the log, or the whole log when it is shorter |
| SpeechPage.AgentInputShape | app/pages/app_speech.py:272-283 | the agent's input always ends with `Pregunta actual: ` and the message, and is exactly that for an empty log |
| SpeechPage.ContextForgets | app/pages/app_speech.py:273-283 | turns older than the last six never reach the agent |
| SpeechPage.BuildContext | app/pages/app_speech.py:272-280 | the loop builds the header, one `Usuario`/`Asistente` line per recent turn and the footer, or nothing for an empty log |
| SpeechPage.ReplyText | app/pages/app_speech.py:251-295 | the Select AI reply, or the session's language message (default `No tengo esa información.`) for a reply containing `NNN`; the agent's answer, or the apology when it has none; an `Error al procesar: ` text for an exception on either path |
| SpeechPage.Reply | app/pages/app_speech.py:251-295 | the branching of `process_llm_response` computes exactly the reply text, and asks the agent with the context and the question only when Select AI is not used |
| SpeechPage.AudioOf | app/pages/app_speech.py:298-301 | the turn keeps audio exactly when synthesis returned non-empty bytes |
| SpeechPage.VoiceSession.ProcessLlmResponse | app/pages/app_speech.py:249-313 | one assistant turn with the reply is appended, stamped and marked for autoplay; the agent is asked with the context input, Select AI with the bare message |
| SpeechPage.VoiceSession.ClearAutoplay | app/pages/app_speech.py:449-451 | after a render the autoplay mark is cleared and nothing else changes |
| SpeechPage.VoiceSession.ScheduleLlm | app/pages/app_speech.py:453-456 | with a queued message and no response under way the flag is set and a rerun requested; otherwise nothing changes |
| SpeechPage.VoiceSession.RunLlm | app/pages/app_speech.py:458-469 | with the flag set and a message queued, exactly one message is answered and the flag cleared, with a rerun; otherwise nothing changes |
| SpeechPage.SingleFlight | app/pages/app_speech.py:453-469 | two runs hand the oldest queued message to the model: the first only sets the flag, the second appends one assistant turn, keeps the rest queued and clears the flag |
| SpeechPage.ClearKeepsQueuedQuestion | app/components/st_login.py:196-198 | clearing the conversation keeps the queued questions, so the next run answers one into the emptied log |
| SpeechPage.VoiceSession.ClearConversation | app/components/st_login.py:196-198 | the clear button empties the log and the partial slot and drops the flag, leaving everything else |
| SpeechPage.Discarded | app/pages/app_speech.py:349-357 | what cleanup pushes and then discards: the queued audio, followed by one stop sentinel exactly when a live worker was running |
| SpeechPage.VoiceSession.CleanupSession | app/pages/app_speech.py:347-359 | cleanup drops the worker handle and leaves both queues empty, having discarded the audio and the sentinel |
| SpeechPage.EdgeOnce | app/pages/app_speech.py:486-492 | cleanup and a new session id happen only on the playing-to-stopped edge, once: repeating the same state does nothing more |
| SpeechPage.VoiceSession.DetectEdge | app/pages/app_speech.py:486-492 | the edge detector leaves the state the edge function describes |
| SpeechPage.WidgetKeysDiffer | app/pages/app_speech.py:475 | distinct session ids give distinct streamer keys, so each new session gets a fresh widget |
| SpeechPage.VoiceSession.StreamerKey | app/pages/app_speech.py:475 | the streamer key is `speech-chat-` and the session id |
| SpeechPage.VoiceSession.EnsureWorker | app/pages/app_speech.py:502-508 | a worker is started exactly when there is none or it has died |
| SpeechPage.VoiceSession.InjectQueue | app/pages/app_speech.py:482-484 | a present processor is given the session's audio queue |
| SpeechPage.VoiceSession.ReinjectQueue | app/pages/app_speech.py:498-500 | a processor without a queue is given the session's; one that has a queue keeps it |
| SpeechPage.VoiceSession.InjectThenReceive | app/pages/app_speech.py:482-484 | after injection the processor's frames reach the session's audio queue in order |
| SpeechPage.AnsweredAutoplays | app/pages/app_speech.py:95-97 | a reply with audio is marked to autoplay |
| SpeechPage.AutoplayCollides | app/pages/app_speech.py:304-313 | two replies stamped in the same second both autoplay, because the stamp is the turn's only id |
| PyJson.Or | app/pages/app_agent_builder.py:111 | Python's `a or b`: the first operand when it is truthy, the second otherwise |
| PyJson.StrOf | app/pages/app_agent_builder.py:122 | `str(v)` is the string itself for a string, and a non-empty text that does not start with a space otherwise |
| PyJson.Get | app/pages/app_agent_builder.py:103 | `dict.get(k, default)`: the stored value for a present key, the default for a missing one |
| PyJson.Keys | app/pages/app_agent_builder.py:102-116 | the keys of a dict, in insertion order |
| PyJson.Lookup | app/pages/app_agent_builder.py:102-116 | a key's value in an insertion-ordered dict, absent exactly when the key is not a key of it |
| PyJson.DictSet | app/pages/app_agent_builder.py:106 | `d[k] = v`: a new key is appended at the end; an existing key is overwritten in place and every other entry stays |
| PyJson.LookupDictSet | app/pages/app_agent_builder.py:106 | after `d[k] = v`, reading `k` gives `v` and every other key reads as before |
| PyJson.DictSetDistinct | app/pages/app_agent_builder.py:106 | assignment keeps a dict's keys distinct |
| PyJson.LookupDictUpdate | app/pages/app_agent_builder.py:102-116 | `d.update(other)`: the other dict's keys win, every other key reads as before |
| PyJson.EscapeChar | app/pages/app_agent_builder.py:82 | `json.dumps` leaves a printable character other than a quote or backslash alone (with `ensure_ascii`, only when it is ASCII), never emits a control character, and with `ensure_ascii` emits printable ASCII only |
| PyJson.EscapeAll | app/pages/app_agent_builder.py:82 | an escaped JSON string holds no control character, so no line feed, and with `ensure_ascii` nothing beyond printable ASCII |
| PyJson.Dumps | app/pages/app_agent_builder.py:82 | serialisation always produces some text |
| PyJson.DumpsIndented | app/pages/app_agent_builder.py:82 | `indent=4` serialisation always produces some text |
| PlsqlBlock.ToBoolLiteral | app/pages/app_agent_builder.py:71-72 | the literal is `True` exactly when the stripped, lower-cased text of the value is `true`, `1`, `yes` or `y`, and `False` otherwise |
| PlsqlBlock.BoolLiteralOfBool | app/pages/app_agent_builder.py:71-72 | a checkbox's boolean reads as the matching literal |
| PlsqlBlock.BoolLiteralStable | app/pages/app_agent_builder.py:71-72 | converting a literal again gives the same literal |
| PlsqlBlock.FlagDefault | app/pages/app_agent_builder.py:152 | the default `'false'` reads as `False` |
| PlsqlBlock.Padded | app/pages/app_agent_builder.py:75-76 | every line gets exactly twelve spaces in front |
| PlsqlBlock.Unpadded | app/pages/app_agent_builder.py:75-76 | the reference inverse: twelve characters are removed from each line |
| PlsqlBlock.IndentAsWrittenLines | app/pages/app_agent_builder.py:74-76 | as written, the block's lines are the text's lines, each padded |
| PlsqlBlock.LineSeparatorSplitsValue | app/pages/app_agent_builder.py:74-82 | a JSON string holding U+2028 is cut in two by the as-written indentation, with a line feed and padding in the middle of the value |
| PlsqlBlock.JsonKeepsSeparator | app/pages/app_agent_builder.py:82 | JSON serialisation without ASCII escaping leaves U+2028 as it is |
| PlsqlBlock.SampleLines | app/pages/app_agent_builder.py:76 | `splitlines` breaks at U+2028 as well as at the line feed |
| PlsqlBlock.IndentRoundTrip | app/pages/app_agent_builder.py:74-76 | the corrected indentation splits at line feeds only, and removing the padding gives the JSON text back |
| PlsqlBlock.IndentAgrees | app/pages/app_agent_builder.py:74-76 | on text whose only line breaks are inner line feeds the corrected and as-written indentations agree |
| PlsqlBlock.DoubledLines | app/pages/app_agent_builder.py:84 | each line with its single quotes doubled |
| PlsqlBlock.SplitDouble | app/pages/app_agent_builder.py:84-85 | doubling quotes and then splitting lines is splitting lines and doubling each |
| PlsqlBlock.JoinDouble | app/pages/app_agent_builder.py:84-85 | joining doubled lines is doubling the joined text |
| PlsqlBlock.IndentDouble | app/pages/app_agent_builder.py:84-85 | indenting commutes with doubling quotes, so the order of the two steps does not matter |
| PlsqlBlock.PaddedDoubled | app/pages/app_agent_builder.py:84-85 | padding commutes with doubling quotes |
| PlsqlBlock.ParamFor | app/pages/app_agent_builder.py:64-88 | exactly the four object types have a name parameter |
| PlsqlBlock.BuildDbmsBlock | app/pages/app_agent_builder.py:78-99 | as written, with the `splitlines` indentation: the block is empty exactly when the identifier is falsy or the type has no name parameter |
| PlsqlBlock.BuildDbmsBlockCorrected | app/pages/app_agent_builder.py:78-99 | the same block with the JSON indented at line feeds only; empty exactly when the identifier is falsy or the type has no name parameter |
| PlsqlBlock.BlockAgrees | app/pages/app_agent_builder.py:74-99 | when the attributes' JSON has no line separator other than a line feed, the as-written block is the corrected one |
| PlsqlBlock.BlockShapeCorrected | app/pages/app_agent_builder.py:78-99 | for all attributes, a generated corrected block has the shape below |
| PlsqlBlock.BlockShape | app/pages/app_agent_builder.py:78-99 | as written and when the attributes' JSON breaks lines at line feeds only, a generated block starts with `BEGIN`, drops and then creates the object, ends with `END;` and `/`; its attributes literal, read the way PL/SQL reads a quoted literal, is exactly the indented JSON and ends just before `)`, so quotes in the values cannot close it early |
| PlsqlBlock.BodyDoubled | app/pages/app_agent_builder.py:84-85 | the doubled attributes text is the indented doubled JSON between the same line breaks |
| AgentBuilder.ToolAttributes | app/pages/app_agent_builder.py:101-116 | the tool type defaults to `SQL`; the instruction and description appear exactly when truthy; only a `CUSTOM` tool carries its function, and only any other type its profile parameters, taken from the tool's profile or the general one; the keys are distinct |
| AgentBuilder.KeepStripped | app/pages/app_agent_builder.py:120 | only non-empty stripped parts are kept |
| AgentBuilder.StrOfEach | app/pages/app_agent_builder.py:122 | the text of each element, in order |
| AgentBuilder.ParseGenericList | app/pages/app_agent_builder.py:118-123 | every item is non-empty and stripped; a value that is neither a string nor a list gives no items |
| AgentBuilder.KeepStrippedClean | app/pages/app_agent_builder.py:120 | clean items are kept as they are |
| AgentBuilder.ParseJoined | app/pages/app_agent_builder.py:119-120 | a comma-joined text of clean names parses back to those names |
| AgentBuilder.ParseListed | app/pages/app_agent_builder.py:121-122 | a list of clean names parses back to itself |
| AgentBuilder.InputValue | app/pages/app_agent_builder.py:140 | one input is stored as itself, several as a list |
| AgentBuilder.TaskAttributes | app/pages/app_agent_builder.py:131-145 | the instruction defaults to empty; tools and inputs appear exactly when some were parsed; the human-tool flag appears exactly when set, as a literal; the description exactly when truthy; the keys are distinct |
| AgentBuilder.AgentAttributes | app/pages/app_agent_builder.py:147-155 | the first three entries are the profile (the node's, else its `profile`, else the SQL profile), the role and the human-tool literal, and the description follows exactly when truthy |
| AgentBuilder.AgentHumanToolDefault | app/pages/app_agent_builder.py:152 | without the node's flag an agent's human tool is `False` |
| AgentBuilder.AssignmentFields | app/pages/app_agent_builder.py:173-177 | an assignment reads back its name and task |
| AgentBuilder.KeepAssigned | app/pages/app_agent_builder.py:182-186 | the team keeps at most the agents given, each a dict with a truthy name and task |
| AgentBuilder.KeepAssignedMembers | app/pages/app_agent_builder.py:182-186 | an item is in the team's agent list exactly when some given agent is a dict with a truthy name and task and the item is the pair of that agent's name and task |
| AgentBuilder.BuildTeamAttributes | app/pages/app_agent_builder.py:180-188 | a team's process is `sequential` and its agents are the assigned ones |
| AgentBuilder.EntryAgent | app/pages/app_agent_builder.py:169-177 | an entry gives an assignment exactly when it is a dict with a truthy `agent` (else `name`) and a truthy `task`, or a list of at least two items whose first two are truthy; the assignment is that name and task |
| AgentBuilder.EntryAgents | app/pages/app_agent_builder.py:168-177 | at most one assignment per entry, each with a truthy name and task |
| AgentBuilder.EntryAgentsMembers | app/pages/app_agent_builder.py:168-177 | an assignment is normalised exactly when some entry gives it |
| AgentBuilder.EntryAgentsConcat | app/pages/app_agent_builder.py:168-177 | normalisation keeps entry order: it distributes over concatenation |
| AgentBuilder.TeamAgents | app/pages/app_agent_builder.py:157-178 | every normalised item has a truthy name and task; a text that is not JSON gives none |
| AgentBuilder.TeamAgentsExact | app/pages/app_agent_builder.py:157-178 | an assignment is in the team exactly when some entry of the parsed team value gives it |
| AgentBuilder.TeamAgentsKeeps | app/pages/app_agent_builder.py:157-178 | every entry naming an agent and a task makes it into the team |
| AgentBuilder.NormalizeTeamAgents | app/pages/app_agent_builder.py:157-178 | the loop appends exactly the normalised assignments |
| AgentBuilder.EntryAgentsSnoc | app/pages/app_agent_builder.py:168-177 | the loop's step: one more entry adds its assignment at the end |
| AgentBuilder.KeepAssignedConcat | app/pages/app_agent_builder.py:182-186 | team filtering distributes over concatenation |
| AgentBuilder.KeepAssignedNormalized | app/pages/app_agent_builder.py:180-188 | normalised assignments pass the team filter unchanged |
| AgentBuilder.TeamKeepsNormalized | app/pages/app_agent_builder.py:219-221 | a team node's script lists exactly its normalised assignments |
| AgentBuilder.Labelled | app/pages/app_agent_builder.py:202-203 | a script entry is added exactly when the block is non-empty |
| AgentBuilder.NodeScript | app/pages/app_agent_builder.py:196-225 | each node adds at most one script; a team node adds one exactly when it has a name and a non-empty normalised team |
| AgentBuilder.NodeScripts | app/pages/app_agent_builder.py:195-225 | at most one script per node |
| AgentBuilder.NodeById | app/pages/app_agent_builder.py:228-231 | the node with that id, absent exactly when no node has it |
| AgentBuilder.EdgeAgent | app/pages/app_agent_builder.py:229-240 | an edge contributes an assignment exactly when both ends exist and it goes from an agent to a task; the assignment is the source's `agent_name` (else its `name`) and the target's `task_name` (else its `name`) |
| AgentBuilder.EdgeAgents | app/pages/app_agent_builder.py:229-240 | at most one assignment per edge |
| AgentBuilder.EdgeAgentsMembers | app/pages/app_agent_builder.py:229-240 | an assignment is collected exactly when some edge contributes it |
| AgentBuilder.EdgeAgentsConcat | app/pages/app_agent_builder.py:229-240 | the edges' assignments come in edge order: collection distributes over concatenation |
| AgentBuilder.EdgeAgentsFromEdges | app/pages/app_agent_builder.py:229-240 | every assignment comes from some edge |
| AgentBuilder.CleanAgents | app/pages/app_agent_builder.py:241 | the kept assignments come from the map and have a truthy name and task |
| AgentBuilder.CleanAgentsMembers | app/pages/app_agent_builder.py:241 | an assignment is kept exactly when it is in the map and has a truthy name and task |
| AgentBuilder.CleanAgentsConcat | app/pages/app_agent_builder.py:241 | filtering keeps the map's order: it distributes over concatenation |
| AgentBuilder.FlowTeamScript | app/pages/app_agent_builder.py:242-247 | the flow's team adds at most one script |
| AgentBuilder.FlowTeamExact | app/pages/app_agent_builder.py:227-247 | the flow's team script is produced exactly when no team node produced a script and some edge goes from an agent to a task with a truthy agent name and task name |
| AgentBuilder.FlowTeamWhenNoExplicit | app/pages/app_agent_builder.py:242-247 | the `TEAM_STREAMLIT_FLOW` script is produced exactly when some agent-to-task edge gives a clean assignment and no team node produced a script |
| AgentBuilder.GenerateObjectScripts | app/pages/app_agent_builder.py:190-248 | the scripts are the nodes' scripts in node order, then the flow's team script |
| AgentBuilder.ScriptNodes | app/pages/app_agent_builder.py:195-225 | the node loop produces exactly the nodes' scripts and records whether any team node produced one |
| AgentBuilder.AgentsFromEdges | app/pages/app_agent_builder.py:227-240 | the edge loop produces exactly the edges' assignments in edge order |
| AgentBuilder.NodeStep | app/pages/app_agent_builder.py:195-225 | one node step keeps the script list and the team flag equal to their definitions one node further |
| AgentBuilder.WithoutNode | app/pages/app_agent_builder.py:500-502 | exactly the nodes whose id differs remain |
| AgentBuilder.WithoutEdgesOf | app/pages/app_agent_builder.py:503-506 | exactly the edges touching neither end remain |
| AgentBuilder.WithoutNodeIdempotent | app/pages/app_agent_builder.py:500-502 | deleting the same node twice is deleting it once |
| AgentBuilder.FlowState.constructor | app/pages/app_agent_builder.py:335-342 | a new flow has no nodes, no edges and no selection |
| AgentBuilder.FlowState.DeleteSelected | app/pages/app_agent_builder.py:497-508 | with a selection, its node and every edge touching it are removed and the selection cleared; without one nothing changes |
| DbmsAgent.ToJsonStr | app/services/database/dbms_ai_agent.py:25-33 | any value that is not a string gives some JSON text |
| DbmsAgent.ToJsonStrOfNone | app/services/database/dbms_ai_agent.py:29-30 | no attributes give `{}` |
| DbmsAgent.ToJsonStrIdempotent | app/services/database/dbms_ai_agent.py:25-33 | a string is passed through unchanged, so normalising twice is normalising once |
| DbmsAgent.ToJsonStrSerialises | app/services/database/dbms_ai_agent.py:33 | any other value is serialised, a dict as a braced object |
| DbmsAgent.CreateCall | app/services/database/dbms_ai_agent.py:35-69 | each creator calls its procedure with exactly the name and the normalised attributes |
| DbmsAgent.CreateCallKind | app/services/database/dbms_ai_agent.py:35-69 | the call determines the object kind and the name: the four procedures are distinct |
| DbmsAgent.ValidateCall | app/services/database/dbms_ai_agent.py:71-77 | validation calls `SP_AI_NAME_VALIDATE` with the type and the name, which is none of the creators |
| AgentService.ValidateName | app/services/oci_ai_agent.py:14-22 | the type is upper-cased before the call; the name is available exactly when the call does not raise; both messages name the type and the quoted name, and only the refusal starts with `[Error] ` |
| AgentService.TakenMessage | app/services/oci_ai_agent.py:21 | the refusal names the type and the quoted name and starts with `[Error] ` |
| AgentService.AvailableMessage | app/services/oci_ai_agent.py:18 | the acceptance names the type and the quoted name and does not start with `[Error] ` |
| AgentService.CreateNotice | app/services/oci_ai_agent.py:64-144 | a success notice, naming the object, exactly when the database call did not raise; otherwise an error notice ending in the database's message |
| AgentService.ItemPairs | app/services/oci_ai_agent.py:33 | a dict's items as a list of pairs, one per entry |
| AgentService.ToJson | app/services/oci_ai_agent.py:25-33 | no attributes or an unparsable text give `{}`; a dict is kept; a number or boolean raises |
| AgentService.PairsDictItems | app/services/oci_ai_agent.py:33 | `dict(d.items())` gives the dict back |
| AgentService.DictItemUnpacksKeys | app/services/oci_ai_agent.py:33 | `dict` of a list holding one two-key dict pairs the first key with the second key, as Python's unpacking of a dict does |
| AgentService.ToJsonOfItems | app/services/oci_ai_agent.py:33 | a list of a dict's pairs converts to that dict |
| AgentService.ToJsonIdempotent | app/services/oci_ai_agent.py:25-33 | converting a converted dict changes nothing |
| AgentService.ToolAttrsShape | app/services/oci_ai_agent.py:52-63 | the tool type is always set; instruction, function and schema exactly when truthy; the tool parameters exactly when a profile is given, holding that profile; the keys are distinct |
| AgentService.ToolParamsShape | app/services/oci_ai_agent.py:59-61 | the parameters are non-empty exactly when the profile is truthy |
| AgentService.CreateTool | app/services/oci_ai_agent.py:36-68 | the tool procedure is called with the name and the serialised attributes, and the notice reports its outcome |
| AgentService.TaskTools | app/services/oci_ai_agent.py:82-85 | every tool name is non-empty and stripped; a falsy non-string gives none; a truthy number or boolean raises |
| AgentService.TaskToolsRoundTrip | app/services/oci_ai_agent.py:82-85 | clean names joined by commas, or listed, parse back to themselves |
| AgentService.TaskAttrsLookup | app/services/oci_ai_agent.py:86-91 | the extra attributes override; otherwise the instruction (empty by default) and the tools list |
| AgentService.CreateTask | app/services/oci_ai_agent.py:71-96 | the task procedure is called exactly when the tools can be read, with the name and the serialised attributes |
| AgentService.AgentAttrsShape | app/services/oci_ai_agent.py:106-112 | the profile and role as given, and the human-tool flag as a `True`/`False` literal |
| AgentService.AgentFlagDefault | app/services/oci_ai_agent.py:104 | the default flag gives `False` |
| AgentService.CreateAgent | app/services/oci_ai_agent.py:99-117 | the agent procedure is called with the name and the serialised attributes, and the notice reports its outcome |
| AgentService.TeamItems | app/services/oci_ai_agent.py:131 | `list(agents or [])`: a list is taken as it is; a truthy number or boolean raises |
| AgentService.CharItems | app/services/oci_ai_agent.py:131 | a text is listed one character per item |
| AgentService.CleanTeamAgents | app/services/oci_ai_agent.py:130-138 | the loop keeps, in order, exactly the entries with a truthy name and task, rebuilt as name/task pairs |
| AgentService.KeepAssignedSnoc | app/services/oci_ai_agent.py:131-136 | the loop's step: one more entry adds its pair at the end when assigned |
| AgentService.KeptAreAssigned | app/services/oci_ai_agent.py:135-136 | every kept entry has a truthy name and task |
| AgentService.KeepAssignedEmpty | app/services/oci_ai_agent.py:130-138 | the team is empty exactly when no entry is assigned |
| AgentService.KeepAssignedIdempotent | app/services/oci_ai_agent.py:130-138 | cleaning a cleaned team changes nothing |
| AgentService.TeamProcess | app/services/oci_ai_agent.py:139 | the team holds the clean agents, and the process given or `sequential` |
| AgentService.CreateTeam | app/services/oci_ai_agent.py:120-144 | the team procedure is called exactly when the agents can be listed, with the clean agents and the process, and the notice reports its outcome |
| QuizSelect.KeepChecked | app/pages/app_quiz.py:110-113 | exactly the ordered languages that are still checked remain |
| QuizSelect.AppendedContents | app/pages/app_quiz.py:116-118 | the append loop keeps the kept order as a prefix, adds exactly the checked languages not yet present, and never duplicates one |
| QuizSelect.UpdatedOrderExact | app/pages/app_quiz.py:107-120 | after an update the order holds exactly the checked languages, the ones already ordered first in their old order, without duplicates |
| QuizSelect.KeepCheckedNoDuplicates | app/pages/app_quiz.py:110-113 | filtering keeps an order free of duplicates |
| QuizSelect.UpdatedOrderIdempotent | app/pages/app_quiz.py:107-120 | rerunning the page with the same checkboxes keeps the order |
| QuizSelect.KeepAllChecked | app/pages/app_quiz.py:110-113 | an order whose languages are all checked is kept whole |
| QuizSelect.AppendedNothingNew | app/pages/app_quiz.py:116-118 | nothing is appended when every checked language is already present |
| QuizSelect.ValidateStart | app/pages/app_quiz.py:136-142 | a start is refused for no language, for more than two, or for a blank name, in that order; it is allowed exactly when one or two languages are chosen and the name is not blank |
| QuizSelect.EvaluationName | app/pages/app_quiz.py:144 | the stored name is the stripped input, a dash, and the timestamp without its last three digits |
| QuizSelect.Quot | app/pages/app_quiz.py:159 | floor division of naturals |
| QuizSelect.TruncDiv | app/pages/app_quiz.py:159 | `int()` of a quotient truncates toward zero, for negative numerators too |
| QuizSelect.Quota | app/pages/app_quiz.py:159 | every module is asked for at least one question, and for at most the total when its percentage is at most 100 |
| QuizSelect.QuotaBound | app/pages/app_quiz.py:159 | a percentage of at most 100 never asks for more than the total |
| QuizSelect.OfModule | app/pages/app_quiz.py:160 | exactly the module's questions |
| QuizSelect.ModulePick | app/pages/app_quiz.py:159-164 | a module contributes its quota when it has enough questions, all of them otherwise, and only its own questions |
| QuizSelect.Picked | app/pages/app_quiz.py:155-165 | every selected question comes from the file |
| QuizSelect.PickByModule | app/pages/app_quiz.py:155-165 | the module loop selects exactly what the per-module picks prescribe, in module order |
| QuizSelect.PickedCoversModules | app/pages/app_quiz.py:155-165 | every listed module that has questions is represented in the selection |
| QuizSelect.Ids | app/pages/app_quiz.py:172 | the ids of the selected questions |
| QuizSelect.Unselected | app/pages/app_quiz.py:173 | exactly the questions whose id was not selected |
| QuizSelect.Adjust | app/pages/app_quiz.py:167-176 | too many selected are cut to the requested number, taken from the selection; too few are topped up from unselected questions only when enough remain, keeping the selection first |
| QuizSelect.AdjustFromFile | app/pages/app_quiz.py:167-176 | the adjusted selection still comes from the file |
| QuizSelect.Reorder | app/pages/app_quiz.py:202 | the options in the order of the indices, defined exactly when every index is in range |
| QuizSelect.ReorderPermutation | app/pages/app_quiz.py:197-202 | a permutation of the indices reorders the options without losing or inventing any |
| QuizSelect.ShuffleQuestion | app/pages/app_quiz.py:182-203 | shuffling succeeds exactly when languages are chosen, each has options, and the first language's order fits every language |
| QuizSelect.ShuffleAligned | app/pages/app_quiz.py:194-203 | a shuffled question keeps its identity and fields, and every chosen language's options are reordered by the same indices |
| QuizSelect.ShuffleSucceeds | app/pages/app_quiz.py:194-203 | with options of equal length in every language and a permutation of the first language's options, shuffling succeeds |
| QuizSelect.ShuffledAll | app/pages/app_quiz.py:182-203 | every question is shuffled, or the start fails |
| QuizSelect.ShuffleOptions | app/pages/app_quiz.py:182-203 | the loop shuffles exactly as the definition does, failing on the first question that cannot be shuffled |
| QuizSelect.ShuffledAllFails | app/pages/app_quiz.py:182-203 | one question that cannot be shuffled makes the whole start fail |
| QuizPage.AnswerFor | app/pages/app_quiz.py:296-323 | an answer records the question's id and the chosen index, and is correct (1) exactly when the primary language's option is correct, 0 otherwise |
| QuizPage.Orders | app/pages/app_quiz.py:197-198 | one shuffle order per question, in question order |
| QuizPage.StartResult | app/pages/app_quiz.py:134-221 | a start is refused exactly when validation fails, with that reason; a taken name stops it; otherwise it starts exactly when the questions could be drawn and shuffled |
| QuizPage.QuizSession.constructor | app/pages/app_quiz.py:32-40 | a new session has not started, with no questions, answers, languages or saved choices |
| QuizPage.QuizSession.UpdateLanguages | app/pages/app_quiz.py:107-120 | only the language order changes, to the updated order |
| QuizPage.QuizSession.Start | app/pages/app_quiz.py:134-217 | the outcome is the start result; a start sets the quiz to its first question with the drawn questions, the name, the file and the languages; any other outcome changes nothing |
| QuizPage.QuizSession.Begin | app/pages/app_quiz.py:206-214 | the quiz state is set as the start prescribes |
| QuizPage.QuizSession.Previous | app/pages/app_quiz.py:283-286 | the index moves back by one, never below the first question, and nothing else changes |
| QuizPage.QuizSession.Next | app/pages/app_quiz.py:289-308 | without a choice nothing changes; with one the answer is recorded, the choice saved and the index advanced by one, and the start time, file and language order stay |
| QuizPage.QuizSession.Finish | app/pages/app_quiz.py:311-345 | without a choice nothing is recorded; with one the last answer is recorded, and the quiz is finished exactly when saving did not fail; the start time, name, file and language order stay |
| QuizPage.QuizSession.Reset | app/pages/app_quiz.py:481-496 | the session returns to its initial state: no quiz, no language order, no saved choices |
| QuizPage.ClearSaved | app/pages/app_quiz.py:493-495 | every saved choice is removed |
| QuizPage.DrawQuestions | app/pages/app_quiz.py:152-203 | drawing picks by module, adjusts to the requested number and shuffles the options, as the definitions say |
| QuizPage.CorrectCount | app/pages/app_quiz.py:351 | at most every answer is correct |
| QuizPage.Counts | app/pages/app_quiz.py:350-352 | correct and incorrect answers add up to the number of answers, the correct ones being those marked 1 |
| QuizPage.FinishedCounts | app/pages/app_quiz.py:349-352 | answers keyed by the question indices number exactly the questions |
| QuizPage.RangeSetCard | app/pages/app_quiz.py:349-352 | there are exactly n indices below n |
| QuizPage.StatIndex | app/pages/app_quiz.py:377 | the position of a module's first statistics entry, absent exactly when the module has none yet |
| QuizPage.Tally | app/pages/app_quiz.py:376-386 | counting a question keeps every other module's entry as it was; a new module is appended with one question, its correctness and the question's weight; a known module's entry gains one question and, when answered right, one correct answer, keeping its weight |
| QuizPage.TallyIndex | app/pages/app_quiz.py:376-386 | counting a question moves no module's entry; only a new module gains one, at the end |
| QuizPage.CountOf | app/pages/app_quiz.py:374-386 | a module has no questions among the first k exactly when none of them belongs to it |
| QuizPage.RightOf | app/pages/app_quiz.py:374-386 | a module's right answers never exceed its questions |
| QuizPage.FirstOf | app/pages/app_quiz.py:374-382 | the first question of a module, absent exactly when the module has no questions |
| QuizPage.EntryStep | app/pages/app_quiz.py:376-386 | one question keeps every module's statistics equal to its count, right answers and first weight one question further |
| QuizPage.ModuleEntry | app/pages/app_quiz.py:372-386 | after the loop a module has an entry exactly when some question belongs to it, and that entry's total is its number of questions, its correct count the number answered right and its weight that of its first question |
| QuizPage.ModuleStats | app/pages/app_quiz.py:372-386 | the loop builds the per-module statistics the definition describes |
| QuizPage.StatsSum | app/pages/app_quiz.py:372-386 | the modules' totals add up to the number of questions and their correct counts to the correct answers; a module's correct count never exceeds its total and no module appears twice |
| QuizPage.TallySums | app/pages/app_quiz.py:384-386 | counting one question adds one to the totals and one to the correct counts exactly when it was answered right |
| QuizPage.SumsAppend | app/pages/app_quiz.py:378-382 | adding a module adds its counts to the sums |
| QuizPage.SumsUpdate | app/pages/app_quiz.py:384-386 | updating a module's counts changes the sums by the difference |
| QuizQueries.BindsSnoc | app/services/database/quiz.py:476-484 | appending a part adds its bind names |
| QuizQueries.BindsAppend | app/services/database/quiz.py:463-489 | the bind names of a concatenated query are those of its pieces |
| QuizQueries.GivenClausesInOrder | app/services/database/quiz.py:476-484 | one clause per given filter and no other, in the order file, start date, end date |
| QuizQueries.FilterParamsExact | app/services/database/quiz.py:475-484 | the parameters hold exactly the given filters, each with its value and no other key; they are empty exactly when no filter is given (a file id of 0 or an empty date counts as not given) |
| QuizQueries.WithFiltersIs | app/services/database/quiz.py:476-484 | the three conditional steps append the given clauses and add their parameters, whatever the query and parameters before them |
| QuizQueries.GivenClausesBinds | app/services/database/quiz.py:475-484 | the bind names the clauses use are exactly the parameter keys |
| QuizQueries.BindsOfOne | app/services/database/quiz.py:486-489 | a single part binds its own names |
| QuizQueries.NoneIfEmpty | app/services/database/quiz.py:491 | `params if params else None`: absent exactly when empty |
| QuizQueries.FramedBinds | app/services/database/quiz.py:463-489 | a fixed head, the clauses and a tail bind the filter keys and the tail's names |
| QuizQueries.GlobalModuleStats | app/services/database/quiz.py:451-491 | the module query is its head, the given clauses in order and its grouping; the parameters are absent exactly when no filter is given; every bind name has a parameter and every parameter is bound |
| QuizQueries.TopEvaluationsRanking | app/services/database/quiz.py:493-538 | the ranking query always binds `limit` with the given limit, plus exactly the given filters, in the same order |
| QuizQueries.QuizSummaryStats | app/services/database/quiz.py:540-597 | the summary query repeats the given clauses in both of its parts, and is given the parameters of one set, absent when no filter is given |
| QuizQueries.SummaryRow | app/services/database/quiz.py:598-600 | the first row, or an empty dict when the query returns none |
| QuizDb.CheckIfReload | app/services/database/quiz.py:23-47 | a file is a reload exactly when a version was read and it is above 1; an empty result or an error gives false |
| QuizDb.CheckEvaluationExists | app/services/database/quiz.py:427-449 | the name exists exactly when the count read is positive |
| QuizDb.DeleteQuizByFile | app/services/database/quiz.py:49-90 | the delete succeeds exactly when no statement raised; without questions it only looks them up and reports that there was nothing to delete; otherwise it deletes answers, then questions, then commits and reports both counts; a raise rolls back and reports the error |
| QuizDb.NoQuizDeletesNothing | app/services/database/quiz.py:68-86 | without quiz ids no delete statement and no commit is issued |
| QuizDb.AnswersDeletedFirst | app/services/database/quiz.py:69-83 | answers are always deleted before the questions they refer to |
| QuizDb.ModulesInfo | app/services/database/quiz.py:113 | every listed module has a percentage |
| QuizDb.ModulesInfoKeys | app/services/database/quiz.py:113 | every percentage comes from a listed module |
| QuizDb.ModulePercentageOf | app/services/database/quiz.py:119 | an unlisted module has percentage 0, a listed one the percentage from its entry |
| QuizDb.ModulesInfoLastWins | app/services/database/quiz.py:113 | for a module listed twice, the last entry wins |
| QuizDb.InsertsSnoc | app/services/database/quiz.py:117-170 | the loop's step: one more question adds its insert at the end |
| QuizDb.InsertsPrefix | app/services/database/quiz.py:117-170 | the inserts issued so far are those of the questions so far |
| QuizDb.InsertedMessageParts | app/services/database/quiz.py:174-177 | the message starts with the count, and reload and first load give different messages |
| QuizDb.PieceAt | app/services/database/quiz.py:175-177 | where a part of a message starts |
| QuizDb.InsertQuizQuestions | app/services/database/quiz.py:92-181 | a reload whose delete failed returns the delete's message and inserts nothing; otherwise the inserts for every question, then a commit, are issued after the delete, with the count and the verb the mode calls for, or a rollback and the error after the statement that raised |
| QuizDb.InsertRows | app/services/database/quiz.py:116-172 | the loop issues one insert per question in order and the commit, and counts every question when nothing raised |
| QuizDb.InsertedRows | app/services/database/quiz.py:117-170 | on success the i-th insert carries the i-th question with its module's percentage and its options as default `json.dumps` text, which is printable ASCII throughout |
| PyJson.DumpsAscii | app/services/database/quiz.py:163-165 | `json.dumps` with its default `ensure_ascii=True` writes printable ASCII only |
| PyJson.DumpsAsciiPrintable | app/services/database/quiz.py:163-165 | every character of a default `json.dumps` text, whatever the value, is printable ASCII |
| PyJson.DumpsAsciiAgrees | app/services/database/quiz.py:163-165 | a value whose strings are all printable ASCII is written the same with and without `ensure_ascii` |
| PyJson.EscapeAllPrintable | app/services/database/quiz.py:163-165 | printable ASCII text is escaped the same with and without `ensure_ascii` |
| PyJson.UnitEscape | app/services/database/quiz.py:163-165 | a `\\uXXXX` escape is six printable ASCII characters starting with a backslash and `u` |
| PyJson.SurrogatePair | app/services/database/quiz.py:163-165 | a character beyond the 16-bit range is written as a high and a low surrogate escape that together give the character back |
| QuizDb.FailedReloadKeepsDeletion | app/services/database/quiz.py:107-181 | a reload whose inserts fail after the delete was committed leaves the old questions deleted: the rollback cannot bring them back |
| QuizReport.Padded | app/pages/app_quiz_report.py:84-85 | a number written with leading zeros to at least the given width |
| QuizReport.DateText | app/pages/app_quiz_report.py:84-85 | `strftime('%Y-%m-%d')` gives a date text of at least ten characters |
| QuizReport.OpenReport | app/pages/app_quiz_report.py:21-90 | access is denied exactly when `Administrator` does not occur in the module text; a start date after the end date stops the page; otherwise the filters are the picked dates as text and the picked quiz's id, none for "All Quizzes" or when the user has no quiz files |
| QuizReport.ReportFilters | app/pages/app_quiz_report.py:57-99 | every picked date becomes a filter clause, and the quiz does exactly when one is picked with an id other than 0 |
| QuizReport.Medal | app/pages/app_quiz_report.py:214-224 | ranks 1, 2 and 3 get the gold, silver and bronze medals and any other rank `#` and its number |
| QuizReport.MedalInjective | app/pages/app_quiz_report.py:214-224 | different ranks never show the same label |
| QuizReport.SplitEvaluationName | app/pages/app_quiz_report.py:228-236 | as written: a name containing ` - ` is cut at its first occurrence, else one containing `-` at its first dash, and otherwise the date is empty; the pieces joined by the separator give the name back |
| QuizReport.SplitAtFirstDash | app/pages/app_quiz_report.py:230-233 | a name without spaces is cut right after its first part without a dash |
| QuizReport.FirstDashUnique | app/pages/app_quiz_report.py:230-233 | the cut at the first dash is unique |
| QuizReport.LastDash | app/pages/app_quiz_report.py:228-236 | the position of the last dash, absent exactly when there is none |
| QuizReport.SplitEvaluationNameAtLast | app/pages/app_quiz_report.py:228-236 | corrected: the name is cut at its last dash, so the date part holds no dash |
| QuizReport.SplitEvaluationNameRoundTrip | app/pages/app_quiz_report.py:228-236 | cutting a stored name at its last dash gives back the stripped input and the timestamp, whatever dashes the input holds (the quiz page stores the stripped input, a dash and the timestamp, app/pages/app_quiz.py line 144) |
| QuizReport.LastDashOf | app/pages/app_quiz_report.py:228-236 | in a name followed by a dash and a dash-free stamp, the last dash is the one before the stamp |
| QuizReport.HyphenatedNameSplitEarly | app/pages/app_quiz_report.py:228-236 | as written, an input such as `quiz-2` is captioned `quiz`, its second half being formatted as part of the date; the corrected caption shows the whole input (names as stored by app/pages/app_quiz.py line 144) |
| QuizReport.StripUntouched | app/pages/app_quiz.py:144 | a name that neither starts nor ends with whitespace is stored as it is |
| QuizReport.FormatEvaluationDate | app/pages/app_quiz_report.py:239-254 | 14 or more digits that form a valid moment are shown as `dd/mm/YYYY HH:MM:SS` from the first 14; 8 to 13 that form a valid day as `dd/mm/YYYY`; otherwise the digits themselves |
| QuizReport.FormattedDigits | app/pages/app_quiz_report.py:239-254 | the shown date only rearranges digits of the date text: all of them, or the day, month and year and the time from the first 14 or 8 |
| QuizReport.DayTextDigits | app/pages/app_quiz_report.py:249-250 | the day format holds the day, month and year digits in that order |
| QuizReport.MomentDigits | app/pages/app_quiz_report.py:245-246 | the moment format holds the day, month, year and time digits in that order |
| QuizReport.GlueDigits | app/pages/app_quiz_report.py:239 | a separator that is not a digit is dropped by the digit filter |
| QuizReport.EvaluationCaptionAsWritten | app/pages/app_quiz_report.py:226-254 | as written, the caption is the name and the formatted date of the first-dash split |
| QuizReport.EvaluationCaption | app/pages/app_quiz_report.py:226-254 | corrected: the caption is the name before the last dash and the formatted date after it |
| QuizReport.CaptionOfStoredName | app/pages/app_quiz_report.py:226-254 | a name stored by the quiz page from a 20-digit `%Y%m%d%H%M%S%f` stamp, which keeps its first 17 digits, is captioned (corrected split) with the stripped input and those 17 digits formatted, to the second from the first 14 (app/pages/app_quiz.py line 144) |
| QuizReport.SliceDigits | app/pages/app_quiz_report.py:239 | a run of digits is kept whole by the digit filter |
| SelectAi.UndoubleDouble | app/services/database/select_ai.py:250-251 | doubling a character and then reading each doubled pair back as one gives the text back |
| SelectAi.DoubleCommute | app/services/database/select_ai.py:250-251 | doubling quotes then percent signs gives the same text as the other order |
| SelectAi.EscapeQuotesAndPercents | app/services/database/select_ai.py:250-251 | the escaped prompt grows by one character per quote and one per percent sign |
| SelectAi.EscapeRoundTrip | app/services/database/select_ai.py:250-251 | undoing the percent and then the quote doubling gives the prompt back |
| SelectAi.EscapedLiteral | app/services/database/select_ai.py:250-251 | placed between quotes, the escaped prompt reads back as one literal holding the prompt with its percent signs still doubled, and nothing after it is swallowed |
| SelectAi.ChatPrompt | app/services/database/select_ai.py:250-256 | the text sent is the escaped prompt followed by the language instructions |
| SelectAi.ChatPromptRecovers | app/services/database/select_ai.py:250-256 | the instructions are a suffix of the text sent, and the part before them unescapes to the prompt |
| SelectAi.ChatPromptKeepsEscapes | app/services/database/select_ai.py:250-302 | a prompt with a quote reaches the bind variable longer than it was typed, although a bind variable needs no escaping |
| SelectAi.CountPositive | app/services/database/select_ai.py:250-251 | a character that occurs is counted at least once |
| SelectAi.MessagesFor | app/services/database/select_ai.py:259-279 | the messages are always one of the three language tables |
| SelectAi.MessagesFallback | app/services/database/select_ai.py:276-279 | Spanish and Portuguese get their own messages, and every other language, exactly, the English ones |
| SelectAi.BlockResponse | app/services/database/select_ai.py:282-312 | a failed generation answers the error prefix followed by the database error; a generated text is kept; no text gives the empty answer |
| SelectAi.GetChat | app/services/database/select_ai.py:238-319 | the call binds the escaped prompt with its instructions, the profile, the action and the language's error prefix; the answer is the block's response with the generic apology replaced |
| SelectAi.AnswerReplacesOnlyApology | app/services/database/select_ai.py:314-319 | a response is replaced exactly when it starts with the generic apology, and by the localised one; any other response is returned unchanged |
| SelectAi.GetChatReportsErrors | app/services/database/select_ai.py:296-319 | a failed generation is answered with the localised error prefix and the error text |
| SelectAi.GetChatEmpty | app/services/database/select_ai.py:309-312 | a missing or empty response is the empty answer |
| SelectAi.ReplyKept | app/services/database/select_ai.py:314-319 | a response that differs from the apology within its length is kept |
| SelectAi.ErrorPrefixes | app/services/database/select_ai.py:259-279 | every error prefix is non-empty and starts with `E`, so it is never mistaken for the apology |
| SelectAi.KeptUnlessApology | app/services/database/select_ai.py:316-319 | a response that differs from the apology at some position is returned as it is |
| SelectAi.NotStartsWith | app/services/database/select_ai.py:316 | one differing position in the prefix is enough for the apology test to fail |
| SelectAi.AnnotationClause | app/services/database/select_ai.py:126-130 | without a value, or with an empty one, the clause is the annotation name alone; with a value it is the name and the quoted, quote-doubled value; the table annotation at lines 155-159 builds the same clause |
| SelectAi.AnnotationClauseReadsBack | app/services/database/select_ai.py:126-130 | the quoted part of a valued clause reads back as exactly the value, closing at the end of the clause; the same clause serves the table annotation at lines 155-159 |
| SelectAi.LastSegment | app/services/database/select_ai.py:187 | the part after the last dot holds no dot |
| SelectAi.AddPrimaryKey | app/services/database/select_ai.py:180-194 | no columns issue nothing; otherwise one constraint named after the table, over the columns joined by `, `, and a commit |
| SelectAi.ConstraintNameOfTable | app/services/database/select_ai.py:187 | an unqualified table names its own constraint; a qualified one is its schema part, a dot and the segment the constraint is named after |
| SelectAi.Spaced | app/services/database/select_ai.py:184 | every column after the first is preceded by one space |
| SelectAi.ColumnListSplits | app/services/database/select_ai.py:184 | splitting the column list at commas gives back the columns, each after the first with its separating space |
| SelectAi.JoinSpaced | app/services/database/select_ai.py:184 | joining with `, ` is joining the spaced columns with `,` |
| SelectAi.JoinCons | app/services/database/select_ai.py:184 | the first column is followed by a comma and the rest, when there is a rest |
| SelectAi.DropUser | app/services/database/select_ai.py:46-67 | a drop that succeeds reports the deleted user; one failing with ORA-01918 reports that it does not exist; any other error returns nothing |
| SelectAi.DropUserMessages | app/services/database/select_ai.py:63-67 | both messages name the user, and they differ |
| SelectAiAgent.ConversationSql | app/services/database/select_ai_agent.py:96-118 | the query is the head, the two escaped arguments in quotes and the tail |
| SelectAiAgent.ConversationSqlReadsBack | app/services/database/select_ai_agent.py:108-117 | the database reads exactly two literal arguments: the profile unchanged, then the query with its percent signs doubled |
| SelectAiAgent.ArgumentsReadBack | app/services/database/select_ai_agent.py:111-117 | two quote-doubled arguments in quotes read back as themselves, whatever quotes they hold |
| SelectAiAgent.ProfileKeepsPercents | app/services/database/select_ai_agent.py:108-109 | percent signs are doubled in the query but not in the profile |
| SelectAiAgent.NoQuoteUnchanged | app/services/database/select_ai_agent.py:108 | a name without quotes is not changed by escaping |
| SelectAiAgent.GetData | app/services/database/select_ai_agent.py:87-94 | the frame the query produced, or the empty frame when it raised |
| SelectAiAgent.GetDataNeverFails | app/services/database/select_ai_agent.py:87-94 | an empty result means the query raised or found no rows; a failure cannot be told apart from an empty frame |
| SelectAiAgent.CreateAgent | app/services/database/select_ai_agent.py:17-37 | the block passes both profile names unescaped; the work is committed and the success message returned exactly when neither the block's execution nor the commit raises, with no message otherwise |
| SelectAiAgent.CreateAgentReadsBack | app/services/database/select_ai_agent.py:17-37 | names without quotes are read back as exactly the two arguments |
| OciSelectAi.ProfileShape | app/services/oci_select_ai.py:15-27 | the profile is the credential upper-cased, `_SQL_` and the user id |
| OciSelectAi.ProfileInjective | app/services/oci_select_ai.py:15-27 | with one credential, different users get different profiles |
| OciSelectAi.UpperNumber | app/services/oci_select_ai.py:27 | upper-casing leaves the user id's digits as they are |
| OciSelectAi.HasTextIff | app/services/oci_select_ai.py:87-130 | a text passes `strip()` exactly when it is not blank |
| OciSelectAi.Step | app/services/oci_select_ai.py:85-123 | one row gives at most one comment, or at most two annotations |
| OciSelectAi.ConcatAppend | app/services/oci_select_ai.py:85-102 | the calls for two runs of rows are the calls for each, in order |
| OciSelectAi.RowsSnoc | app/services/oci_select_ai.py:85-102 | each further row adds its own calls after the earlier ones |
| OciSelectAi.CommentRowsExact | app/services/oci_select_ai.py:84-93 | a comment is written exactly for each row whose comment is not blank, with that row's column and comment; never more than one per row |
| OciSelectAi.AnnotationRowsBounded | app/services/oci_select_ai.py:101-123 | at most two annotations per row, each on the table, non-blank, and named UI_Display or Classification only when the editor has that column |
| OciSelectAi.AnnotationRowsComplete | app/services/oci_select_ai.py:101-123 | every non-blank UI_Display and Classification value of every row is written |
| OciSelectAi.PkColumns | app/services/oci_select_ai.py:140-145 | no more key columns than rows |
| OciSelectAi.PkColumnsExact | app/services/oci_select_ai.py:140-146 | the key columns are exactly the names of the marked rows, and none exactly when no row is marked |
| OciSelectAi.PkColumnsInOrder | app/services/oci_select_ai.py:142-144 | the key columns keep the editor's row order |
| OciSelectAi.Issue | app/services/oci_select_ai.py:70-164 | when a call raises, the calls made are exactly those up to and including it; otherwise all of them |
| OciSelectAi.Skip | app/services/oci_select_ai.py:163-164 | after a raise no later call is made |
| OciSelectAi.Attempt | app/services/oci_select_ai.py:70-164 | one more call is made only while nothing has raised |
| OciSelectAi.RunComments | app/services/oci_select_ai.py:83-93 | the loop makes the plan's comment calls up to a raise, and counts them all when none raises |
| OciSelectAi.RunAnnotations | app/services/oci_select_ai.py:100-123 | the loop makes the plan's annotation calls up to a raise, and counts them all when none raises |
| OciSelectAi.AnnotateRow | app/services/oci_select_ai.py:103-123 | one row's UI_Display then Classification call, each counted |
| OciSelectAi.CommentRow | app/services/oci_select_ai.py:85-93 | one row's comment call, made and counted only when its comment is not blank |
| OciSelectAi.CollectPkColumns | app/services/oci_select_ai.py:140-145 | the loop collects exactly the key columns |
| OciSelectAi.ApplyComments | app/services/oci_select_ai.py:82-97 | only a present, non-empty editor gives comments |
| OciSelectAi.ApplyAnnotations | app/services/oci_select_ai.py:99-127 | only a present, non-empty editor gives annotations, each kind only when the editor has its column |
| OciSelectAi.ApplyDescription | app/services/oci_select_ai.py:129-136 | a non-blank description becomes the table's UI_Display annotation |
| OciSelectAi.ApplyKey | app/services/oci_select_ai.py:138-152 | the primary key is added only when the editor has the column and some row is marked |
| OciSelectAi.ApplyProfile | app/services/oci_select_ai.py:154-160 | the profile is created and then the table cache refreshed |
| OciSelectAi.ApplyColumns | app/services/oci_select_ai.py:82-127 | the comment calls and then the annotation calls, each counter equal to its section's calls when none raises |
| OciSelectAi.ApplyRest | app/services/oci_select_ai.py:129-160 | the table annotation, the primary key, the profile and the cache, in that order, up to a raise |
| OciSelectAi.Create | app/services/oci_select_ai.py:49-164 | the calls made are the plan's (table, comments, annotations, description, key, profile, cache) up to the first that raises; success is reported exactly when none raises, with both counters equal to the calls of their section |
| Login.ParseModulesFallback | app/components/st_login.py:28-30 | one item per comma-separated part of the text without its outer brackets, each stripped of whitespace and then of double quotes |
| Login.ParseModules | app/components/st_login.py:15-30 | a text that is a Python literal gives that list; any other falls back to the comma split |
| Login.FallbackRoundTrip | app/components/st_login.py:28-30 | names without commas and with clean ends, joined by commas, are parsed back into the same names |
| Login.FallbackRoundTripBracketed | app/components/st_login.py:28-30 | the same holds for the names written inside brackets |
| Login.JoinUnstripped | app/components/st_login.py:30 | a comma list of clean names loses nothing to the bracket strip |
| Login.JoinSplitsBack | app/components/st_login.py:30 | splitting the comma list gives the names back |
| Login.BracketsUnwrapped | app/components/st_login.py:30 | the bracket strip removes exactly the brackets around a clean list |
| Login.JoinEndsClean | app/components/st_login.py:30 | a list of clean names neither starts nor ends with a bracket |
| Login.CleanItemOfCleanName | app/components/st_login.py:30 | a clean name is unchanged by the per-item strip |
| Login.JoinHead | app/components/st_login.py:30 | the list starts with the first name's first character, or with a comma |
| Login.JoinTail | app/components/st_login.py:30 | the list ends with the last name's last character, or with a comma |
| Login.FallbackItems | app/components/st_login.py:28-30 | no parsed item holds a comma or starts or ends with a double quote |
| Login.CleanItemShape | app/components/st_login.py:30 | the per-item strip adds no comma and leaves no outer double quote |
| Login.Available | app/components/st_login.py:56-62 | no more demos are shown than exist |
| Login.AvailableExact | app/components/st_login.py:56-66 | a demo is shown exactly when its label is one of the user's modules |
| Login.AvailableInOrder | app/components/st_login.py:62 | the shown demos keep the menu's order |
| Login.AvailableAllOrNone | app/components/st_login.py:62-66 | a user with every demo module sees all demos, and one with none sees none |
| Login.Menu | app/components/st_login.py:32-75 | the menu always starts with Knowledge, Agents and Agent Builder and ends with Profile |
| Login.AdminMenu | app/components/st_login.py:69-72 | Users and User Group are in the menu exactly when the user has the Administrator module |
| Login.LanguageMessage | app/components/st_login.py:272-279 | the three offered languages, and only they, have a no-information message |
| Login.LanguageMessagesDiffer | app/components/st_login.py:274-279 | each language has its own message |
| Login.LoginEntries | app/components/st_login.py:292-310 | a sign-in sets every key of the session, with the user's id, modules, username and `name, last name`, the chosen language and its message, and empty chats |
| Login.LoginSession.constructor | app/components/st_login.py:237-243 | a new session is empty and not signed in |
| Login.LoginSession.GetLogin | app/components/st_login.py:241-243 | the menu is shown exactly when all six keys are in the session |
| Login.LoginSession.SubmitLogin | app/components/st_login.py:283-317 | an active user is signed in with the login entries over the old session; a deactivated user, or wrong credentials, leave the session as it was with their own error |
| Login.LoginSession.SignOut | app/components/st_login.py:229-235 | signing out empties the session, which is then not signed in |
| DbConnection.GetEnv | app/services/database/connection.py:20-27 | a variable is present exactly when it is set, with its value |
| DbConnection.ConfigFrom | app/services/database/connection.py:20-27 | the configuration directory and the wallet location are the same variable; every other field is present exactly when its variable is set |
| DbConnection.Conn.constructor | app/services/database/connection.py:31-44 | a new driver connection is open, autocommit off until it is set |
| DbConnection.Conn.Close | app/services/database/connection.py:60-82 | a close that succeeds closes the connection and nothing else changes |
| DbConnection.CreateConnection | app/services/database/connection.py:31-44 | a fresh open connection with autocommit on exactly when connecting succeeds |
| DbConnection.Connection.constructor | app/services/database/connection.py:16-19 | a new instance has its configuration and no `conn` attribute |
| DbConnection.Connection.EnsureConnection | app/services/database/connection.py:46-63 | without the attribute it fails; with no connection it connects; a live connection is kept; a dead one is closed and replaced, and kept when the replacement cannot connect |
| DbConnection.Connection.GetConnection | app/services/database/connection.py:65-73 | the connection returned is the live one kept or a fresh one, always with autocommit on; it is returned whenever connecting or the ping succeeds |
| DbConnection.Connection.CloseConnection | app/services/database/connection.py:75-86 | a held connection is closed and dropped; a failed close re-raises and keeps it; with none nothing happens |
| DbConnection.Connection.Exit | app/services/database/connection.py:88-101 | leaving the `with` block closes and drops the connection when the close succeeds, and keeps it otherwise |
| DbConnection.Registry.constructor | app/services/database/connection.py:14 | no instance exists before the first construction |
| DbConnection.Registry.NewAsWritten | app/services/database/connection.py:16-29 | as written: the first construction registers the instance and then connects, so a failed connection leaves it registered without a `conn` attribute; later constructions return it without connecting |
| DbConnection.Registry.New | app/services/database/connection.py:16-29 | corrected: with `conn` set to none first, a failed first connection leaves an instance that can still connect |
| DbConnection.FailedFirstConnectAsWritten | app/services/database/connection.py:16-73 | after one failed first connection, `get_connection` fails for good although the database is reachable again |
| DbConnection.FailedFirstConnectRecovers | app/services/database/connection.py:16-73 | with the corrected construction the next `get_connection` returns an open connection |
| DbConnection.SingletonReused | app/services/database/connection.py:16-29 | two constructions give one instance and one connection, still open |
| Queues.Fifo.constructor | app/pages/app_speech.py:49-52 | a new queue is empty |
| Queues.Fifo.Put | app/pages/app_speech.py:332 | `put` adds the item after all queued ones |
| Queues.Fifo.Get | app/pages/app_speech.py:319-320 | `get` on a non-empty queue returns the oldest item and leaves the rest in order |
| Queues.Fifo.TakeAll | app/pages/app_speech.py:355-357 | draining returns every queued item, oldest first, and leaves the queue empty |
| Strings.StripCharsIdempotent | app/components/st_login.py:30 | stripping the same characters twice changes nothing more |
| Strings.BlankIff | app/services/oci_select_ai.py:87 | a text strips to nothing exactly when it consists only of the stripped characters |
| Strings.JoinSplit | app/components/st_login.py:30 | joining the parts of a split with its separator gives the text back |
| Strings.SplitJoin | app/components/st_login.py:30 | splitting a join of separator-free parts gives the parts back |
| Strings.ReadQuotedDouble | app/services/database/select_ai.py:127-128 | a quote-doubled text between quotes is read back as exactly that text, leaving what follows |
| Strings.ParseNatToString | app/pages/app_quiz_report.py:239 | reading the decimal digits of a number gives the number back |
| Strings.UpperIdempotent | app/services/oci_select_ai.py:27 | upper-casing twice is upper-casing once |

## Left out

- Threads and asyncio: `create_oci_worker`, `bridge_audio`, `asyncio.gather`/`cancel` and the join timeout (app/pages/app_speech.py:362-410). These exist only for concurrency. The worker is an abstract producer of result-queue items, and the send and session loops run sequentially over a queue whose contents are given.
- Network and SDK clients are oracles: `RealtimeSpeechClient.connect`/`send_data`, text-to-speech, the agent and Select AI LLM calls and `DBMS_CLOUD_AI.GENERATE`. All are foreign code.
- SpeechRealtime.StartRealtimeSession: an exception raised by `send_data` (lines 151-154) is modelled as the capacity of a connection, the number of packets it accepts before failing. Task cancellation is not modelled.
- The audio resampler and `floatTo16BitPCM`: floating-point PCM conversion. Frames are given as byte sequences.
- `render_conversation`'s HTML, JavaScript and playback restore (app/pages/app_speech.py:166-246): client-side code. Only the autoplay-id comparison is kept.
- `st.error`, `st.toast`, `get_success`/`get_error`, `st.switch_page`, `st.rerun`, cache clears, page configuration and every widget are UI. Reruns are repeated calls of a step method, and the counters or messages the UI would show are returned instead.
- SQL semantics: the database evaluates the queries. In the report queries the fixed SQL and each filter clause are abstract parts that record only the bind variables they name, so what is modelled is the order of the parts, which clauses are appended and the agreement of binds and parameters, not the SQL text. The control flow is modelled.
- The `ALTER TABLE`, `COMMENT` and `CREATE` statement texts of the Select AI layer: only the annotation clause, the constraint name and the column list are modelled as text. The other calls are actions in order.
- `create_table_from_csv`, `create_profile`, `get_tables_cache`, `update_comment`, `get_tables`, `get_quiz_questions`, `get_quiz_modules`, `get_user_evaluations`, `get_evaluation_results`, `get_quiz_stats`, `delete_evaluation`, `insert_quiz_answer` and `list_functions_and_procedures`: single database calls with no decision logic.
- `random.sample` is modelled as taking a given prefix of the candidates, and `random.shuffle` as a given permutation. The reordering of the selected questions (app/pages/app_quiz.py:179) is not modelled, so question order is kept.
- Floating point: score percentages, chart data and time display are not modelled. Quota arithmetic is done on integers with the source's truncation.
- pandas, Altair charts and `st.cache_data`: data frames are sequences of rows, and `read_sql` is an oracle.
- `json.loads` and `ast.literal_eval` are oracles. Their failure is a `None`, and a literal that is not a list is not modelled. `AgentService.PairsDict` handles string keys only. An item of the pair list is unpacked as Python iterates it: a two-element list, a two-character string or a two-key dict (which gives its two keys). Any other item, including a set or a tuple, which the model has no value for, is treated as making `dict` raise.
- SelectAiAgent.CreateAgent: the exception raised by a failing `execute` or `commit` (app/services/database/select_ai_agent.py:35-36) is modelled as two flags that suppress the commit and the message; the exception itself and its propagation to the page are not. The whitespace of both statement texts, the `BEGIN SP_SEL_AI_AGENT(...); END;` block (lines 30-34) and the `SELECT SP_SEL_AI_AGENT_CONVERSATION(...) AS ANSWER FROM DUAL` query (lines 111-117), is normalised to one line with single spaces.
- Malformed quiz JSON (a `KeyError` on a missing field) is not modelled: questions are records with every field present.
- QuizReport.DayText: years below 1000 are written with four digits (zero-padded). `strftime('%Y')` leaves them unpadded on some platforms, and that platform dependence is not modelled. QuizReport.DateText has the same limit.
- PyJson.StrOf: `str()` of a list or a dict is a placeholder (`[...]`, `{...}`) keeping only the opening bracket, not Python's `repr` of the contents. So wherever the program calls `str()` on a list or a dict held in node data (a tool list, an identifier, a `type` field), the model's text differs from Python's and only its first character and non-emptiness are promised.
- PlsqlBlock.BlockShape: stated for attributes whose JSON breaks lines at line feeds only, because the as-written `splitlines` indentation can break the literal elsewhere (see the findings). `PlsqlBlock.BlockShapeCorrected` states it for all attributes of the corrected block.
- QuizReport.CaptionOfStoredName: stated for the corrected last-dash caption. The as-written caption of a name that holds a dash is `QuizReport.HyphenatedNameSplitEarly`.
- Python `str.strip`, `upper`, `lower` and `isdigit` are modelled on ASCII letters and digits, with Python's whitespace set; Unicode case mapping is not.
- DbConnection: the driver is foreign, so `connect`, `ping` and `close` are booleans given per call. A ping is not tied to the connection's closed state. The message printed on a failed close (app/services/database/connection.py:85) is not modelled.
- Login.ParseModules: `ast.literal_eval` is an oracle. Only the fallback branch is modelled as text.
- Pages app_chat_01.py, app_chat_02.py and app_prompts.py, the prompt service and the text-to-speech wrapper: UI glue and thin wrappers. Text-to-speech enters only as the optional-bytes oracle.
- Concurrency between the UI thread and the worker is not modelled: the queues are plain first-in first-out sequences.

## Findings

| source | as written | input that shows it | evidently intended | confidence | as-written member | corrected member |
|---|---|---|---|---|---|---|
| app/services/oci_speech_realtime.py:116-148 | the send loop reads the `None` sentinel itself, closes the client and returns; the outer `while True` then waits for a new first packet, and nothing puts a second sentinel in the queue | queue holding one packet, then `None`: one connection, then the session waits for ever | the sentinel ends the session wherever it is read | not executed | SpeechRealtime.StreamSentinelLeavesLoopWaiting | SpeechRealtime.StoppingEndsOnSentinel |
| app/pages/app_agent_builder.py:74-82 | `_indent_json_block` splits with `splitlines`, which also breaks at U+2028 and other separators that `json.dumps(..., ensure_ascii=False)` leaves raw inside string values | attributes `{"a": "x\u2028y"}`, a raw U+2028 in the value,: twelve spaces are inserted inside the value | only the newlines `json.dumps` writes start lines | not executed | PlsqlBlock.LineSeparatorSplitsValue | PlsqlBlock.IndentRoundTrip |
| app/pages/app_quiz_report.py:228-236 | the report splits the stored evaluation name, written by app/pages/app_quiz.py line 144 as the name, a dash and a timestamp, at its first dash | evaluation name `quiz-2`, stored as `quiz-2-<timestamp>`: shown as `quiz`, and the date becomes `2<timestamp>` | the name before the timestamp, and the timestamp as the date | not executed | QuizReport.HyphenatedNameSplitEarly | QuizReport.CaptionOfStoredName |
| app/services/database/connection.py:16-29 | `__new__` registers `_instance` before `_create_connection` runs, so a connection error leaves a registered instance without a `conn` attribute | first `Connection()` while the database is down, then `Connection().get_connection()` once it is back: `AttributeError`, on every call | a failed first connection is retried by the next `_ensure_connection` | not executed | DbConnection.FailedFirstConnectAsWritten | DbConnection.FailedFirstConnectRecovers |
