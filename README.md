# A verified model of the course-toolkit web application

The application is a single-page React app for coaches. After onboarding, the business context is stored in the browser's IndexedDB. The dashboard runs model-generated strategy tools over that context. Results are streamed into the page and saved to a local history. They can be read aloud, refined, copied and exported. One tool is a realtime voice roleplay. It streams microphone audio to a live model session and plays back the audio the model sends.

This project models the logic of that application in Dafny, with one module per source file.

- **`LiveSession`** (components/LivePricingSimulator.tsx). The voice session's refs are the fields of `SimState`. Each handler is a pure transition, and a method of the class `Simulator` is proved to perform it:
  - `startSession` and its setup failures;
  - `onopen`, `onmessage`, `onerror` and `onclose`;
  - the processor's `onaudioprocess`;
  - the sources' `ended` listener;
  - `stopSession`.

  Browser and SDK objects are numbered handles. What is done to them is a sequence of effects.
- **`Playback`**: the scheduler inside `onmessage`. Each chunk starts at `max(nextStartTime, now)` and moves `nextStartTime` forward by its duration. An interruption empties the set and resets the start time to 0. The burst properties (no overlap, back-to-back play) are proved about `Playback.Starts`. `LiveSession.BurstSchedules` ties them to the session: any run of decodable, uninterrupted messages handled one after another by `onmessage` starts its sources at exactly those times. `Simulator.OnMessage` is proved to perform `Message`, so successive calls of it are `Steps` over the same events.
- **`Pcm`**: the sample and byte conversions.
  - Outbound, each captured sample goes through ECMA-262 ToInt16 (truncate toward zero, wrap modulo 2^16). It is then stored as two little-endian bytes, and the bytes are written into a "binary string".
  - Inbound, a binary string becomes bytes, the bytes become 16-bit samples, and the samples become channel data scaled by 1/32768. This is `decode` and `decodeAudioData`.
- **`Base64`**: the browser's `btoa` (padded base64 of section 4 of RFC 4648) and `atob` (the forgiving-base64 decode of the WHATWG Infra standard). They carry the audio bytes as text.
- **`Storage`** (services/storageService.ts). The IndexedDB database is a class holding two tables, each a sequence of records in key order. Every operation commits or fails as a whole.
- **`Gemini`** (services/geminiService.ts). Covers the key check, the fallback texts of `generateText`, the accumulation loop of `streamText`, and the audio check of `generateSpeech`. The SDK's answers are inputs.
- **`Dashboard`** (pages/Dashboard.tsx). Covers:
  - the grouping of the catalogue by category;
  - the per-tool history and its three-entry preview;
  - the choice between opening the simulator, generating from the template and refining;
  - the generation flow, with its save and reload;
  - read-aloud, copy and export.
- **`ContextSetup`** (pages/ContextSetup.tsx). Covers the extraction prompt, cleaning the model's answer (removing code fences, then trimming), the field defaults, and the success and failure paths of the form.
- **`ContextView`** (pages/ContextView.tsx). Covers the tool name and icon lookups, the single expanded history entry, the edit form, delete, and save.
- **`App`** (App.tsx). Covers the loading rule, route resolution with its redirects, and reset.
- **`Types`, `Text`, `Wrappers`**: the records of types.ts, JavaScript white space with `trim`, and `Option`/`Result`.

The model follows the code where the code and the behaviour one would expect differ:

- **Interruption reset.** An interruption resets the start time to 0, not to the clock. The next chunk still starts at the clock, because its start is the larger of the two.
- **Restart while connecting.** `startSession` is guarded only by `isActive`. A start while still connecting runs the setup again and replaces the pending connection.
- **Setup failure.** A failed setup sets status `'error'`, and the teardown then sets `'idle'`.
- **Full-scale sample.** A captured sample of exactly 1.0 becomes -32768, because ToInt16 wraps instead of clamping.
- **Error note.** When a generation fails, the error note is appended to the text shown at that moment, which is the last streamed total. It is not appended to the result that was shown before the generation.
- **Toggling an entry twice.** This restores the previous state only when no other entry was open. When another entry was open, the two clicks leave every entry closed (`ContextView.ToggleTwice`).

## Model

| member | source | states |
|---|---|---|
| LiveSession.CloseIfOpen | components/LivePricingSimulator.tsx:92-97 | a context is closed unless it was already closed or absent; the ref, its handle and its rate are kept |
| LiveSession.Stopped | components/LivePricingSimulator.tsx:69-107 | after teardown the session, stream and processor refs are null, both contexts are closed, no source is live, the session is inactive and idle; `nextStartTime` is kept |
| LiveSession.StopReleasesIndependently | components/LivePricingSimulator.tsx:69-103 | each release step happens exactly when its own handle is held, whatever the other handles are; teardown starts, sends and connects nothing |
| LiveSession.StopIdempotent | components/LivePricingSimulator.tsx:69-107 | a second `stopSession` changes nothing and releases nothing |
| LiveSession.StartGuard | components/LivePricingSimulator.tsx:110 | start is a no-op when the session is active; otherwise it acts, and a completed setup leaves it connecting with the new stream, connection and two open contexts |
| LiveSession.RestartWhileConnecting | components/LivePricingSimulator.tsx:110-128 | a start while connecting is not blocked: a new connection replaces the pending one, and no old connection, stream or context is released |
| LiveSession.SetupFailureEndsIdle | components/LivePricingSimulator.tsx:229-234 | whichever setup step throws, the session ends idle and inactive, holding no connection, stream or processor, with both contexts closed or never created |
| LiveSession.DeniedMicrophoneClosesContexts | components/LivePricingSimulator.tsx:118-125 | when the microphone is denied, both contexts just created are closed |
| LiveSession.CallbackRules | components/LivePricingSimulator.tsx:131-216 | `onopen` sets connected and active; `onerror` sets `'error'` and touches nothing else; `onclose` clears active and keeps the status |
| LiveSession.PayloadRoundTrip | components/LivePricingSimulator.tsx:142-156 | decoding a sent payload as a mono chunk gives back every captured sample in [-1, 1) to within 1/32768 |
| LiveSession.NoSendAfterStop | components/LivePricingSimulator.tsx:85-88 | once stopped, a captured frame sends nothing |
| LiveSession.MessageSchedules | components/LivePricingSimulator.tsx:173-195 | a decodable chunk is started exactly at `max(nextStartTime, now)` with its frame count / 24000 as duration, and the queue end advances by that duration; an undecodable chunk only raises the queue end to the clock |
| LiveSession.InterruptClears | components/LivePricingSimulator.tsx:201-207 | an interruption stops every live source, including one the same message started, empties the set and sets the queue end to 0 |
| LiveSession.PlayableStep | components/LivePricingSimulator.tsx:173-195 | `onmessage` on a message whose chunk decodes, without interruption, starts source `nextHandle` at `max(nextStartTime, now)` and advances the state by exactly that one chunk |
| LiveSession.StepsIsBurst | components/LivePricingSimulator.tsx:171-208 | handling a run of such messages one after another, as successive `onmessage` calls do, is the playback queue's burst of their arrivals |
| LiveSession.BurstEffects | components/LivePricingSimulator.tsx:176-195 | the burst starts its chunks as consecutive sources at the start times of `Playback.Starts` |
| LiveSession.BurstState | components/LivePricingSimulator.tsx:176-195 | after the burst the queue end is `Playback.FinalNext`, each chunk added one source, and nothing outside the queue and the handle counter changed |
| LiveSession.BurstSchedules | components/LivePricingSimulator.tsx:171-208 | for any run of decodable, uninterrupted messages, the i-th emitted effect is `StartSource(nextHandle + i, Starts(nextStartTime, arrivals)[i], duration_i)`, and the final queue is the burst's |
| LiveSession.BurstPlaysInOrder | components/LivePricingSimulator.tsx:176-186 | the sources such a run of messages starts never overlap and none starts before its message arrived; a chunk arriving while audio is queued starts exactly when that audio ends, a later one starts at once |
| LiveSession.StartConsistent | components/LivePricingSimulator.tsx:109-235 | starting keeps every live source among the started ones and every held handle below the next fresh one |
| LiveSession.PlayAudioConsistent | components/LivePricingSimulator.tsx:186-195 | a source joins the live set only together with its start |
| LiveSession.MessageConsistent | components/LivePricingSimulator.tsx:171-208 | a whole message keeps the live set within the started sources |
| LiveSession.StepConsistent | components/LivePricingSimulator.tsx:171-216 | every handler keeps the session consistent with the effects it has produced |
| LiveSession.InitialConsistent | components/LivePricingSimulator.tsx:54-66 | the initial refs are consistent with no effects |
| LiveSession.Simulator.constructor | components/LivePricingSimulator.tsx:54-66 | the refs start inactive, idle, with no handles, no sources and start time 0 |
| LiveSession.Simulator.ReleaseSession | components/LivePricingSimulator.tsx:71-76 | closes the connection if present and nulls its ref |
| LiveSession.Simulator.ReleaseTracks | components/LivePricingSimulator.tsx:79-82 | stops the microphone tracks if present and nulls the ref |
| LiveSession.Simulator.ReleaseProcessor | components/LivePricingSimulator.tsx:85-89 | disconnects the processor if present and nulls the ref |
| LiveSession.Simulator.CloseContexts | components/LivePricingSimulator.tsx:92-97 | closes each context not closed yet |
| LiveSession.Simulator.ClearSources | components/LivePricingSimulator.tsx:100-103 | stops every source and empties the set |
| LiveSession.Simulator.Teardown | components/LivePricingSimulator.tsx:69-106 | the five steps in order, ending in `Stopped` with the teardown effects |
| LiveSession.Simulator.StopSession | components/LivePricingSimulator.tsx:69-107 | performs `Stopped` and its effects and keeps the class invariant |
| LiveSession.Simulator.StartSession | components/LivePricingSimulator.tsx:109-235 | performs `Start` for the given setup outcome |
| LiveSession.Simulator.FailBeforeContexts | components/LivePricingSimulator.tsx:114-118 | when the client or the input context throws, the `catch` runs with nothing created yet |
| LiveSession.Simulator.FailAfterInputContext | components/LivePricingSimulator.tsx:118-119 | when the output context throws, the `catch` runs with only the input context created |
| LiveSession.Simulator.FailAfterContexts | components/LivePricingSimulator.tsx:118-125 | when the microphone is denied, the `catch` runs with both contexts created |
| LiveSession.Simulator.CreateContexts | components/LivePricingSimulator.tsx:118-123 | the input context, then the output context and its gain node, with consecutive handles |
| LiveSession.Simulator.CompleteSetup | components/LivePricingSimulator.tsx:118-227 | both contexts, the microphone stream and the connection, in that order |
| LiveSession.Simulator.CreateInputContext | components/LivePricingSimulator.tsx:118 | a fresh 16000 Hz input context |
| LiveSession.Simulator.CreateOutputContext | components/LivePricingSimulator.tsx:119-123 | a fresh 24000 Hz output context and its gain node |
| LiveSession.Simulator.OpenMicrophoneAndConnect | components/LivePricingSimulator.tsx:125-227 | the microphone stream is held, then the connection with the tool's system instruction becomes the session ref |
| LiveSession.Simulator.FailSetup | components/LivePricingSimulator.tsx:229-234 | status `'error'`, then the full teardown |
| LiveSession.Simulator.OnOpen | components/LivePricingSimulator.tsx:131-170 | performs `Opened`: connected and active, then the processor is wired from the captured stream when the input context exists |
| LiveSession.Simulator.PlayChunk | components/LivePricingSimulator.tsx:173-199 | performs the audio half of `onmessage` |
| LiveSession.Simulator.DecodeChunk | components/LivePricingSimulator.tsx:176-184 | the queue end is raised to the clock, and the result is the chunk's decoding |
| LiveSession.Simulator.StartChunk | components/LivePricingSimulator.tsx:186-195 | a new source starts at the queue end, which moves past the chunk, and joins the live set |
| LiveSession.Simulator.OnMessage | components/LivePricingSimulator.tsx:171-208 | performs `Message`: the audio, then the interruption |
| LiveSession.Simulator.OnError | components/LivePricingSimulator.tsx:209-212 | performs `Errored` |
| LiveSession.Simulator.OnClose | components/LivePricingSimulator.tsx:213-216 | performs `Closed` |
| LiveSession.Simulator.OnAudioProcess | components/LivePricingSimulator.tsx:142-166 | changes no ref; sends the frame's payload to the session only while one is held |
| LiveSession.Simulator.OnSourceEnded | components/LivePricingSimulator.tsx:189-191 | removes that source from the live set |
| Playback.StartTime | components/LivePricingSimulator.tsx:176 | a chunk never starts before the clock or before the queue end, and starts at one of them |
| Playback.Schedule | components/LivePricingSimulator.tsx:176-195 | the new queue end is the start time plus the duration; the source joins the set |
| Playback.Drop | components/LivePricingSimulator.tsx:176-198 | an undecodable chunk keeps the sources and only raises the queue end to the clock |
| Playback.Interrupt | components/LivePricingSimulator.tsx:201-207 | no source is left and the queue end is 0 |
| Playback.Ended | components/LivePricingSimulator.tsx:189-191 | the ended source leaves the set; the queue end is kept |
| Playback.InterruptRestartsAtClock | components/LivePricingSimulator.tsx:176-206 | after an interruption the next chunk starts at the clock |
| Playback.EndedAbsent | components/LivePricingSimulator.tsx:190 | the `ended` of a source already cleared changes nothing |
| Playback.Starts | components/LivePricingSimulator.tsx:176-194 | one start time per chunk, none before its arrival, the first at `max(queue end, arrival)` |
| Playback.RunEnds | components/LivePricingSimulator.tsx:176-195 | scheduling chunk by chunk ends at the last end, with one new source per chunk |
| Playback.StartsChain | components/LivePricingSimulator.tsx:176-194 | each chunk starts at the later of the previous chunk's end and its own arrival |
| Playback.FinalNextIsLastEnd | components/LivePricingSimulator.tsx:193-194 | the queue end after a burst is the end of its last chunk |
| Playback.NoOverlapNoGap | components/LivePricingSimulator.tsx:176-194 | no chunk starts before the previous one ends; it starts exactly then when it arrived earlier, and at its arrival otherwise |
| Playback.StartsNondecreasing | components/LivePricingSimulator.tsx:176-194 | with non-negative durations start times never decrease |
| Playback.BackToBack | components/LivePricingSimulator.tsx:193-194 | chunks that each arrive before the queue drains play back to back, and the queue end is the first start plus the sum of durations |
| Pcm.Trunc | components/LivePricingSimulator.tsx:147 | the integer toward zero within one of the value |
| Pcm.ToInt16 | components/LivePricingSimulator.tsx:147 | the truncated value modulo 2^16, in the 16-bit range, unchanged when already in range |
| Pcm.PcmSamples | components/LivePricingSimulator.tsx:146-148 | one 16-bit sample per captured sample, each `ToInt16(s * 32768)` |
| Pcm.SampleInRange | components/LivePricingSimulator.tsx:146-148 | for s in [-1, 1) the stored value is the truncated product, within 1/32768 of s after scaling back |
| Pcm.FullScaleWraps | components/LivePricingSimulator.tsx:147 | a sample of 1.0 is stored as -32768 |
| Pcm.NegativeTruncatesTowardZero | components/LivePricingSimulator.tsx:147 | a negative sample is moved toward zero, never below its product |
| Pcm.ToPcm16 | components/LivePricingSimulator.tsx:144-148 | the loop fills the Int16Array with `PcmSamples` of the input |
| Pcm.ByteView | components/LivePricingSimulator.tsx:149 | two bytes per sample, low byte first |
| Pcm.Int16View | components/LivePricingSimulator.tsx:30 | the view throws on an odd byte count and otherwise has half as many samples |
| Pcm.ViewRoundTrip | components/LivePricingSimulator.tsx:30 | reading back the bytes of samples gives the same samples |
| Pcm.CharCodes | components/LivePricingSimulator.tsx:43-51 | one byte per character, the character code modulo 256 |
| Pcm.BinaryStringRoundTrip | components/LivePricingSimulator.tsx:151-155 | the char-building loop and the char-code loop are inverses on bytes 0..255 and keep the length |
| Pcm.ToBinaryString | components/LivePricingSimulator.tsx:151-155 | the loop builds the string whose character i has code byte i |
| Pcm.ToBytes | pages/Dashboard.tsx:16-24 | the loop builds the byte array with byte i equal to character code i of the decoded string |
| Pcm.Channel | components/LivePricingSimulator.tsx:34-39 | channel c holds every n-th sample from offset c, divided by 32768 |
| Pcm.DecodeAudioData | components/LivePricingSimulator.tsx:24-41 | the loops fill each channel of the buffer, or throw where the view or `createBuffer` throws |
| Pcm.MonoChunk | components/LivePricingSimulator.tsx:30-32 | a mono chunk decodes exactly when its byte count is even and non-zero, into length = bytes / 2 and sample / 32768 |
| Pcm.PcmRoundTrip | components/LivePricingSimulator.tsx:30-37 | the bytes sent for a frame in [-1, 1) decode to a buffer of the same length whose samples are within 1/32768 of the frame |
| Base64.EncodeChar | components/LivePricingSimulator.tsx:156 | the alphabet character of a 6-bit value, never the pad |
| Base64.CharRoundTrip | components/LivePricingSimulator.tsx:156 | each alphabet character decodes back to its value |
| Base64.Sextets | components/LivePricingSimulator.tsx:156 | four groups per three bytes, and two or three for a trailing one or two bytes |
| Base64.Chars | components/LivePricingSimulator.tsx:156 | one character per group |
| Base64.Encode | components/LivePricingSimulator.tsx:156 | padded output whose length is a multiple of four |
| Base64.Codes | components/LivePricingSimulator.tsx:154 | one byte per character of a binary string |
| Base64.FromCodes | components/LivePricingSimulator.tsx:154 | a binary string with one character per byte |
| Base64.CodesOfFromCodes | components/LivePricingSimulator.tsx:151-155 | a binary string built from bytes reads back as the same bytes |
| Base64.Btoa | components/LivePricingSimulator.tsx:156 | throws exactly when a character is above U+00FF |
| Base64.RemoveAsciiSpace | components/LivePricingSimulator.tsx:44 | no ASCII white space remains |
| Base64.StripPadding | components/LivePricingSimulator.tsx:44 | one or two trailing pads are dropped from a multiple of four |
| Base64.Values | components/LivePricingSimulator.tsx:44 | one value per alphabet character |
| Base64.Atob | components/LivePricingSimulator.tsx:44 | a decoded string is a binary string |
| Base64.DecodeEncodedSextets | components/LivePricingSimulator.tsx:44 | regrouping the 6-bit groups of bytes gives the bytes back |
| Base64.AtobBtoa | components/LivePricingSimulator.tsx:44 | `atob(btoa(s)) == s` for every binary string |
| Base64.AtobRejects | components/LivePricingSimulator.tsx:44 | `atob` throws exactly when, after white space and padding are removed, a character is outside the alphabet or the length is 1 modulo 4 |
| Text.TrimStart | pages/ContextSetup.tsx:46 | a suffix of the input that is empty or starts with a non-space |
| Text.TrimStartDropsSpace | pages/ContextSetup.tsx:46 | every character `TrimStart` drops is white space |
| Text.TrimEnd | pages/ContextSetup.tsx:46 | a prefix of the input that is empty or ends with a non-space |
| Text.TrimEndDropsSpace | pages/ContextSetup.tsx:46 | every character `TrimEnd` drops is white space |
| Text.TrimIsInfix | pages/ContextSetup.tsx:46 | `trim` gives a contiguous piece of the input with no white space at either end |
| Text.TrimKeepsFirst | pages/ContextSetup.tsx:46 | `trim` keeps a first character that is not white space |
| Text.CodeUnits | pages/Dashboard.tsx:185 | a character takes two UTF-16 code units exactly when it is above U+FFFF, else one |
| Text.Substring | pages/Dashboard.tsx:185 | `substring(0, n)` is a prefix within `n` code units, the whole text when it fits, and stops only where the next character would pass `n` |
| Text.SubstringBmp | pages/Dashboard.tsx:185 | on text without characters above U+FFFF the substring is the prefix of `n` characters |
| Text.SubstringAstral | pages/Dashboard.tsx:185 | on text made only of characters above U+FFFF the substring keeps `n / 2` characters |
| Text.NatToString | pages/ContextSetup.tsx:50 | a non-empty string of decimal digits; `NatToStringInjective` adds that different numbers give different strings |
| Text.NatToStringInjective | pages/ContextSetup.tsx:50 | `Date.now().toString()` is injective: two ids are equal exactly when the clock readings are |
| Storage.KeyLessTotal | services/storageService.ts:23-26 | distinct keys are ordered one way or the other |
| Storage.InsertByKey | services/storageService.ts:64 | the table gains the record and nothing else |
| Storage.InsertKeepsKeyOrder | services/storageService.ts:64 | adding a new key keeps the table in key order |
| Storage.RemoveKey | services/storageService.ts:90 | exactly the records with that key are gone |
| Storage.RemoveAbsentKey | services/storageService.ts:90 | deleting an absent key is a no-op |
| Storage.RemoveKeepsKeyOrder | services/storageService.ts:90 | deleting keeps key order |
| Storage.InsertByTime | services/storageService.ts:78 | one step of the stable sort keeps the records |
| Storage.SortByTime | services/storageService.ts:78 | the sort is a permutation |
| Storage.SortByTimeOrdered | services/storageService.ts:75-79 | sorting a key-ordered table gives newest first, ties in key order |
| Storage.NewestFirstUnique | services/storageService.ts:78 | the order is total: two newest-first lists of the same records are equal |
| Storage.Database.constructor | services/storageService.ts:9-30 | both tables start empty; `supported` says whether IndexedDB exists |
| Storage.Database.SaveContext | services/storageService.ts:32-43 | the context table holds exactly the new context; history is unchanged; without IndexedDB it rejects and changes nothing |
| Storage.Database.GetContext | services/storageService.ts:45-57 | the first stored context, or null when the table is empty; rejects without IndexedDB |
| Storage.Database.SaveResult | services/storageService.ts:59-68 | a new key adds the record; a stored key makes the add fail and changes nothing; contexts are unchanged |
| Storage.Database.GetHistory | services/storageService.ts:70-83 | a permutation of the history, newest first |
| Storage.Database.DeleteResult | services/storageService.ts:85-94 | only the records with that id are removed; an absent id changes nothing; contexts are unchanged |
| Storage.Database.ClearData | services/storageService.ts:96-105 | both tables are empty, or neither changes |
| Gemini.FirstInlineData | services/geminiService.ts:80 | present exactly when every optional level down to the first part's data is present |
| Gemini.GetClient | services/geminiService.ts:3-7 | fails with the missing-key error exactly when the key is absent or empty |
| Gemini.GenerateText | services/geminiService.ts:9-30 | never empty; the fixed error text on a missing key or a rejected request |
| Gemini.GenerateTextOutcomes | services/geminiService.ts:14-29 | the response text when it is non-empty, "No response generated." when it is empty, the error text otherwise |
| Gemini.Texts | services/geminiService.ts:50-53 | the non-empty chunk texts, at most one per chunk |
| Gemini.RunningTotals | services/geminiService.ts:53-54 | one reported total per non-empty chunk |
| Gemini.StreamText | services/geminiService.ts:32-62 | the loop reports the running totals and returns their concatenation; a missing key or any stream failure is rethrown |
| Gemini.ReportsArePrefixes | services/geminiService.ts:49-56 | each report is a strictly longer extension of the one before and a prefix of the final text; the last one is that text |
| Gemini.LastReportIsResult | services/geminiService.ts:49-57 | when the stream completes, the last report, or "" without one, is the returned text |
| Gemini.GenerateSpeech | services/geminiService.ts:64-87 | the first candidate's first part's data, exactly when the key, the request and that data are present and non-empty |
| Dashboard.FirstAppearances | pages/Dashboard.tsx:65-69 | each category present once, and only those |
| Dashboard.OfCategory | pages/Dashboard.tsx:65-69 | exactly the tools of that category |
| Dashboard.GroupsSnocNew | pages/Dashboard.tsx:66 | a category met for the first time opens a new group holding the tool |
| Dashboard.GroupsSnocOld | pages/Dashboard.tsx:67 | a tool of a known category is pushed onto its group |
| Dashboard.GroupTools | pages/Dashboard.tsx:65-69 | the reduce builds `GroupsOf` of the catalogue |
| Dashboard.FirstAppearanceOrder | pages/Dashboard.tsx:231 | each category is listed after every category that appears earlier |
| Dashboard.GroupsPartition | pages/Dashboard.tsx:65-69 | no group is empty, no category has two groups, every tool is in the group of its category, in catalogue order |
| Dashboard.GroupsInFirstAppearanceOrder | pages/Dashboard.tsx:231 | groups come in the order their categories first appear |
| Dashboard.OfTool | pages/Dashboard.tsx:220 | exactly the records of that tool |
| Dashboard.OfToolIsSubsequence | pages/Dashboard.tsx:220 | the filter keeps the order of the history |
| Dashboard.OfToolNewestFirst | pages/Dashboard.tsx:220 | filtering a newest-first history stays newest first |
| Dashboard.ToolHistoryRules | pages/Dashboard.tsx:218-221 | empty without a selection; otherwise the order-preserving subsequence of the selected tool's records |
| Dashboard.HistoryPreview | pages/Dashboard.tsx:350-367 | shown only with no result and a non-empty history; the first min(3, n) entries; "+ N more" only when n > 3, with N = n - 3 |
| Dashboard.PreviewShowsNewest | pages/Dashboard.tsx:356 | the listed entries are newer than every entry left out |
| Dashboard.RefinementQuotes | pages/Dashboard.tsx:103-110 | the refinement prompt quotes the previous result and the instruction verbatim |
| Dashboard.ChooseMode | pages/Dashboard.tsx:86-114 | nothing without a tool; the simulator for a voice tool without refine text; the refinement prompt only when both the refine text and the result are non-empty, the template otherwise |
| Dashboard.SendRefines | pages/Dashboard.tsx:90-101 | with a non-empty refine text and a shown result, `handleGenerate` refines that result whatever the tool: the voice branch at line 90 is skipped when a refine text is given |
| Dashboard.Underscored | pages/Dashboard.tsx:160 | no white space is left and the name does not grow |
| Dashboard.UnderscoredKeeps | pages/Dashboard.tsx:160 | a name without white space is kept |
| Dashboard.UnderscoredRun | pages/Dashboard.tsx:160 | each maximal run of white space becomes exactly one underscore |
| Dashboard.ExportFileName | pages/Dashboard.tsx:160 | no white space, and ends in `_Strategy.md` |
| Dashboard.Download | pages/Dashboard.tsx:154-165 | a file exactly when a result and a tool are present, named by the tool and holding the result |
| Dashboard.SpeechText | pages/Dashboard.tsx:185 | a prefix of the result of at most 4000 UTF-16 code units, the whole result when it fits, and cut only where the next character would pass 4000 |
| Dashboard.DashboardPage.constructor | pages/Dashboard.tsx:27-43 | the initial state variables and refs |
| Dashboard.DashboardPage.LoadHistory | pages/Dashboard.tsx:52-55 | the whole history, newest first; a rejection changes nothing |
| Dashboard.DashboardPage.StopAudio | pages/Dashboard.tsx:167-173 | the current source, if any, is stopped and forgotten; playback is off |
| Dashboard.DashboardPage.HandleToolClick | pages/Dashboard.tsx:71-78 | playback stops; the tool is selected with no result, empty refine text, Copied cleared and the simulator closed |
| Dashboard.DashboardPage.HandleLoadHistoryItem | pages/Dashboard.tsx:80-83 | playback stops and the stored content is shown |
| Dashboard.DashboardPage.Back | pages/Dashboard.tsx:310 | the result is cleared |
| Dashboard.DashboardPage.SetRefinementInput | pages/Dashboard.tsx:384 | the refine text is replaced |
| Dashboard.DashboardPage.CloseSimulator | pages/Dashboard.tsx:422 | the simulator is hidden |
| Dashboard.DashboardPage.HandleCopy | pages/Dashboard.tsx:146-152 | a shown result is copied and Copied is set; otherwise nothing happens |
| Dashboard.DashboardPage.CopiedTimeout | pages/Dashboard.tsx:150 | Copied is cleared |
| Dashboard.DashboardPage.HandleDownload | pages/Dashboard.tsx:154-165 | saves `Download` of the result and tool, and changes no state |
| Dashboard.DashboardPage.HandleGenerate | pages/Dashboard.tsx:85-144 | the mode decides. Generating streams into the result. Success saves a record with the tool's id, the clock's id and the final text, reloads the history and clears the refine text. Failure appends the error note to what is shown. Generating always ends false |
| Dashboard.DashboardPage.RunGeneration | pages/Dashboard.tsx:95-143 | the try, catch and finally of a generation, over the stream's outcome and the save's outcome |
| Dashboard.DashboardPage.BeginGeneration | pages/Dashboard.tsx:95-117 | the spinner is on, Copied cleared, the result emptied, and `streamText` called with the prompt and the tool's instruction |
| Dashboard.DashboardPage.StreamResult | pages/Dashboard.tsx:119-124 | the stream's outcome, with the last reported total shown |
| Dashboard.DashboardPage.FailGeneration | pages/Dashboard.tsx:139-143 | the error note is appended to what is shown, and generating ends |
| Dashboard.DashboardPage.FinishGeneration | pages/Dashboard.tsx:134-142 | the reloaded history is shown, the refinement input cleared and generating ends |
| Dashboard.DashboardPage.HandleListen | pages/Dashboard.tsx:175-210 | while playing it only stops; without a result nothing happens; otherwise `generateSpeech` is called and the speech played when it decodes, with an alert on failure |
| Dashboard.DashboardPage.RequestSpeech | pages/Dashboard.tsx:183-209 | `generateSpeech` is called with the first 4000 code units of the text; a failure ends in the alert with the state unchanged, otherwise the speech is played when it decodes |
| Dashboard.DashboardPage.PlaySpeech | pages/Dashboard.tsx:185-202 | the audio context is created on first use; then the speech is decoded and started |
| Dashboard.DashboardPage.EnsureAudioContext | pages/Dashboard.tsx:188-190 | a context is created only when none exists |
| Dashboard.DashboardPage.DecodeAndStart | pages/Dashboard.tsx:192-202 | a decodable answer starts a new source and playback is on; otherwise the alert |
| Dashboard.DashboardPage.StartPlayback | pages/Dashboard.tsx:195-202 | a new source is held and started, playback is on and synthesis ends |
| Dashboard.DashboardPage.ListenFailed | pages/Dashboard.tsx:204-209 | the alert, and synthesis ends |
| Dashboard.DashboardPage.OnEnded | pages/Dashboard.tsx:198 | playback is off |
| ContextSetup.RemoveAll | pages/ContextSetup.tsx:46 | global removal of a literal pattern never lengthens the text |
| ContextSetup.RemoveFencesTicks | pages/ContextSetup.tsx:46 | removing the fences leaves a leading run of backticks of its old length modulo 3 |
| ContextSetup.RemoveFencesShape | pages/ContextSetup.tsx:46 | no three backticks remain after the fences are removed |
| ContextSetup.Mod3IsRemainder | pages/ContextSetup.tsx:46 | the repeated subtraction used for the backtick count is the remainder modulo 3 |
| ContextSetup.LeadingTicksRun | pages/ContextSetup.tsx:46 | the counted run is all backticks and is followed by another character or the end |
| ContextSetup.CleanJsonShape | pages/ContextSetup.tsx:46 | the cleaned answer has no fence and no white space at either end |
| ContextSetup.RemoveAllSkips | pages/ContextSetup.tsx:46 | a backtick pattern passes a backtick-free text through untouched, whatever follows it |
| ContextSetup.CleanJsonPlain | pages/ContextSetup.tsx:46 | an answer without backticks is only trimmed |
| ContextSetup.CleanJsonFenced | pages/ContextSetup.tsx:46 | an answer "```json" + text + "```", with no backtick in the text, cleans to the trimmed text |
| ContextSetup.CleanJsonKeepsFirst | pages/ContextSetup.tsx:46 | the cleanup keeps a first character that is neither a backtick nor white space |
| ContextSetup.FieldOr | pages/ContextSetup.tsx:51-56 | the parsed value when present and non-empty, the default otherwise; never empty with a non-empty default |
| ContextSetup.NewContextFilled | pages/ContextSetup.tsx:49-57 | every field is filled: the id is the clock's digits and each field has its parsed value or its fixed default |
| ContextSetup.ContextOf | pages/ContextSetup.tsx:47-57 | no context when parsing threw or gave null; otherwise the defaulted context |
| ContextSetup.ExtractionPromptQuotes | pages/ContextSetup.tsx:28-40 | the description is quoted verbatim between the fixed instructions |
| ContextSetup.FixedAnswersAreNotJson | pages/ContextSetup.tsx:43-47 | when the client or the call fails, or the response is empty, `generateText`'s fixed text yields no context, for any `JSON.parse` that throws on a text starting with a character no JSON text starts with |
| ContextSetup.NotJsonStart | pages/ContextSetup.tsx:46-47 | an answer starting with a character that is not a backtick, not white space and not a JSON lead character does not parse |
| ContextSetup.ContextSetupPage.constructor | pages/ContextSetup.tsx:17-19 | the initial description, not analysing, no error |
| ContextSetup.ContextSetupPage.SetDescription | pages/ContextSetup.tsx:92 | the description is replaced |
| ContextSetup.ContextSetupPage.HandleSubmit | pages/ContextSetup.tsx:21-72 | on success the context is saved, then set, then '/' is opened; on failure the error is shown and nothing is set or opened; analysing always ends false |
| ContextSetup.ContextSetupPage.BeginAnalysis | pages/ContextSetup.tsx:22-42 | analysing starts, the error is cleared and `generateText` is called exactly once, with the extraction prompt for the current description |
| ContextSetup.ContextSetupPage.SaveAnalysed | pages/ContextSetup.tsx:57-71 | a context is saved, set and '/' opened, in that order, the error left as it was; no context or a rejected save shows the error, keeps the stored context and opens nothing; analysing ends false |
| ContextView.Find | pages/ContextView.tsx:39 | the index of the first tool with that id, or none when there is no such tool |
| ContextView.GetToolName | pages/ContextView.tsx:38-40 | the first match's name, or 'Unknown Tool' when there is no match or the name is empty |
| ContextView.GetToolIcon | pages/ContextView.tsx:42-46 | the first match's icon, or FileText when there is no match, its icon is empty, or the library lacks it |
| ContextView.Toggle | pages/ContextView.tsx:192 | the clicked entry is open afterwards exactly when it was not open before; otherwise nothing is open |
| ContextView.ToggleTwice | pages/ContextView.tsx:192 | two clicks restore the state when nothing else was open, and close everything when another entry was open |
| ContextView.AtMostOneExpanded | pages/ContextView.tsx:185 | with distinct ids at most one entry is expanded |
| ContextView.WithField | pages/ContextView.tsx:114-159 | an edit sets its own field and keeps every other field and the id |
| ContextView.EditsCommute | pages/ContextView.tsx:114-159 | edits of different fields commute; a second edit of a field overrides the first |
| ContextView.ContextViewPage.constructor | pages/ContextView.tsx:13-17 | empty history, nothing expanded, not editing, the form holding the context |
| ContextView.ContextViewPage.LoadHistory | pages/ContextView.tsx:19-21 | the whole history, newest first |
| ContextView.ContextViewPage.ClickItem | pages/ContextView.tsx:192 | the expanded entry is toggled |
| ContextView.ContextViewPage.HandleDelete | pages/ContextView.tsx:23-30 | only after confirmation: exactly the records with that id are deleted and the list is reloaded newest first |
| ContextView.ContextViewPage.StartEditing | pages/ContextView.tsx:58 | edit mode is entered |
| ContextView.ContextViewPage.Edit | pages/ContextView.tsx:114-159 | exactly the edited field of the form changes |
| ContextView.ContextViewPage.Cancel | pages/ContextView.tsx:63 | edit mode is left and the form is restored to the context |
| ContextView.ContextViewPage.HandleSaveEdit | pages/ContextView.tsx:32-36 | the stored context becomes the form, then edit mode is left and the page reloads; a rejected save changes nothing |
| App.RouteElement | App.tsx:41-49 | '/' shows the dashboard with a context and redirects to '/context' without; '/context' shows setup or the view; any other path redirects to '/' |
| App.Route | App.tsx:41-49 | without a context every path ends at setup; with one '/context' ends at the view and every other path at the dashboard |
| App.FollowSettles | App.tsx:41-49 | every path comes to rest within two redirects, and further lookups change nothing |
| App.Displayed | App.tsx:35 | the loading screen exactly while loading, the routed page after |
| App.AppShell.constructor | App.tsx:11-12 | no context, loading |
| App.AppShell.LoadData | App.tsx:14-26 | loading ends whether the read succeeds or throws; the context is set only when a record is stored |
| App.AppShell.SetContext | App.tsx:47 | the setup page's callback sets the context |
| App.AppShell.Navigate | App.tsx:43 | the location changes and nothing else |
| App.AppShell.HandleReset | App.tsx:28-33 | only after confirmation, both stores are cleared and the context is dropped, so setup is shown; a rejected clear keeps the context |

## Left out

- **Web Audio, media and SDK objects.** This covers AudioContext, gain and processor nodes, `getUserMedia`, buffer sources, `ai.live.connect` and `generateContent(Stream)`. They are numbered handles and recorded effects, and their outcomes are inputs. The clock (`currentTime`) is an input of each message.
- **Promise interleaving.** `sessionPromise.then` and the `await` inside `onmessage` are not modelled. Each handler and each page action runs as one atomic step.
- **React updates.** React's batching of state updates and stale closures are not modelled: each `set…` takes effect at once. Unmount cleanup (`stopSession` and `stopAudio` on unmount) is not modelled separately.
- **Float32 storage.** Floating-point storage of samples in Float32Array is not modelled. Samples are exact reals, which matches the code because every scaling is by 32768.
- **IndexedDB mechanics.** `open`, `onupgradeneeded`, and request and transaction events are replaced by tables that commit or fail as a whole. A missing IndexedDB is the `supported` flag. Other transaction errors are not modelled.
- **Storage.Database.GetHistory:** `Array.prototype.sort` is a library call. It is modelled by its result, a stable sort by descending timestamp, and not as an in-place algorithm.
- **Library calls as inputs.** `JSON.parse` is an input function. Its result is reduced to the string-valued members of the object: a member that is not a string is treated as absent.
- ContextSetup.FixedAnswersAreNotJson: `JSON.parse` is not modelled, so the lemma assumes only that it throws on the empty text and on a text whose first character can start no JSON text (`RejectsNonJson`).
- **Other inputs.** `Date.now()`, `window.confirm` and the browser's `decodeAudioData` acceptance of a byte buffer are inputs too.
- **Alerts and file saves.** `alert`, the clipboard and the download are recorded effects.
- **Reloads.** `location.reload` and router navigation are recorded effects or location changes.
- **App.Route:** React Router's case-insensitive and trailing-slash matching is not modelled; paths match exactly.
- **Dashboard.SpeechText:** when code unit 4000 is the first half of a surrogate pair, JavaScript sends that lone half. A Dafny string cannot hold a lone surrogate, so the model ends the text before that character (`Text.Substring`).
- **Dashboard.DashboardPage.HandleGenerate:** the Enter key in the refinement input calls the handler without the trimmed-text check of the Send button. The handler itself is modelled for any refine text.
- **The simulator's API key.** The `process.env.API_KEY || ''` passed to the simulator is not modelled: the simulator's client constructor outcome is an input.
- **Rendering.** JSX, CSS, `Layout` and `MarkdownRenderer` are left out. The only render rules modelled are the history preview, the routes and the loading screen.
- **`createBlob`.** It is unused and duplicates the outbound conversion.
- **constants.ts** (the prompts and the catalogue) is not part of this model. Each tool's prompt template result is an input of `HandleGenerate`, and the catalogue is a parameter.
- **Ordering of live sources.** The set of live sources is a mathematical set, so the order in which `forEach` stops them is not modelled.
- **DEFAULT_DESCRIPTION.** The setup page's default description is not modelled; the initial description is a parameter of its constructor.
