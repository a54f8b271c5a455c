# Medical voice assistant — Dafny model of the orchestration core

This project models the `MedicalAssistant` of the voice medical assistant
(`backend/agent.py`) and the pure record handling of the knowledge-base
upload script (`scripts/upload_patients.py`), and proves properties of the
model with Dafny.

The assistant answers a spoken question in three stages: transcription
(Whisper), answer generation by a LangChain agent whose only tool searches a
Pinecone vector index of patient records, and speech synthesis (ElevenLabs,
falling back to gTTS). The services the assistant calls while answering
(Whisper, the agent, ElevenLabs `convert`, gTTS, the vector index's
`similarity_search`) and the index listing are parameters of the model: an
`Outcome` (`Ok(value)` or `Raised`), or a function from the service's input
to an `Outcome`, so a contract can say which text reached which service.
Whether creating the ElevenLabs client and connecting to the index raise
at construction are plain `bool` parameters of the constructor. A ghost
trace `calls` records, in order, the invocations of Whisper, `agent.run`,
ElevenLabs `convert` and gTTS; the index listing, index connection,
similarity search and client creation are not recorded in it. A ghost
counter `strayTempFiles` counts temporary audio files left on disk.

Modules, one per concept:

- `Outcomes` (outcomes.dfy): `Outcome` and `Option`.
- `Text` (text.dfy): `Join`, Python's `sep.join(parts)`, and its laws.
- `Memory` (memory.dfy): conversation turns, the "last 3 exchanges" view and
  the context text rendered from it.
- `Speech` (speech.dfy): `AudioBuffer` (an `io.BytesIO`: contents and
  position), the primary provider's chunk stream, and `SynthesizedAudio`,
  the audio the two-tier chain ends up with.
- `Documents` (documents.dfy): documents with `page_content` and metadata.
- `UploadPatients` (upload_patients.dfy): `create_documents` and the
  content preview.
- `Assistant` (assistant.dfy): the `MedicalAssistant` class: readiness
  chain, retrieval tool, transcription, synthesis, answer generation, the
  pipeline and the health report.

The model follows the code as written:

- The temporary audio file is removed only when transcription succeeds
  (`backend/agent.py:155`); on a failed save or a failed Whisper call it
  stays on disk (`strayTempFiles` grows by one).
- A degraded answer (no agent, or the agent raising) is NOT appended to the
  conversation history: the append follows `agent.run`
  (`backend/agent.py:226-233`).
- The "last 3 turns" context text is built but never given to the agent:
  `agent.run` receives the bare question (`backend/agent.py:226`), and the
  prompt template built in `setup_agent` is never passed to the agent
  (`backend/agent.py:108-138`).
- With no vector index connected there is no retrieval tool and no agent
  (`backend/agent.py:82-84`, `backend/agent.py:103-105`); the answer is then
  the fixed "not available" message (`backend/agent.py:213-214`).

## Model

| member | source | states |
|---|---|---|
| Text.JoinFront | backend/agent.py:90 | a join reads as the first part, one separator, then the join of the rest |
| Text.JoinSnoc | backend/agent.py:220-223 | joining one more part appends one separator and that part (the recursive case of `Join`, for a list written as `parts + [last]`) |
| Memory.RecentTurns | backend/agent.py:222 | `history[-3:]`: at most three turns, and exactly the newest ones, in insertion order |
| Memory.HistoryContext | backend/agent.py:218-223 | the context text: "" for an empty history, else the last three turns, each as `Q: q\nA: a`, joined by "\n"; empty exactly when the history is, and otherwise ending with the newest turn |
| Memory.OlderTurnsIgnored | backend/agent.py:220-222 | turns older than the last three never affect the context text |
| Memory.HistoryContextAppend | backend/agent.py:220-223 | after an append the context is the (at most two) previous turns' context, a newline, then `Q: q\nA: a` of the new turn |
| Speech.AudioBuffer.constructor | backend/agent.py:185 | a new buffer is empty and positioned at its start |
| Speech.AudioBuffer.Write | backend/agent.py:187 | writing overwrites from the position on, extends the buffer, and advances the position by the chunk length |
| Speech.AudioBuffer.Rewind | backend/agent.py:188 | seeking to 0 keeps the contents and moves to the start |
| Speech.FlattenConcat | backend/agent.py:186-187 | writing two runs of chunks gives the concatenation of what each run writes |
| Speech.FlattenSplit | backend/agent.py:186-187 | each streamed chunk appears unchanged after all earlier chunks and before all later ones |
| Speech.SynthesizedAudio | backend/agent.py:162-209 | the audio `text_to_speech` ends with: the primary's chunks concatenated when the primary serves, else the secondary's audio; none exactly when the primary does not serve and the secondary raises |
| Speech.PrimaryFailureFallsBack | backend/agent.py:165-209 | any primary failure (no client, the call raising, the stream raising part way) yields exactly the secondary's result |
| Speech.PrimaryAudioKeepsChunkOrder | backend/agent.py:184-191 | when the primary serves, the audio is its chunks concatenated in stream order |
| UploadPatients.CreateDocuments | scripts/upload_patients.py:83-97 | one document per patient in the same order; its text is the patient's content; its metadata is exactly the patient's id and source "medical_records" |
| UploadPatients.ContentPreview | scripts/upload_patients.py:136 | the whole content when at most 100 characters, else its first 100 characters and "..."; never longer than 103; length 103 exactly when cut |
| Assistant.IndexNameFrom | backend/agent.py:46 | the environment's index name when set, else "medical-assistant" |
| Assistant.SearchMedicalRecords | backend/agent.py:86-93 | the store is asked for k=3 documents for the query; their texts are joined by blank lines; any failure gives "Error searching medical records" |
| Assistant.SearchResultLayout | backend/agent.py:89-90 | the search text starts with the first document's text, and each later document follows a blank line |
| Assistant.TranscriptOf | backend/agent.py:140-160 | a transcript exists exactly when the upload was saved and Whisper answered, and it is Whisper's text |
| Assistant.MedicalAssistant.constructor | backend/agent.py:25-78 | client only for a non-empty key whose creation succeeds; store only when the listing succeeds, names the index and connecting succeeds; empty history; readiness chain holds |
| Assistant.MedicalAssistant.SetupRagTool | backend/agent.py:80-99 | the tool exists exactly when a vector store does |
| Assistant.MedicalAssistant.SetupAgent | backend/agent.py:101-138 | the agent exists exactly when the tool does, over that tool alone |
| Assistant.MedicalAssistant.TranscribeAudio | backend/agent.py:140-160 | returns Whisper's text or None; Whisper gets the uploaded audio only once saved; the temp file stays behind on every failure after its creation |
| Assistant.MedicalAssistant.TextToSpeech | backend/agent.py:162-209 | a fresh buffer at offset 0 holding the primary's chunks in order, else the secondary's audio for the same text, else null; the secondary is invoked exactly when the primary does not serve |
| Assistant.MedicalAssistant.GetMedicalResponse | backend/agent.py:211-239 | no agent: the "not available" message, no service call, history unchanged; agent raises: the error message, history unchanged; agent answers: that answer, and exactly the turn (question, answer) appended; the answer and the appended turns agree with `ResponseFor` and `RecordedTurns`; the readiness invariant is kept |
| Assistant.MedicalAssistant.ProcessAudioQuery | backend/agent.py:241-259 | empty or missing transcript: (None, None, "Failed to transcribe audio") with no generation or synthesis; synthesis failure: transcript, answer and "Failed to generate audio response"; else the audio at offset 0; one temp file is left behind exactly when the file was created and no transcript came back |
| Assistant.MedicalAssistant.HealthStatus | backend/agent.py:265-272 | the report mirrors the three readiness fields and the index listing, and fails when the listing raises |
| Assistant.ReadinessChain | backend/agent.py:80-105 | in every report, agent ready implies tool ready, which implies index connected |
| Assistant.DegradedAnswersAreFixed | backend/agent.py:211-239 | an answer that records no turn is one of the two fixed messages; one that does records (question, answer) |

## Left out

- External services are not modelled: Whisper, ElevenLabs `convert`, gTTS `write_to_fp`, Pinecone `list_indexes`, `similarity_search` (including embedding the query) and `agent.run` (including the agent's reasoning loop and its use of the retrieval tool) are outcomes, or functions to outcomes, supplied by the caller. Connecting with `Index` and `PineconeVectorStore` is the constructor's `connected` flag, and creating the ElevenLabs client its `elevenLabsCreated` flag.
- The filesystem side of transcription (temporary file name, `save`, `open`, `unlink`) is reduced to `TempFileStep` and the `strayTempFiles` counter; `unlink` is taken to succeed.
- The ElevenLabs voice id, output format and voice settings are opaque constants of the provider call; the voice settings are floating point.
- Logging calls are left out.
- Construction steps outside any `try` (creating the OpenAI, Pinecone, embeddings and chat-model clients, `initialize_agent`) are taken to succeed; in the code their failure aborts construction.
- `str(response)` for a non-string agent result is not modelled: the agent's outcome is already text.
- `test_tts` only forwards to `text_to_speech` and is not modelled separately.
- A document count of at most k from the vector index is the index's promise and is not checked.
- `AudioBuffer.Rewind`: only seeking to offset 0 is modelled, the only seek the code performs.
- The JSON value type of a patient's `id` is modelled as text.
- UploadPatients.CreateDocuments: a record without a `content` or `id` key makes the script raise `KeyError`; the typed `Patient` record always has both, so that failure is not modelled.
- The upload script's I/O is left out: environment loading and `sys.exit`, index creation and the readiness polling loop, reading the JSON file, uploading to the vector store, and the printing loop of `test_retrieval` (only its preview expression is modelled).
- backend/app.py (HTTP routing) is not part of this model; its one relevant consequence is that the synthesis-failure message is a non-empty string, so that case still reaches a 200 response.
- frontend/src/App.js and setup_env.py are not part of this model.
- Concurrency is left out: the model is sequential, although the one conversation history is shared by every request of the process.
