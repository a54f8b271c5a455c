/**
 * The medical assistant: readiness of its knowledge-base dependencies,
 * retrieval, answer generation with conversation memory, two-tier speech
 * synthesis, and the transcribe -> answer -> speak pipeline.
 *
 * Every external service (speech-to-text, the vector index, the language-model
 * agent, both speech providers) is a parameter: an `Outcome` or a function from
 * the service's input to an `Outcome`, so that contracts can say which input
 * reached which service.
 */
module Assistant {
  import opened Outcomes
  import opened Text
  import opened Memory
  import opened Documents
  import opened Speech

  /** The index name used when the environment names none. */
  const DefaultIndexName: string := "medical-assistant"

  /** The name under which the retrieval tool is offered to the agent. */
  const ToolName: string := "medical_records_search"

  /** How many documents a retrieval asks the vector index for. */
  const SearchK: nat := 3

  const SearchErrorMessage: string := "Error searching medical records"

  const UnavailableMessage: string :=
    "The medical knowledge base is not available. Please ensure the Pinecone index has been set up and contains patient data."

  const AgentErrorMessage: string := "I encountered an error while searching the medical records."

  const TranscriptionFailedMessage: string := "Failed to transcribe audio"

  const SynthesisFailedMessage: string := "Failed to generate audio response"

  /** The vector store connected to a named index. */
  datatype VectorStore = VectorStore(indexName: string)

  /** A tool the agent may invoke. */
  datatype Tool = Tool(name: string)

  /** A zero-shot ReAct agent over the given tools. */
  datatype Agent = Agent(tools: seq<Tool>)

  /** A speech client created from an API key. */
  datatype ElevenLabsClient = ElevenLabsClient(apiKey: string)

  /** An invocation of an external service, recorded in order. */
  datatype ServiceCall =
    | Whisper(audio: Bytes)
    | AgentRun(question: string)
    | ElevenLabsConvert(text: string)
    | GttsSynthesize(text: string)

  /** How far saving the uploaded audio to a temporary file got. */
  datatype TempFileStep =
    | CreateRaised   // the temporary file could not be created: nothing is on disk
    | SaveRaised     // the file exists but writing the upload into it raised
    | Saved          // the upload is on disk

  /** The readiness report. */
  datatype HealthSnapshot = HealthSnapshot(
    pineconeConnected: bool,
    ragToolReady: bool,
    agentReady: bool,
    availableIndexes: seq<string>)

  /** The third element of the pipeline's answer: the spoken reply, or why there is none. */
  datatype Reply = Audio(buffer: AudioBuffer) | Message(text: string)

  /** The pipeline's 3-tuple (transcript, response, audio-or-message). */
  datatype PipelineResult = PipelineResult(transcript: Option<string>, response: Option<string>, reply: Reply)

  /** The index name: the environment's value when it is set (even if empty), else the default. */
  function IndexNameFrom(env: Option<string>): (name: string)
    ensures env.Some? ==> name == env.value
    ensures env.None? ==> name == DefaultIndexName
  {
    if env.Some? then env.value else DefaultIndexName
  }

  /**
   * The retrieval tool's function: asks the store for `SearchK` documents
   * for the query and joins their texts with blank lines; any failure of the
   * store becomes a fixed message.
   */
  function SearchMedicalRecords(query: string, similaritySearch: (string, nat) -> Outcome<seq<Document>>): (r: string)
    ensures similaritySearch(query, SearchK).Raised? ==> r == SearchErrorMessage
    ensures similaritySearch(query, SearchK).Ok? ==>
              r == Join("\n\n", PageContents(similaritySearch(query, SearchK).value))
  {
    match similaritySearch(query, SearchK)
    case Ok(docs) => Join("\n\n", PageContents(docs))
    case Raised => SearchErrorMessage
  }

  /** With documents found, the search text starts with the first document and a blank line precedes each later one. */
  lemma SearchResultLayout(query: string, similaritySearch: (string, nat) -> Outcome<seq<Document>>)
    requires similaritySearch(query, SearchK).Ok?
    requires |similaritySearch(query, SearchK).value| > 0
    ensures var docs := similaritySearch(query, SearchK).value;
      SearchMedicalRecords(query, similaritySearch) ==
        if |docs| == 1 then docs[0].pageContent
        else docs[0].pageContent + "\n\n" + Join("\n\n", PageContents(docs[1..]))
  {
    var docs := similaritySearch(query, SearchK).value;
    var contents := PageContents(docs);
    if |docs| > 1 {
      assert contents == [docs[0].pageContent] + PageContents(docs[1..]);
      JoinFront("\n\n", docs[0].pageContent, PageContents(docs[1..]));
    }
  }

  /** The transcript Whisper produced, when the audio reached it and it answered. */
  function TranscriptOf(audio: Bytes, tempFile: TempFileStep, whisper: Bytes -> Outcome<string>): (t: Option<string>)
    ensures t.Some? <==> tempFile == Saved && whisper(audio).Ok?
    ensures t.Some? ==> t.value == whisper(audio).value
  {
    if tempFile == Saved && whisper(audio).Ok? then Some(whisper(audio).value) else None
  }

  /** The services a transcription invokes: Whisper, on the uploaded audio, once the file is saved. */
  function TranscriptionCalls(audio: Bytes, tempFile: TempFileStep): seq<ServiceCall>
  {
    if tempFile == Saved then [Whisper(audio)] else []
  }

  /** The services a synthesis invokes: the primary if a client exists, the secondary if the primary does not serve. */
  function SynthesisCalls(hasClient: bool, text: string, primary: Outcome<ChunkStream>): seq<ServiceCall>
  {
    (if hasClient then [ElevenLabsConvert(text)] else [])
    + (if PrimaryServes(hasClient, primary) then [] else [GttsSynthesize(text)])
  }

  class MedicalAssistant {
    var elevenLabsClient: Option<ElevenLabsClient>
    var indexName: string
    var vectorstore: Option<VectorStore>
    var ragTool: Option<Tool>
    var agent: Option<Agent>
    var conversationHistory: seq<Turn>
    /** Every external service invocation so far, in order. */
    ghost var calls: seq<ServiceCall>
    /** Temporary audio files left on disk by transcriptions. */
    ghost var strayTempFiles: nat

    /**
     * The readiness chain set up at construction: a retrieval tool exactly
     * when a vector store is connected, an agent (over that one tool)
     * exactly when the tool exists.
     */
    ghost predicate Valid()
      reads this
    {
      (ragTool.Some? <==> vectorstore.Some?) &&
      (agent.Some? <==> ragTool.Some?) &&
      (ragTool.Some? ==> ragTool.value == Tool(ToolName)) &&
      (agent.Some? ==> agent.value == Agent([ragTool.value]))
    }

    /**
     * Creates the speech client when an API key is set (non-empty) and its
     * creation does not raise; connects the vector store when the index
     * listing succeeds, names the index and connecting does not raise; then
     * sets up the tool and the agent.
     */
    constructor (elevenLabsKey: Option<string>, elevenLabsCreated: bool,
                 indexNameEnv: Option<string>, listing: Outcome<seq<string>>, connected: bool)
      ensures Valid()
      ensures elevenLabsClient ==
                if elevenLabsKey.Some? && elevenLabsKey.value != "" && elevenLabsCreated
                then Some(ElevenLabsClient(elevenLabsKey.value)) else None
      ensures indexName == IndexNameFrom(indexNameEnv)
      ensures vectorstore ==
                if listing.Ok? && indexName in listing.value && connected
                then Some(VectorStore(indexName)) else None
      ensures conversationHistory == [] && calls == [] && strayTempFiles == 0
    {
      if elevenLabsKey.Some? && elevenLabsKey.value != "" && elevenLabsCreated {
        elevenLabsClient := Some(ElevenLabsClient(elevenLabsKey.value));
      } else {
        elevenLabsClient := None;
      }
      var name := IndexNameFrom(indexNameEnv);
      indexName := name;
      if listing.Ok? && name in listing.value && connected {
        vectorstore := Some(VectorStore(name));
      } else {
        vectorstore := None;
      }
      conversationHistory := [];
      calls := [];
      strayTempFiles := 0;
      ragTool := None;
      agent := None;
      new;
      SetupRagTool();
      SetupAgent();
    }

    /** The retrieval tool exists exactly when a vector store is connected. */
    method SetupRagTool()
      modifies this`ragTool
      ensures ragTool == if vectorstore.Some? then Some(Tool(ToolName)) else None
    {
      if vectorstore.None? {
        ragTool := None;
        return;
      }
      ragTool := Some(Tool(ToolName));
    }

    /** The agent exists exactly when the retrieval tool does, and uses that tool alone. */
    method SetupAgent()
      modifies this`agent
      ensures agent == if ragTool.Some? then Some(Agent([ragTool.value])) else None
    {
      if ragTool.None? {
        agent := None;
        return;
      }
      agent := Some(Agent([ragTool.value]));
    }

    /**
     * Saves the upload to a temporary file and sends it to Whisper. The file
     * is removed only when transcription succeeds; any failure yields `None`.
     */
    method TranscribeAudio(audio: Bytes, tempFile: TempFileStep, whisper: Bytes -> Outcome<string>)
      returns (transcript: Option<string>)
      requires Valid()
      modifies this`calls, this`strayTempFiles
      ensures Valid()
      ensures transcript == TranscriptOf(audio, tempFile, whisper)
      ensures calls == old(calls) + TranscriptionCalls(audio, tempFile)
      ensures strayTempFiles ==
                old(strayTempFiles) + (if tempFile == CreateRaised || transcript.Some? then 0 else 1)
    {
      if tempFile == CreateRaised {
        return None;
      }
      strayTempFiles := strayTempFiles + 1;
      if tempFile == SaveRaised {
        return None;
      }
      calls := calls + [Whisper(audio)];
      match whisper(audio)
      case Raised =>
        return None;
      case Ok(text) =>
        strayTempFiles := strayTempFiles - 1;
        return Some(text);
    }

    /**
     * Speaks `text`: the primary provider's chunks copied into a new buffer,
     * or, on any primary failure (including a missing client), the secondary
     * provider's audio for the same text; `null` when both fail. A returned
     * buffer is positioned at its start.
     */
    method TextToSpeech(text: string, primary: string -> Outcome<ChunkStream>, secondary: string -> Outcome<Bytes>)
      returns (audio: AudioBuffer?)
      requires Valid()
      modifies this`calls
      ensures Valid()
      ensures var expected := SynthesizedAudio(elevenLabsClient.Some?, primary(text), secondary(text));
        (audio == null <==> expected.None?) &&
        (audio != null ==> fresh(audio) && audio.Valid() && audio.data == expected.value && audio.pos == 0)
      ensures calls == old(calls) + SynthesisCalls(elevenLabsClient.Some?, text, primary(text))
    {
      if elevenLabsClient.Some? {
        calls := calls + [ElevenLabsConvert(text)];
        var response := primary(text);
        if response.Ok? {
          var chunks := response.value.chunks;
          var buffer := new AudioBuffer();
          for i := 0 to |chunks|
            modifies buffer
            invariant fresh(buffer) && buffer.Valid()
            invariant buffer.pos == |buffer.data|
            invariant buffer.data == Flatten(chunks[..i])
          {
            assert chunks[..i + 1][..i] == chunks[..i];
            buffer.Write(chunks[i]);
          }
          if !response.value.raisesAfter {
            assert chunks[..|chunks|] == chunks;
            buffer.Rewind();
            return buffer;
          }
        }
      }
      calls := calls + [GttsSynthesize(text)];
      var spoken := secondary(text);
      if spoken.Raised? {
        return null;
      }
      var buffer := new AudioBuffer();
      buffer.Write(spoken.value);
      buffer.Rewind();
      return buffer;
    }

    /** The answer for `question` in the current state: a fixed message unless the agent exists and answers. */
    function ResponseFor(question: string, run: string -> Outcome<string>): string
      reads this
    {
      if agent.None? then UnavailableMessage
      else if run(question).Raised? then AgentErrorMessage
      else run(question).value
    }

    /** The turns an answer to `question` records: one, only when the agent exists and answers. */
    function RecordedTurns(question: string, run: string -> Outcome<string>): seq<Turn>
      reads this
    {
      if agent.Some? && run(question).Ok? then [Turn(question, run(question).value)] else []
    }

    /**
     * Answers `question` with one agent run. Without an agent, or when the
     * run raises, a fixed message is returned and the history is untouched;
     * otherwise exactly the turn (question, answer) is appended.
     */
    method GetMedicalResponse(question: string, run: string -> Outcome<string>) returns (answer: string)
      requires Valid()
      modifies this`conversationHistory, this`calls
      ensures Valid()
      ensures answer == ResponseFor(question, run)
      ensures conversationHistory == old(conversationHistory) + RecordedTurns(question, run)
      ensures agent.None? ==>
                answer == UnavailableMessage && conversationHistory == old(conversationHistory) &&
                calls == old(calls)
      ensures agent.Some? && run(question).Raised? ==>
                answer == AgentErrorMessage && conversationHistory == old(conversationHistory) &&
                calls == old(calls) + [AgentRun(question)]
      ensures agent.Some? && run(question).Ok? ==>
                answer == run(question).value &&
                conversationHistory == old(conversationHistory) + [Turn(question, answer)] &&
                calls == old(calls) + [AgentRun(question)]
    {
      if agent.None? {
        return UnavailableMessage;
      }
      // Built but never handed to the agent.
      var historyText := HistoryContext(conversationHistory);
      calls := calls + [AgentRun(question)];
      match run(question)
      case Raised =>
        return AgentErrorMessage;
      case Ok(response) =>
        conversationHistory := conversationHistory + [Turn(question, response)];
        return response;
    }

    /**
     * Transcribe, answer, speak. An empty or missing transcript stops at once
     * with (None, None, message); a synthesis failure keeps the transcript and
     * the answer and puts a message in the third place; otherwise the third
     * place holds the audio.
     */
    method ProcessAudioQuery(audio: Bytes, tempFile: TempFileStep, whisper: Bytes -> Outcome<string>,
                             run: string -> Outcome<string>,
                             primary: string -> Outcome<ChunkStream>, secondary: string -> Outcome<Bytes>)
      returns (r: PipelineResult)
      requires Valid()
      modifies this`conversationHistory, this`calls, this`strayTempFiles
      ensures Valid()
      ensures strayTempFiles ==
                old(strayTempFiles)
                + (if tempFile == CreateRaised || TranscriptOf(audio, tempFile, whisper).Some? then 0 else 1)
      ensures var t := TranscriptOf(audio, tempFile, whisper);
        if t.None? || t.value == "" then
          r == PipelineResult(None, None, Message(TranscriptionFailedMessage)) &&
          conversationHistory == old(conversationHistory) &&
          calls == old(calls) + TranscriptionCalls(audio, tempFile)
        else
          var answer := ResponseFor(t.value, run);
          var spoken := SynthesizedAudio(elevenLabsClient.Some?, primary(answer), secondary(answer));
          r.transcript == t && r.response == Some(answer) &&
          conversationHistory == old(conversationHistory) + RecordedTurns(t.value, run) &&
          calls == old(calls) + TranscriptionCalls(audio, tempFile)
                   + (if agent.Some? then [AgentRun(t.value)] else [])
                   + SynthesisCalls(elevenLabsClient.Some?, answer, primary(answer)) &&
          (spoken.None? ==> r.reply == Message(SynthesisFailedMessage)) &&
          (spoken.Some? ==> r.reply.Audio? && fresh(r.reply.buffer) &&
                            r.reply.buffer.data == spoken.value && r.reply.buffer.pos == 0)
    {
      var transcript := TranscribeAudio(audio, tempFile, whisper);
      if transcript.None? || transcript.value == "" {
        return PipelineResult(None, None, Message(TranscriptionFailedMessage));
      }
      var response := GetMedicalResponse(transcript.value, run);
      var speech := TextToSpeech(response, primary, secondary);
      if speech == null {
        return PipelineResult(transcript, Some(response), Message(SynthesisFailedMessage));
      }
      return PipelineResult(transcript, Some(response), Audio(speech));
    }

    /** The readiness report; raises when listing the indexes raises. */
    function HealthStatus(listing: Outcome<seq<string>>): (h: Outcome<HealthSnapshot>)
      reads this
      ensures h.Ok? <==> listing.Ok?
      ensures h.Ok? ==>
                h.value.pineconeConnected == vectorstore.Some? &&
                h.value.ragToolReady == ragTool.Some? &&
                h.value.agentReady == agent.Some? &&
                h.value.availableIndexes == listing.value
    {
      match listing
      case Raised => Raised
      case Ok(names) => Ok(HealthSnapshot(vectorstore.Some?, ragTool.Some?, agent.Some?, names))
    }
  }

  /** In every report of a constructed assistant, a ready agent implies a ready tool, which implies a connected index. */
  lemma ReadinessChain(a: MedicalAssistant, listing: Outcome<seq<string>>)
    requires a.Valid() && listing.Ok?
    ensures var h := a.HealthStatus(listing).value;
      (h.agentReady ==> h.ragToolReady) && (h.ragToolReady ==> h.pineconeConnected)
  {
  }

  /** The answer for a question is one of the two fixed messages unless the agent exists and answered. */
  lemma DegradedAnswersAreFixed(a: MedicalAssistant, question: string, run: string -> Outcome<string>)
    ensures a.RecordedTurns(question, run) == [] ==>
              a.ResponseFor(question, run) in {UnavailableMessage, AgentErrorMessage}
    ensures a.RecordedTurns(question, run) != [] ==>
              a.RecordedTurns(question, run) == [Turn(question, a.ResponseFor(question, run))]
  {
  }
}
