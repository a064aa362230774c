/**
 * The session state machine of `main` in nextopp.py and try.py. Both keep
 * `conversation`, `vectorstore`, `chat_history` and `processed` in Streamlit's
 * session state and run the same guards; they differ only in the splitter and
 * chain parameters and in the apology recorded when generation fails, which
 * `AppConfig` carries.
 *
 * Each Streamlit rerun handles one interaction: the sidebar form was
 * submitted (`Ingest`) or a question was typed (`Ask`). What the outside
 * world did during that rerun (Ollama's health check, the scrape, the
 * splitter, whether the Ollama client could be built, what `invoke` did) is
 * part of the input.
 */
module GuardedSession {
  import opened Wrappers
  import opened Text
  import opened Retrieval

  datatype AppConfig = AppConfig(splitter: SplitterConfig, chain: ChainConfig, apology: string)

  const NextoppApology: string := "Sorry, I encountered an error. Please try again."
  const TryApology: string := "Sorry, I encountered an error. Please check if Ollama is running properly."

  const NextoppApp: AppConfig := AppConfig(NextoppSplitter, NextoppChain, NextoppApology)
  const TryApp: AppConfig := AppConfig(TrySplitter, TryChain, TryApology)

  datatype State = State(conversation: Option<Chain>, vectorstore: Option<VectorStore>,
                         chatHistory: seq<Turn>, processed: bool)

  /** The session state after the `not in st.session_state` initialisations. */
  const Init: State := State(None, None, [], false)

  /**
   * One submission of the sidebar form: the fields typed in, the model chosen,
   * and what the outside world did during the rerun: whether the embeddings
   * and FAISS built the index without raising (`indexReady`) and whether the
   * Ollama client and chain were built without raising (`llmReady`).
   */
  datatype Submission = Submission(ollamaRunning: bool, email: string, password: string, groupUrl: string,
                                   modelName: string, scraped: string, split: Splitter,
                                   indexReady: bool, llmReady: bool)

  /**
   * Which message the rerun showed. `IndexingCrashed`: `get_vectorstore`
   * raised, which nothing in `main` catches, so the rerun stopped there.
   */
  datatype IngestNotice =
    | OllamaDown | MissingFields | ExtractionFailed | NoMeaningfulText | IndexingCrashed | ChainFailed
    | Processed(chunkCount: nat)

  datatype AskNotice = ChatHidden | NoQuestion | NeedsProcessing | Answered | Apologised

  /** The guards on a submission that come before any state change. */
  predicate Admits(sub: Submission) {
    sub.ollamaRunning && sub.email != "" && sub.password != "" && sub.groupUrl != "" && !IsBlank(sub.scraped)
  }

  /** The `if submitted:` branch of `main`. */
  function IngestStep(cfg: AppConfig, s: State, sub: Submission): (r: (State, IngestNotice))
    ensures r.0.chatHistory == s.chatHistory
    ensures s.processed ==> r.0.processed
    ensures r.0.processed && !s.processed ==> r.1.Processed?
    ensures !sub.ollamaRunning ==> r == (s, OllamaDown)
    ensures IsBlank(sub.scraped) ==> r.0 == s
    ensures r.1.Processed? <==>
              Admits(sub) && sub.split(sub.scraped, cfg.splitter) != [] && sub.indexReady && sub.llmReady
    ensures r.1 == ChainFailed <==>
              Admits(sub) && sub.split(sub.scraped, cfg.splitter) != [] && sub.indexReady && !sub.llmReady
    ensures r.1.Processed? ==>
              var chunks := sub.split(sub.scraped, cfg.splitter);
              && r.1.chunkCount == |chunks| > 0
              && r.0.vectorstore == Some(VectorStore(chunks))
              && r.0.conversation == Some(Chain(VectorStore(chunks), sub.modelName, cfg.chain))
              && r.0.processed
    ensures r.1 == ChainFailed ==>
              r.0 == s.(vectorstore := Some(VectorStore(sub.split(sub.scraped, cfg.splitter))), conversation := None)
    ensures !r.1.Processed? && r.1 != ChainFailed ==> r.0 == s
  {
    if !sub.ollamaRunning then (s, OllamaDown)
    else if sub.email == "" || sub.password == "" || sub.groupUrl == "" then (s, MissingFields)
    else if IsBlank(sub.scraped) then (s, ExtractionFailed)
    else
      var chunks := GetTextChunks(sub.scraped, cfg.splitter, sub.split);
      if chunks == [] then (s, NoMeaningfulText)
      else if !sub.indexReady then (s, IndexingCrashed)
      else
        var store := GetVectorstore(chunks);
        var conversation := GetConversationChain(store, sub.modelName, cfg.chain, sub.llmReady);
        if conversation.Some? then
          (s.(vectorstore := store, conversation := conversation, processed := true), Processed(|chunks|))
        else
          (s.(vectorstore := store, conversation := conversation), ChainFailed)
  }

  /** The answer recorded for a question `invoke` was asked. */
  function Reply(cfg: AppConfig, outcome: InvokeOutcome): string {
    match outcome
    case Returned(answer) => AnswerText(answer)
    case Raised => cfg.apology
  }

  /** The chat section of `main`: the question is only read once the group was processed. */
  function AskStep(cfg: AppConfig, s: State, question: string, outcome: InvokeOutcome): (r: (State, AskNotice))
    ensures r.0.conversation == s.conversation && r.0.vectorstore == s.vectorstore && r.0.processed == s.processed
    ensures !s.processed ==> r == (s, ChatHidden)
    ensures s.conversation.None? ==> r.0 == s
    ensures r.0 != s <==> s.processed && question != "" && s.conversation.Some?
    ensures r.0 != s ==> r.0.chatHistory == s.chatHistory + [Turn(question, Reply(cfg, outcome))]
    ensures r.1 == Apologised <==> r.0 != s && outcome.Raised?
  {
    if !s.processed then (s, ChatHidden)
    else if question == "" then (s, NoQuestion)
    else if s.conversation.None? then (s, NeedsProcessing)
    else
      var turn := Turn(question, Reply(cfg, outcome));
      assert s.chatHistory + [turn] != s.chatHistory by {
        assert |s.chatHistory + [turn]| == |s.chatHistory| + 1;
      }
      (s.(chatHistory := s.chatHistory + [turn]), if outcome.Raised? then Apologised else Answered)
  }

  datatype Event = Submit(sub: Submission) | Ask(question: string, outcome: InvokeOutcome)

  function Step(cfg: AppConfig, s: State, e: Event): State {
    match e
    case Submit(sub) => IngestStep(cfg, s, sub).0
    case Ask(question, outcome) => AskStep(cfg, s, question, outcome).0
  }

  /** The state after a sequence of reruns. */
  function Run(cfg: AppConfig, s: State, events: seq<Event>): State
    decreases |events|
  {
    if events == [] then s else Run(cfg, Step(cfg, s, events[0]), events[1..])
  }

  // --------------------------------------------------------------- properties

  /** A successful `invoke` records the answer, or "No answer found." when the response has none. */
  lemma AnswerRecorded(cfg: AppConfig, s: State, question: string, answer: Option<string>)
    requires s.processed && question != "" && s.conversation.Some?
    ensures AskStep(cfg, s, question, Returned(answer)).0.chatHistory ==
              s.chatHistory + [Turn(question, answer.GetOr("No answer found."))]
  {
  }

  /** nextopp.py records its apology when `invoke` raises. */
  lemma NextoppApologyRecorded(s: State, question: string)
    requires s.processed && question != "" && s.conversation.Some?
    ensures AskStep(NextoppApp, s, question, Raised).0.chatHistory ==
              s.chatHistory + [Turn(question, "Sorry, I encountered an error. Please try again.")]
  {
  }

  /** try.py records its apology when `invoke` raises. */
  lemma TryApologyRecorded(s: State, question: string)
    requires s.processed && question != "" && s.conversation.Some?
    ensures AskStep(TryApp, s, question, Raised).0.chatHistory ==
              s.chatHistory + [Turn(question, "Sorry, I encountered an error. Please check if Ollama is running properly.")]
  {
  }

  /** Over any sequence of reruns `chat_history` is only appended to, never cleared or reordered. */
  lemma {:induction false} RunHistoryGrows(cfg: AppConfig, s: State, events: seq<Event>)
    ensures s.chatHistory <= Run(cfg, s, events).chatHistory
    decreases |events|
  {
    if events != [] {
      var next := Step(cfg, s, events[0]);
      assert s.chatHistory <= next.chatHistory;
      RunHistoryGrows(cfg, next, events[1..]);
    }
  }

  /** Over any sequence of reruns `processed` is never set back to false. */
  lemma {:induction false} RunProcessedSticks(cfg: AppConfig, s: State, events: seq<Event>)
    requires s.processed
    ensures Run(cfg, s, events).processed
    decreases |events|
  {
    if events != [] {
      RunProcessedSticks(cfg, Step(cfg, s, events[0]), events[1..]);
    }
  }

  /**
   * The invariant the session keeps: a conversation exists only once the group
   * was processed and is built over the current vector store; a vector store
   * holds at least one chunk; every recorded question was non-empty.
   */
  predicate Consistent(s: State) {
    && (s.conversation.Some? ==> s.processed && s.vectorstore == Some(s.conversation.value.store))
    && (s.vectorstore.Some? ==> s.vectorstore.value.documents != [])
    && forall i :: 0 <= i < |s.chatHistory| ==> s.chatHistory[i].question != ""
  }

  lemma StepKeepsConsistent(cfg: AppConfig, s: State, e: Event)
    requires Consistent(s)
    ensures Consistent(Step(cfg, s, e))
  {
  }

  lemma {:induction false} RunKeepsConsistent(cfg: AppConfig, s: State, events: seq<Event>)
    requires Consistent(s)
    ensures Consistent(Run(cfg, s, events))
    decreases |events|
  {
    if events != [] {
      StepKeepsConsistent(cfg, s, events[0]);
      RunKeepsConsistent(cfg, Step(cfg, s, events[0]), events[1..]);
    }
  }

  /** Every state reachable from the initial one is consistent. */
  lemma ReachableConsistent(cfg: AppConfig, events: seq<Event>)
    ensures Consistent(Run(cfg, Init, events))
  {
    RunKeepsConsistent(cfg, Init, events);
  }

  /**
   * The warning "Please process a Facebook group first." is reachable: after
   * a successful processing, a second submission whose chain cannot be built
   * leaves `processed` true and `conversation` empty, and a question then
   * records nothing.
   */
  lemma WarningReachable(cfg: AppConfig, sub: Submission, question: string, outcome: InvokeOutcome)
    requires Admits(sub) && sub.split(sub.scraped, cfg.splitter) != [] && sub.indexReady && sub.llmReady
    requires question != ""
    ensures var s := Run(cfg, Init, [Submit(sub), Submit(sub.(llmReady := false))]);
            && s.processed && s.conversation.None? && s.vectorstore.Some?
            && AskStep(cfg, s, question, outcome) == (s, NeedsProcessing)
  {
    var s1 := Step(cfg, Init, Submit(sub));
    var s2 := Step(cfg, s1, Submit(sub.(llmReady := false)));
    assert IngestStep(cfg, s1, sub.(llmReady := false)).1 == ChainFailed;
    var events := [Submit(sub), Submit(sub.(llmReady := false))];
    assert events[1..] == [Submit(sub.(llmReady := false))];
    assert events[1..][1..] == [];
    assert Run(cfg, Init, events) == Run(cfg, s1, events[1..]);
    assert Run(cfg, s1, events[1..]) == Run(cfg, s2, []);
  }

  // ------------------------------------------------------------ the session

  /** `st.session_state` of one browser session. */
  class Session {
    const config: AppConfig
    var conversation: Option<Chain>
    var vectorstore: Option<VectorStore>
    var chatHistory: seq<Turn>
    var processed: bool

    function Current(): State
      reads this
    {
      State(conversation, vectorstore, chatHistory, processed)
    }

    ghost predicate Valid()
      reads this
    {
      Consistent(Current())
    }

    /** The first rerun of a session: every key is missing and gets its initial value. */
    constructor (config: AppConfig)
      ensures this.config == config && Current() == Init && Valid()
    {
      this.config := config;
      conversation := None;
      vectorstore := None;
      chatHistory := [];
      processed := false;
    }

    /** The `if submitted:` branch. */
    method Ingest(sub: Submission) returns (notice: IngestNotice)
      modifies this
      ensures (Current(), notice) == IngestStep(config, old(Current()), sub)
      ensures old(Valid()) ==> Valid()
    {
      ghost var before := Current();
      if !sub.ollamaRunning {
        notice := OllamaDown;
      } else if sub.email == "" || sub.password == "" || sub.groupUrl == "" {
        notice := MissingFields;
      } else {
        var fullText := sub.scraped;
        if IsBlank(fullText) {
          notice := ExtractionFailed;
        } else {
          var chunks := GetTextChunks(fullText, config.splitter, sub.split);
          if chunks == [] {
            notice := NoMeaningfulText;
          } else if !sub.indexReady {
            notice := IndexingCrashed;
          } else {
            var store := GetVectorstore(chunks);
            vectorstore := store;
            conversation := GetConversationChain(store, sub.modelName, config.chain, sub.llmReady);
            if conversation.Some? {
              processed := true;
              notice := Processed(|chunks|);
            } else {
              notice := ChainFailed;
            }
          }
        }
      }
      if Consistent(before) {
        StepKeepsConsistent(config, before, Submit(sub));
      }
    }

    /** The chat section. */
    method Ask(question: string, outcome: InvokeOutcome) returns (notice: AskNotice)
      modifies this
      ensures (Current(), notice) == AskStep(config, old(Current()), question, outcome)
      ensures old(Valid()) ==> Valid()
    {
      ghost var before := Current();
      if !processed {
        notice := ChatHidden;
      } else if question == "" {
        notice := NoQuestion;
      } else if conversation.None? {
        notice := NeedsProcessing;
      } else {
        match outcome
        case Returned(answer) =>
          chatHistory := chatHistory + [Turn(question, AnswerText(answer))];
          notice := Answered;
        case Raised =>
          chatHistory := chatHistory + [Turn(question, config.apology)];
          notice := Apologised;
      }
      if Consistent(before) {
        StepKeepsConsistent(config, before, Event.Ask(question, outcome));
      }
    }
  }
}
