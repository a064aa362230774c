/**
 * The session state machine of `main` in fb.py: `conversation`,
 * `vectorstore` and `chat_history`, with no `processed` flag, no Ollama
 * health check, no empty-chunk guard, and no exception handler around
 * `invoke`.
 */
module FbSession {
  import opened Wrappers
  import opened Text
  import opened Retrieval
  import GuardedSession

  datatype State = State(conversation: Option<Chain>, vectorstore: Option<VectorStore>, chatHistory: seq<Turn>)

  const Init: State := State(None, None, [])

  /** The model fb.py always uses. */
  const DefaultModel: string := "llama2"

  /**
   * One submission of the login form, with what the scrape returned, what the
   * splitter makes of it, whether `get_vectorstore` runs without raising
   * (`indexReady`) and whether `get_conversation_chain` does (`llmReady`).
   */
  datatype Submission = Submission(email: string, password: string, groupUrl: string, scraped: string, split: Splitter,
                                   indexReady: bool, llmReady: bool)

  /**
   * `IndexingCrashed` and `ChainCrashed`: `get_vectorstore` or
   * `get_conversation_chain` raised; nothing catches it, so the rerun stopped there.
   */
  datatype IngestNotice = MissingFields | ExtractionFailed | IndexingCrashed | ChainCrashed | Processed

  /** `Crashed`: `invoke` raised and nothing catches it, so the rerun stops with an exception. */
  datatype AskNotice = NoQuestion | NeedsProcessing | Answered | Crashed

  /** fb.py's `get_text_chunks`: the splitter is called on whatever it is given. */
  function FbTextChunks(text: string, split: Splitter): seq<string> {
    split(text, FbSplitter)
  }

  /** fb.py's `get_vectorstore`: an index over the chunks, even when there are none. */
  function FbVectorstore(chunks: seq<string>): (r: VectorStore)
    ensures r.documents == chunks
  {
    VectorStore(chunks)
  }

  /** fb.py's `get_conversation_chain`: an Ollama chain over the store with the library's defaults. */
  function FbConversationChain(store: VectorStore): (r: Chain)
    ensures r.store == store && r.model == DefaultModel
  {
    Chain(store, DefaultModel, FbChain)
  }

  /** The form's checks before scraping, and the blank-text check after it. */
  predicate Admits(sub: Submission) {
    sub.email != "" && sub.password != "" && sub.groupUrl != "" && !IsBlank(sub.scraped)
  }

  /**
   * The `if submitted:` branch of `main`. The new store is installed before
   * the chain is built, so a raising chain construction leaves the new store
   * beside the previous conversation.
   */
  function IngestStep(s: State, sub: Submission): (r: (State, IngestNotice))
    ensures r.0.chatHistory == s.chatHistory
    ensures IsBlank(sub.scraped) ==> r.0 == s
    ensures r.1 == Processed <==> Admits(sub) && sub.indexReady && sub.llmReady
    ensures r.1 == ChainCrashed <==> Admits(sub) && sub.indexReady && !sub.llmReady
    ensures r.1 == Processed ==>
              var store := VectorStore(sub.split(sub.scraped, FbSplitter));
              r.0.vectorstore == Some(store) && r.0.conversation == Some(Chain(store, DefaultModel, FbChain))
    ensures r.1 == ChainCrashed ==> r.0 == s.(vectorstore := Some(VectorStore(sub.split(sub.scraped, FbSplitter))))
    ensures r.1 != Processed && r.1 != ChainCrashed ==> r.0 == s
  {
    if sub.email == "" || sub.password == "" || sub.groupUrl == "" then (s, MissingFields)
    else if IsBlank(sub.scraped) then (s, ExtractionFailed)
    else if !sub.indexReady then (s, IndexingCrashed)
    else
      var chunks := FbTextChunks(sub.scraped, sub.split);
      var store := FbVectorstore(chunks);
      if !sub.llmReady then (s.(vectorstore := Some(store)), ChainCrashed)
      else (s.(vectorstore := Some(store), conversation := Some(FbConversationChain(store))), Processed)
  }

  /** The chat section of `main`; `outcome` is only used when `invoke` is called. */
  function AskStep(s: State, question: string, outcome: InvokeOutcome): (r: (State, AskNotice))
    ensures r.0.conversation == s.conversation && r.0.vectorstore == s.vectorstore
    ensures r.0 != s <==> question != "" && s.conversation.Some? && outcome.Returned?
    ensures r.0 != s ==> r.0.chatHistory == s.chatHistory + [Turn(question, AnswerText(outcome.answer))]
    ensures r.1 == Crashed <==> question != "" && s.conversation.Some? && outcome.Raised?
  {
    if question == "" then (s, NoQuestion)
    else if s.conversation.None? then (s, NeedsProcessing)
    else match outcome
      case Returned(answer) =>
        var turn := Turn(question, AnswerText(answer));
        assert |s.chatHistory + [turn]| == |s.chatHistory| + 1;
        (s.(chatHistory := s.chatHistory + [turn]), Answered)
      case Raised => (s, Crashed)
  }

  datatype Event = Submit(sub: Submission) | Ask(question: string, outcome: InvokeOutcome)

  function Step(s: State, e: Event): State {
    match e
    case Submit(sub) => IngestStep(s, sub).0
    case Ask(question, outcome) => AskStep(s, question, outcome).0
  }

  function Run(s: State, events: seq<Event>): State
    decreases |events|
  {
    if events == [] then s else Run(Step(s, events[0]), events[1..])
  }

  // --------------------------------------------------------------- properties

  /** `chat_history` is only ever appended to, over any sequence of reruns. */
  lemma {:induction false} RunHistoryGrows(s: State, events: seq<Event>)
    ensures s.chatHistory <= Run(s, events).chatHistory
    decreases |events|
  {
    if events != [] {
      var next := Step(s, events[0]);
      assert s.chatHistory <= next.chatHistory;
      RunHistoryGrows(next, events[1..]);
    }
  }

  /** Each rerun adds at most one turn, so the history never outgrows the questions asked. */
  lemma {:induction false} RunHistoryBounded(s: State, events: seq<Event>)
    ensures |Run(s, events).chatHistory| <= |s.chatHistory| + |events|
    decreases |events|
  {
    if events != [] {
      var next := Step(s, events[0]);
      assert |next.chatHistory| <= |s.chatHistory| + 1;
      RunHistoryBounded(next, events[1..]);
    }
  }

  /**
   * The invariant fb.py's session keeps: a conversation exists only beside a
   * vector store, and every recorded question was non-empty. The chain need
   * not be over the current store (see `StaleChainReachable`), and unlike
   * nextopp.py and try.py the store may hold no chunk at all.
   */
  predicate Consistent(s: State) {
    && (s.conversation.Some? ==> s.vectorstore.Some?)
    && forall i :: 0 <= i < |s.chatHistory| ==> s.chatHistory[i].question != ""
  }

  lemma StepKeepsConsistent(s: State, e: Event)
    requires Consistent(s)
    ensures Consistent(Step(s, e))
  {
  }

  lemma {:induction false} RunKeepsConsistent(s: State, events: seq<Event>)
    requires Consistent(s)
    ensures Consistent(Run(s, events))
    decreases |events|
  {
    if events != [] {
      StepKeepsConsistent(s, events[0]);
      RunKeepsConsistent(Step(s, events[0]), events[1..]);
    }
  }

  /**
   * A re-ingestion whose chain construction raises leaves the new store
   * beside the chain built over the previous one, and questions are then
   * answered from the previous group's chunks.
   */
  lemma StaleChainReachable(first: Submission, second: Submission)
    requires Admits(first) && first.indexReady && first.llmReady
    requires Admits(second) && second.indexReady && !second.llmReady
    requires first.split(first.scraped, FbSplitter) != second.split(second.scraped, FbSplitter)
    ensures var s := Run(Init, [Submit(first), Submit(second)]);
            && s.conversation == Some(Chain(VectorStore(first.split(first.scraped, FbSplitter)), DefaultModel, FbChain))
            && s.vectorstore == Some(VectorStore(second.split(second.scraped, FbSplitter)))
            && s.conversation.value.store != s.vectorstore.value
  {
    var events := [Submit(first), Submit(second)];
    var s1 := Step(Init, events[0]);
    var s2 := Step(s1, events[1]);
    assert events[1..] == [Submit(second)];
    assert events[1..][1..] == [];
    assert Run(Init, events) == Run(s1, events[1..]);
    assert Run(s1, events[1..]) == Run(s2, []);
  }

  /** A first ingestion whose chain construction raises leaves a store and no conversation: questions only warn. */
  lemma StoreWithoutConversationReachable(sub: Submission, question: string, outcome: InvokeOutcome)
    requires Admits(sub) && sub.indexReady && !sub.llmReady && question != ""
    ensures var s := Run(Init, [Submit(sub)]);
            && s.vectorstore.Some? && s.conversation.None?
            && AskStep(s, question, outcome) == (s, NeedsProcessing)
  {
    var events := [Submit(sub)];
    assert events[1..] == [];
    assert Run(Init, events) == Run(Step(Init, events[0]), []);
  }

  /** The chat can be used only after a processed group: asking first never records anything. */
  lemma {:induction false} NoTurnBeforeProcessing(questions: seq<(string, InvokeOutcome)>)
    ensures Run(Init, AsksOf(questions)) == Init
    decreases |questions|
  {
    if questions != [] {
      var e := AsksOf(questions)[0];
      assert e == Ask(questions[0].0, questions[0].1);
      assert Step(Init, e) == Init;
      assert AsksOf(questions)[1..] == AsksOf(questions[1..]);
      NoTurnBeforeProcessing(questions[1..]);
    }
  }

  function AsksOf(questions: seq<(string, InvokeOutcome)>): (r: seq<Event>)
    ensures |r| == |questions|
    ensures forall i :: 0 <= i < |questions| ==> r[i] == Ask(questions[i].0, questions[i].1)
    decreases |questions|
  {
    if questions == [] then [] else [Ask(questions[0].0, questions[0].1)] + AsksOf(questions[1..])
  }

  /**
   * Where fb.py and the guarded apps part: for text the splitter turns into
   * no chunk at all, nextopp.py and try.py change nothing and report that no
   * meaningful text was extracted, while fb.py builds a store over zero chunks
   * and a chain over it.
   */
  lemma EmptyChunksDiffer(sub: Submission, cfg: GuardedSession.AppConfig, s: GuardedSession.State,
                          ollamaRunning: bool, modelName: string, llmReady: bool)
    requires Admits(sub) && sub.indexReady
    requires cfg.splitter == FbSplitter && ollamaRunning
    requires sub.split(sub.scraped, FbSplitter) == []
    ensures var guarded := GuardedSession.Submission(ollamaRunning, sub.email, sub.password, sub.groupUrl,
                                                     modelName, sub.scraped, sub.split, sub.indexReady, llmReady);
            GuardedSession.IngestStep(cfg, s, guarded) == (s, GuardedSession.NoMeaningfulText)
    ensures IngestStep(Init, sub).0.vectorstore == Some(VectorStore([]))
  {
  }

  // ------------------------------------------------------------ the session

  /** `st.session_state` of one browser session. */
  class Session {
    var conversation: Option<Chain>
    var vectorstore: Option<VectorStore>
    var chatHistory: seq<Turn>

    function Current(): State
      reads this
    {
      State(conversation, vectorstore, chatHistory)
    }

    ghost predicate Valid()
      reads this
    {
      Consistent(Current())
    }

    constructor ()
      ensures Current() == Init && Valid()
    {
      conversation := None;
      vectorstore := None;
      chatHistory := [];
    }

    /** The `if submitted:` branch. */
    method Ingest(sub: Submission) returns (notice: IngestNotice)
      modifies this
      ensures (Current(), notice) == IngestStep(old(Current()), sub)
      ensures old(Valid()) ==> Valid()
    {
      ghost var before := Current();
      if sub.email == "" || sub.password == "" || sub.groupUrl == "" {
        notice := MissingFields;
      } else {
        var fullText := sub.scraped;
        if IsBlank(fullText) {
          notice := ExtractionFailed;
        } else if !sub.indexReady {
          notice := IndexingCrashed;
        } else {
          var chunks := FbTextChunks(fullText, sub.split);
          var store := FbVectorstore(chunks);
          vectorstore := Some(store);
          if !sub.llmReady {
            notice := ChainCrashed;
          } else {
            conversation := Some(FbConversationChain(store));
            notice := Processed;
          }
        }
      }
      if Consistent(before) {
        StepKeepsConsistent(before, Submit(sub));
      }
    }

    /** The chat section; when `invoke` raises the rerun ends before anything is appended. */
    method Ask(question: string, outcome: InvokeOutcome) returns (notice: AskNotice)
      modifies this
      ensures (Current(), notice) == AskStep(old(Current()), question, outcome)
      ensures old(Valid()) ==> Valid()
    {
      ghost var before := Current();
      if question == "" {
        notice := NoQuestion;
      } else if conversation.None? {
        notice := NeedsProcessing;
      } else {
        match outcome
        case Returned(answer) =>
          chatHistory := chatHistory + [Turn(question, AnswerText(answer))];
          notice := Answered;
        case Raised =>
          notice := Crashed;
      }
      if Consistent(before) {
        StepKeepsConsistent(before, Event.Ask(question, outcome));
      }
    }
  }
}
