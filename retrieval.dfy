/**
 * The boundary between the apps and LangChain: the text splitter, the FAISS
 * vector store and the conversational retrieval chain. The library calls are
 * not modelled; what they return is an input (the splitter as a function, the
 * chain's construction and `invoke` as outcomes). What is modelled is the
 * control flow around them: the empty-input guards of nextopp.py and try.py,
 * the configuration each app passes, and the answer defaulting.
 */
module Retrieval {
  import opened Wrappers
  import opened Text

  /** `CharacterTextSplitter(separator=..., chunk_size=..., chunk_overlap=...)`. */
  datatype SplitterConfig = SplitterConfig(separator: string, chunkSize: nat, chunkOverlap: nat)

  /** What `splitter.split_text(text)` returns for a configuration; not modelled. */
  type Splitter = (string, SplitterConfig) -> seq<string>

  /** A FAISS index, represented by the documents it was built from (one per chunk, in order). */
  datatype VectorStore = VectorStore(documents: seq<string>)

  /** The parameters of the chain an app builds that are not floats: retriever `k` and `num_predict`. */
  datatype ChainConfig = ChainConfig(k: Option<nat>, numPredict: Option<nat>)

  /** A `ConversationalRetrievalChain` over a vector store and an Ollama model. */
  datatype Chain = Chain(store: VectorStore, model: string, config: ChainConfig)

  /** One entry of `chat_history`: `{"question": ..., "answer": ...}`. */
  datatype Turn = Turn(question: string, answer: string)

  /** What `conversation.invoke(...)` did: returned a response (with or without an "answer" key) or raised. */
  datatype InvokeOutcome = Returned(answer: Option<string>) | Raised

  const NoAnswer: string := "No answer found."

  /** `response.get("answer", "No answer found.")`. */
  function AnswerText(answer: Option<string>): (r: string)
    ensures answer.Some? ==> r == answer.value
    ensures answer.None? ==> r == NoAnswer
  {
    answer.GetOr(NoAnswer)
  }

  const NextoppSplitter: SplitterConfig := SplitterConfig("\n", 1500, 300)
  const TrySplitter: SplitterConfig := SplitterConfig("\n", 1000, 200)
  const FbSplitter: SplitterConfig := SplitterConfig("\n", 1000, 200)

  const NextoppChain: ChainConfig := ChainConfig(Some(5), Some(1000))
  const TryChain: ChainConfig := ChainConfig(Some(3), Some(500))
  /** fb.py passes neither `k` nor `num_predict`: the library defaults apply. */
  const FbChain: ChainConfig := ChainConfig(None, None)

  /** `get_text_chunks` of nextopp.py and try.py: no splitting at all for blank text. */
  function GetTextChunks(text: string, config: SplitterConfig, split: Splitter): (r: seq<string>)
    ensures IsBlank(text) ==> r == []
    ensures !IsBlank(text) ==> r == split(text, config)
  {
    if IsBlank(text) then [] else split(text, config)
  }

  /** `get_vectorstore` of nextopp.py and try.py: no index is built from zero chunks. */
  function GetVectorstore(chunks: seq<string>): (r: Option<VectorStore>)
    ensures r.None? <==> chunks == []
    ensures r.Some? ==> r.value.documents == chunks
  {
    if chunks == [] then None else Some(VectorStore(chunks))
  }

  /**
   * `get_conversation_chain` of nextopp.py and try.py: no chain without a
   * vector store, and none when building the Ollama client raised
   * (`llmReady` false).
   */
  function GetConversationChain(store: Option<VectorStore>, model: string, config: ChainConfig,
                                llmReady: bool): (r: Option<Chain>)
    ensures r.Some? <==> store.Some? && llmReady
    ensures r.Some? ==> r.value.store == store.value && r.value.model == model && r.value.config == config
  {
    if store.None? then None
    else if !llmReady then None
    else Some(Chain(store.value, model, config))
  }
}
