# Facebook group chatbot: text assembly and session state

The repository is three variants of a Streamlit application that logs into
Facebook, scrapes the posts of a group and answers questions about them
through a LangChain conversational retrieval chain running on Ollama:
`nextopp.py` (structured post records with comments), `try.py` (text
extracted with several selector strategies) and `fb.py` (the simplest
form). This project models their deterministic core in Dafny and proves
properties of it:

- **Text assembly between the scraper and the splitter.**
  - `format_posts_for_analysis` of `nextopp.py` renders collected posts as numbered blocks with defaults, an optional comments section and a separator line. It is modelled as the function `NextoppScrape.Format` and the imperative `FormatPostsForAnalysis`.
  - The post-collection loop of `nextopp.py` is capped by `max_posts`, keeps only posts with text, and stops when the page height stops changing. It is modelled as `Collect` and the nested loops of `CollectPosts`.
  - `try.py` assembles one `POST i: ...` paragraph per container. It filters texts by length, de-duplicates them keeping first occurrences, and picks containers with a three-step selector fallback (`TryScrape`).
  - `fb.py` joins paragraph texts (`FbScrape`).
- **The session state machine of each `main`.**
  - `GuardedSession` covers `nextopp.py` and `try.py`. Their control flow is identical; `AppConfig` carries what differs: splitter sizes, retriever `k`, `num_predict` and the apology text.
  - `FbSession` covers `fb.py`, which has no `processed` flag, no Ollama check, no empty-chunk guard and no exception handler around `invoke`.
  - Each session has two forms:
    - as pure step functions (`IngestStep`, `AskStep`, `Run`), for the lemmas about sequences of reruns;
    - as a `class Session` whose fields are the session-state keys, with `Ingest` and `Ask` methods proved to perform exactly those steps.

Browser and DOM results are inputs. A post of `nextopp.py` is a record of
`Option<string>` fields standing for `dict.get` with a default. A container
of `try.py` or an article of `fb.py` is the sequence of texts
`get_text(strip=True)` returns for it. The external calls are also inputs:
the splitter is a function, and `invoke` returns a response (with or
without an `"answer"` key) or raises. Two flags say whether building the
index (`indexReady`: the splitter, the embeddings and `FAISS.from_documents`)
and building the chain (`llmReady`) succeed. Neither step has an exception
handler around its call in `main`, except chain building in nextopp.py and
try.py, which catches the exception and returns `None`.

Module layout: `wrappers.dfy` (`Option`), `text.dfy` (the Python string idioms: `str.isspace`/`strip` emptiness, integer rendering, `" ".join`, `dict.fromkeys`, comprehensions with a condition, `enumerate(..., k)` concatenation, substring tests), `pages.dfy` (URL checks), `retrieval.dfy` (the LangChain boundary and its guards), then one file per scraper and per session variant.

Three behaviours of the code that the model keeps as written:

- **A failed generation is recorded.** In `nextopp.py` and `try.py`, an exception from `invoke` appends a turn whose answer is an apology, so the failed question stays in the history. In `fb.py` the exception is not caught, and nothing is appended.
- **A failed ingestion is partly applied.** An ingestion does not set a fresh status as a whole. `nextopp.py` and `try.py` overwrite `conversation` with `None` when the chain cannot be built, but leave `processed` as it was (`GuardedSession.WarningReachable`). `fb.py` installs the new store before building the chain, so a chain build that raises leaves the new store beside the old conversation (`FbSession.StaleChainReachable`).
- **There is no `clear()`.** No code path clears `chat_history`.

## Model

| member | source | states |
|---|---|---|
| Text.IsBlank | nextopp.py:312 | `not text.strip()`: every character is one of the characters Python's `str.isspace` accepts (also nextopp.py:401, try.py:188, try.py:278, fb.py:128) |
| Text.BlankConcat | nextopp.py:312 | a concatenation is blank exactly when both parts are |
| Text.NatToString | nextopp.py:291 | `f"{i}"` of a natural number: a non-empty string of decimal digits, starting with `0` only for zero |
| Text.NatToStringRoundTrip | nextopp.py:291 | the decimal rendering of `i` in `f"{i}"` reads back as `i` |
| Text.Join | try.py:173 | `" ".join(parts)` is empty exactly when there are no parts or one empty part |
| Text.Filter | try.py:161 | a comprehension with a condition is no longer than its input and keeps exactly the elements that pass it |
| Text.FilterOne | try.py:161 | a one-element list keeps its element exactly when it passes |
| Text.FilterAppend | try.py:161 | the comprehension visits the elements in order: one more element is added at the end exactly when it passes |
| Text.FilterConcat | try.py:161 | filtering a concatenation concatenates the filtered parts, in order |
| Text.Dedup | try.py:173 | `list(dict.fromkeys(xs))` has no duplicates and contains exactly the elements of `xs` |
| Text.DedupKeepsFirstOccurrenceOrder | try.py:173 | de-duplication keeps elements in the order of their first occurrences |
| Text.Contains | nextopp.py:226 | Python's `pat in s` on strings, as a test over the suffixes of `s` |
| Text.ContainsIff | nextopp.py:226 | `pat in s` holds exactly when `pat` occurs at some index of `s` |
| Pages.LoginBlocked | nextopp.py:226 | the URL after login contains `login_attempt` or `checkpoint` (also try.py:113) |
| Pages.InGroup | try.py:123 | the URL after opening the group contains `groups` |
| Retrieval.AnswerText | nextopp.py:437 | `response.get("answer", "No answer found.")`: the answer if present, else the default |
| Retrieval.GetTextChunks | nextopp.py:311-315 | blank text gives no chunks and the splitter is not consulted; otherwise the splitter's chunks (try.py:187-191 is the same with its own sizes) |
| Retrieval.GetVectorstore | nextopp.py:317-322 | no store exactly when there are no chunks; otherwise a store over exactly the chunks (also try.py:193-198) |
| Retrieval.GetConversationChain | nextopp.py:324-355 | a chain exactly when there is a store and the Ollama client could be built; it is over that store, model and configuration (also try.py:200-233) |
| NextoppScrape.Block | nextopp.py:291-307 | one post's block: header, five fields and the content with their `dict.get` defaults, the comments section, the separator |
| NextoppScrape.Format | nextopp.py:286-309 | the blocks of the posts, numbered from 1, in list order |
| NextoppScrape.CommentsSection | nextopp.py:300-305 | the comments section is empty exactly when the post has no comments |
| NextoppScrape.FormatAppend | nextopp.py:288-309 | formatting one more post appends exactly its block, numbered by its position from 1 |
| NextoppScrape.FormatBlankIff | nextopp.py:288-309 | the formatted text is blank exactly when there are no posts (an empty list gives `""`) |
| NextoppScrape.BlockShape | nextopp.py:291-307 | every block starts with `=== POST i ===` and a newline, and ends with the separator |
| NextoppScrape.SeparatorShape | nextopp.py:307 | the separator is exactly fifty `=` followed by two newlines |
| NextoppScrape.ErrorRecordRendersDefaults | nextopp.py:292-297 | a record without fields renders author and time `Unknown`, counts `0`, content `No content` and no comments section |
| NextoppScrape.HeadersDistinct | nextopp.py:291 | two block headers are equal exactly when their numbers are |
| NextoppScrape.CommentLinesAppend | nextopp.py:303-304 | comment lines are numbered from 1 in list order: one more comment adds its own line at the end |
| NextoppScrape.CommentDefaults | nextopp.py:304 | a comment without fields renders with author `Unknown` and empty time and text |
| NextoppScrape.CommentsSectionShape | nextopp.py:301-305 | a non-empty section starts with `Comments (n):` for its count and ends with a blank line |
| NextoppScrape.AppendComments | nextopp.py:300-305 | the comment loop appends the heading with the count and one numbered line per comment, in order, then a blank line |
| NextoppScrape.AppendBlock | nextopp.py:291-307 | one iteration of the post loop appends exactly that post's block |
| NextoppScrape.FormatPostsForAnalysis | nextopp.py:286-309 | the nested `+=` loops produce exactly the blocks of the posts in order |
| NextoppScrape.Admitted | nextopp.py:256 | a post is collected when it has a `text` key with a non-empty value |
| NextoppScrape.RoundTake | nextopp.py:250-261 | the posts one scroll contributes are at most the room left and all have text |
| NextoppScrape.RoundTakeIsPrefixOfFilter | nextopp.py:250-261 | they are the first posts with text of that scroll |
| NextoppScrape.Collect | nextopp.py:239-266 | the collected posts extend what was already collected, never exceed `max_posts`, and all have text |
| NextoppScrape.Scrolled | nextopp.py:239-265 | the scrolls performed, a prefix of all scrolls: up to and including the first one that leaves the page height unchanged |
| NextoppScrape.ScrolledAll | nextopp.py:263-265 | when every scroll changes the page height, all scrolls are performed |
| NextoppScrape.ScrolledPosts | nextopp.py:239-265 | the posts with text of the performed scrolls are those of the first scroll, then, if it changed the height, those of the later performed ones |
| NextoppScrape.FirstAdmitted | nextopp.py:239-261 | the first posts with text of the performed scrolls, in page order, as many as there is room for |
| NextoppScrape.CollectTakesFirstAdmitted | nextopp.py:239-266 | the collection is exact: what was collected before, then exactly the first posts with text of the performed scrolls, up to the room left under `max_posts` |
| NextoppScrape.CollectAllScrolls | nextopp.py:239-266 | when every scroll changes the height, the collection is the first `max_posts` posts with text over all scrolls |
| NextoppScrape.CollectStopsOnUnchangedHeight | nextopp.py:263-265 | after a scroll that leaves the page height unchanged, later scrolls have no effect |
| NextoppScrape.TakeFromScroll | nextopp.py:250-261 | the inner loop appends exactly that scroll's contribution and keeps `posts_collected` equal to the count |
| NextoppScrape.CollectPosts | nextopp.py:236-266 | the nested loops with their `break`s compute the collection: exactly the first posts with text of the performed scrolls, at most `max_posts`, all with text |
| NextoppScrape.ScrapeGroup | nextopp.py:226-276 | a verification URL gives `""`; otherwise the formatted collection, which is blank exactly when nothing was collected |
| TryScrape.Entry | try.py:155-174 | one container's entry: nothing without kept texts, otherwise `POST i: `, the de-duplicated join and a blank line |
| TryScrape.AllText | try.py:141-174 | the entries of all containers, numbered by their position from 1 |
| TryScrape.TextElementsKept | try.py:157-169 | a text is kept exactly when it is a non-empty paragraph text, or a div or span text longer than 20 characters |
| TryScrape.EntryShape | try.py:172-174 | a container contributes nothing exactly when it has no kept text, otherwise a paragraph starting `POST i: ` |
| TryScrape.AllTextAppend | try.py:155-174 | one more container adds its entry at the end, numbered by its position among all containers |
| TryScrape.AllTextEmptyIff | try.py:141-174 | the text is empty exactly when no container has a kept text |
| TryScrape.AllTextBlankIff | try.py:141-174 | the text is never whitespace-only unless it is empty |
| TryScrape.NumberingHasGaps | try.py:155-174 | a skipped container leaves a gap: an empty first container makes the second `POST 2` |
| TryScrape.FirstNonEmpty | try.py:144-151 | the first strategy that found something wins; a later one is used only if all earlier ones found nothing |
| TryScrape.FirstOfThree | try.py:144-151 | with three strategies: the first if it found something, else the second, else the third |
| TryScrape.AppendEntry | try.py:157-174 | one iteration: three `extend` calls, then the de-duplicated join appended under its number, or nothing |
| TryScrape.AssemblePosts | try.py:141-174 | the loop over the containers produces exactly their entries in order |
| TryScrape.ScrapeGroup | try.py:113-177 | a verification URL or a page outside `groups` gives `""`; otherwise the text of the chosen containers, blank only if empty |
| FbScrape.Contribution | fb.py:75-77 | one article's text: the join of its paragraphs and a blank line, or nothing when the join is empty |
| FbScrape.FbText | fb.py:72-77 | the contributions of the articles in document order |
| FbScrape.ContributionIff | fb.py:75-77 | an article is skipped exactly when it has no paragraph or one empty one; otherwise it adds the join and a blank line |
| FbScrape.TwoEmptyParagraphsContribute | fb.py:75-77 | two empty paragraphs join to `" "`, which is appended although it is whitespace |
| FbScrape.FbTextSplit | fb.py:72-77 | the text of a concatenation of articles is the concatenation of their texts (document order) |
| FbScrape.FbTextAppend | fb.py:73-77 | one more article adds exactly its contribution at the end |
| FbScrape.FbTextEmptyIff | fb.py:72-80 | nothing is scraped exactly when no article contributes |
| FbScrape.AssembleText | fb.py:71-80 | the `+=` loop produces exactly the articles' contributions in order |
| GuardedSession.IngestStep | nextopp.py:392-422 | history untouched; `processed` never reset; processing succeeds exactly when every guard passes, the text yields chunks and both the index and the chain are built; a failed chain build happens exactly when only the chain fails, and keeps the new store while clearing `conversation`; every other outcome changes nothing (also try.py:269-301) |
| GuardedSession.AskStep | nextopp.py:427-444 | nothing is read before processing; an empty question or missing conversation changes nothing; otherwise exactly one turn is appended (also try.py:306-323) |
| GuardedSession.AnswerRecorded | nextopp.py:436-438 | a successful `invoke` appends one turn with the answer, defaulting to `No answer found.` |
| GuardedSession.NextoppApologyRecorded | nextopp.py:439-444 | an exception from `invoke` appends one turn with nextopp.py's apology |
| GuardedSession.TryApologyRecorded | try.py:318-323 | an exception from `invoke` appends one turn with try.py's apology |
| GuardedSession.RunHistoryGrows | nextopp.py:363-453 | over any reruns `chat_history` is only appended to, so re-ingestion keeps earlier turns |
| GuardedSession.RunProcessedSticks | nextopp.py:392-422 | once set, `processed` stays true over any reruns |
| GuardedSession.StepKeepsConsistent | nextopp.py:363-453 | a rerun keeps the invariant: a conversation implies `processed` and is over the current store, a store holds chunks, recorded questions are non-empty |
| GuardedSession.RunKeepsConsistent | nextopp.py:363-453 | the invariant holds after any sequence of reruns |
| GuardedSession.ReachableConsistent | nextopp.py:363-371 | every state reachable from the initialised session state is consistent |
| GuardedSession.WarningReachable | nextopp.py:410-432 | success followed by a failed chain build leaves `processed` set without a conversation, and a question then only warns |
| GuardedSession.Session.constructor | nextopp.py:363-371 | the initialised session state |
| GuardedSession.Session.Ingest | nextopp.py:392-422 | the imperative branch performs exactly `IngestStep` and keeps the invariant |
| GuardedSession.Session.Ask | nextopp.py:427-444 | the imperative branch performs exactly `AskStep` and keeps the invariant |
| FbSession.FbTextChunks | fb.py:88-90 | the splitter is called on whatever text it is given, with no blank-text guard |
| FbSession.FbVectorstore | fb.py:93-96 | a store over exactly the chunks, with no guard |
| FbSession.FbConversationChain | fb.py:99-103 | a `llama2` chain over the store, with no guard |
| FbSession.IngestStep | fb.py:122-135 | history untouched; a missing field, blank text or a failed index build changes nothing; processing succeeds exactly when the fields are filled, the text is not blank and both builds succeed, and then sets store and conversation; a failed chain build happens exactly when only the chain fails, and sets the new store while keeping the previous conversation |
| FbSession.AskStep | fb.py:137-145 | a turn is appended exactly when a non-empty question meets a conversation and `invoke` returns; a raising `invoke` appends nothing |
| FbSession.RunHistoryGrows | fb.py:113-145 | `chat_history` is only ever appended to |
| FbSession.RunHistoryBounded | fb.py:137-145 | each rerun appends at most one turn |
| FbSession.StepKeepsConsistent | fb.py:109-145 | a rerun keeps the invariant: a conversation exists only beside a store, and recorded questions are non-empty |
| FbSession.RunKeepsConsistent | fb.py:109-145 | the invariant holds after any sequence of reruns |
| FbSession.StaleChainReachable | fb.py:131-135 | a processed group followed by one whose chain build raises leaves a conversation over the first group's chunks beside a store over the second's |
| FbSession.StoreWithoutConversationReachable | fb.py:131-141 | a first ingestion whose chain build raises leaves a store without a conversation, and a question then only warns |
| FbSession.NoTurnBeforeProcessing | fb.py:139-141 | questions asked before any processing leave the session as initialised |
| FbSession.EmptyChunksDiffer | fb.py:131-134 | for text the splitter turns into no chunks, the guarded apps change nothing while fb.py builds a store over zero chunks |
| FbSession.Session.constructor | fb.py:109-114 | the initialised session state |
| FbSession.Session.Ingest | fb.py:122-135 | the imperative branch performs exactly `IngestStep` and keeps the invariant |
| FbSession.Session.Ask | fb.py:137-145 | the imperative branch performs exactly `AskStep` and keeps the invariant |

## Left out

- Selenium, undetected_chromedriver and BeautifulSoup: login, waits, cookie clicks, scrolling and the selector probing of `extract_post_data`. Their results are inputs: the URL after login, the URL after opening the group, the page heights, and the posts, containers or articles each strategy found.
- The `try`/`except` inside each scraper (nextopp.py:195-284, try.py:84-185, fb.py:34-85) turns an exception raised after the browser has started into `""`. That is the same as the scrape returning `""`, which the session models take as an input. The per-post `except: continue` of nextopp.py is the same as the element not being found.
- `uc.Chrome(...)` is called before that `try` (nextopp.py:192, try.py:82, fb.py:32). If it raises, the rerun stops with the session state unchanged and no notice. This abort is not a modelled outcome.
- `check_ollama_running` and `get_available_models` (HTTP requests, subprocesses, sleeps): their results are the `ollamaRunning` flag and the model name. `check_ollama_running` catches only `requests.ConnectionError` (nextopp.py:24-29, try.py:23-29). Another exception from the first request, such as a timeout, aborts the whole rerun at nextopp.py:361 or try.py:240, before any session key is read or written. This abort is not modelled either.
- The splitting algorithm of `CharacterTextSplitter`: only its configuration and the blank-text guard around it are modelled.
- FAISS, the sentence-transformer embeddings and `as_retriever(k)`: a store is represented by its chunks; nothing is ranked.
- Retrieval.GetConversationChain: an exception while building the Ollama client is the `llmReady` flag; `temperature` and `top_p` are floats and not modelled.
- The language model, `ConversationBufferMemory` and the answer's content: `invoke` is an outcome given as input.
- Whether `FAISS.from_documents` accepts the documents, for instance an empty list in fb.py, is not decided by the model: it is the `indexReady` flag. When that flag holds, fb.py's store is built over whatever chunks there are, including none.
- Streamlit rendering (widgets, messages, spinners, the preview expander, chat bubbles) and the debug HTML files. Messages are summarised as notices.
- The `posts_data` session key of nextopp.py, which is initialised and never used.
- `get_text(strip=True)` and Selenium's `.text.strip()` are taken as given strings; Dafny's `IsBlank` follows Python's `str.isspace` characters, and there is no Unicode case folding or normalisation.
- Text.Join: its contract states only when the join is empty; its contents are its definition.
