# Retrieval-augmented chatbot: request assembly, retrieval mapping and session bookkeeping

This project models the logic that the chatbot in `src/chatbot.py` owns itself. The
chatbot answers questions about the Unicamp 2025 admissions regulation. It splits the
regulation into chunks and builds a flat L2 vector index over their embeddings, once per
session. For every question it first records the question as a user turn. It then searches
the index with that question, turns the ranked ordinals back into chunk texts, and assembles
and sends the chat-completion request. It records the answer as an assistant turn only when
generation succeeds.

Everything else is an external service: the text splitter, the embedding service, the
nearest-neighbour search, the chat-completion service and the web UI. These enter the
model as values or function parameters:

- `chunks` is the splitter's chunk list.
- `embedded` is the embedding service's vectors for it. `None` stands for any failure of the
  build step that ends `main` before the corpus is stored.
- `search` is the query embedding plus the index search. It maps an index, a query and `k`
  to ranked ordinals. `None` means the query embedding or the index search raised.
- `complete` is the chat-completion call. It maps a request to the stripped answer text, or
  `None` when the call raises.

Modules:

- `Chat` (`chat.dfy`): the `Turn` record (role and content), the role names, and `Join`.
  `Join` is Python's `sep.join(parts)`. Lemmas give its length and show that every part
  appears verbatim at its offset, with exactly the separator between neighbouring parts.
- `Retrieval` (`retrieval.dfy`): index construction after the embedding service has
  answered (`CreateIndex`, `BuildCorpus`), the coupling between chunk ordinals and index
  ordinals (`Coupled`), and the ordinal-to-text mapping of `search_docs` (`SearchDocs`).
- `Assembly` (`assembly.dfy`): the request. `Request` states it as a function. `AssembleRequest`
  builds it the way `generate_answer` does, one `append` at a time in a loop, and is proved
  equal to `Request`. Lemmas cover the request's shape, its single system turn, and the
  decomposition and injectivity of the contextualised final turn.
- `ChatApp` (`session.dfy`): `GenerateAnswer`, which retrieves, assembles and sends the
  request. Also the `Session` class, which holds the state the web framework keeps between
  reruns of `main`: the optional corpus (texts and index together) and the optional
  message history. `Session.Run` is one rerun of `main` with the rendering removed.

Two facts about the code shape the model:

- `messages[-3:]` includes the current question, and the loop forwards all of it but the
  last element, so at most two earlier turns are forwarded.
- The user turn is appended before generation, so a failed generation leaves exactly that
  user turn in the history and no assistant turn.

## Model

| member | source | states |
|---|---|---|
| Chat.Join | src/chatbot.py:102 | joining no chunks gives the empty string, and a non-empty join starts with the first chunk |
| Chat.JoinLength | src/chatbot.py:102 | the joined context is as long as all chunks together plus one separator between each pair of neighbours |
| Chat.JoinSeparatorBetween | src/chatbot.py:102 | between each chunk and the next, the joined context holds exactly the separator "\n\n" |
| Chat.JoinHoldsPart | src/chatbot.py:102 | every chunk appears verbatim inside the joined context, at the offset given by the lengths of the chunks and separators before it |
| Retrieval.CreateIndex | src/chatbot.py:61-66 | index construction succeeds exactly when the embedding service answered with at least one vector and all vectors have one dimension; the index stores the vectors in chunk order, all of the index's dimension (an empty chunk list fails, since the dimension is read from the first vector) |
| Retrieval.BuildCorpus | src/chatbot.py:179-183 | the stored corpus keeps the chunk list unchanged and exists exactly when index construction succeeds; its index is the constructed index, whose vector i is the embedding service's vector for chunk i, and it has one vector per chunk, so index ordinal i stands for chunk i |
| Retrieval.SearchDocs | src/chatbot.py:83-84 | the result has one text per ranked ordinal, in ranked order, and entry j is the chunk text at ordinal j, provided every ordinal is in range |
| Retrieval.SearchResultsAreChunks | src/chatbot.py:82-84 | on a coupled corpus, every ordinal the search returns can be dereferenced in the chunk list, and every retrieved text is one of the corpus's chunks |
| Retrieval.SearchDocsKeepsOrder | src/chatbot.py:84 | mapping preserves the ranking: the texts for a concatenation of rankings are the concatenation of their texts |
| Assembly.WithContext | src/chatbot.py:115-119 | the contextualised turn keeps the current message's role, and its content is at least as long as both labels plus the question |
| Assembly.Request | src/chatbot.py:105-120 | the request for n messages has min(n, 3) + 1 turns, starts with the system turn and ends with the contextualised current message |
| Assembly.AssembleRequest | src/chatbot.py:102-120 | the request built by appending the system turn, the earlier turns of the last three messages and the contextualised last message equals `Request` |
| Assembly.RequestShape | src/chatbot.py:105-120 | for a history of n messages the request has min(n, 3) + 1 turns, so at most two earlier turns; the first turn is the fixed system instruction; the middle turns are the messages just before the current one, unchanged and in order; the last keeps the current message's role and its content is "Contexto:\n" + the chunks joined by "\n\n" + "\n\nPergunta:\n" + the question |
| Assembly.SingleMessageRequest | src/chatbot.py:110-120 | a one-message history (as the test script sends) gives exactly the system turn and the contextualised question |
| Assembly.OnlyOneSystemTurn | src/chatbot.py:105-120 | the first turn has the system role; every middle turn is a message of the history; the last turn takes the current message's role; so when no history message has the system role, no turn after the first has it |
| Assembly.WithContextDecomposes | src/chatbot.py:115-120 | the final turn's content starts with "Contexto:\n", ends with "\n\nPergunta:\n" and then the question, and between them holds exactly the joined context |
| Assembly.WithContextInjective | src/chatbot.py:116-119 | under the same context, different current messages give different final turns: the question and role can be recovered |
| Assembly.EmptyContextKeepsLabels | src/chatbot.py:102-118 | with no retrieved chunk, both labels are still present around an empty context |
| Assembly.ChunkInFinalTurn | src/chatbot.py:101-118 | every retrieved chunk appears verbatim in the final turn, right after the context label at its place in the joined context |
| ChatApp.Generate | src/chatbot.py:100-129 | generation fails at retrieval exactly when the search for the last message's content fails; otherwise the request has min(n, 3) + 1 turns, ends with the last message carrying the texts of the ranked ordinals, and the reply is the service's answer to that request |
| ChatApp.GenerateAnswer | src/chatbot.py:100-129 | the retrieval query is the last message's content; the request sent is the assembled request for the history and the chunk texts of the ranked ordinals, with min(n, 3) + 1 turns; the reply is the service's answer to that request; a failed query embedding sends nothing |
| ChatApp.ReplyTurns | src/chatbot.py:210-217 | after generation, exactly one assistant turn carrying the answer is recorded on success and none on failure |
| ChatApp.RecordKeepsWellFormed | src/chatbot.py:202-213 | recording a question and its outcome keeps the history well formed: only user and assistant turns, each assistant turn right after a user turn |
| ChatApp.QuestionRequest | src/chatbot.py:204-211 | the request for a newly recorded question holds the system turn, at most the two stored turns before it (verbatim) and the question as a user turn carrying the context, and has exactly one system turn |
| ChatApp.Session.constructor | src/chatbot.py:172-192 | a new session has neither a corpus nor a history |
| ChatApp.Session.Run | src/chatbot.py:172-217 | the corpus is built only when absent and is reused unchanged afterwards; a failed build changes nothing; the history is created empty only when absent; without a question, or with an empty one (`if question:` at line 202), the history is unchanged and nothing is generated; a submitted question appends exactly one user turn before generation, then one assistant turn with the answer on success and nothing on failure |

## Left out

- Text splitting (`split_text`, src/chatbot.py:33-49) is a call into a library whose source is not part of this model. The chunk list is an input of `Session.Run`.
- Sentence tokenisation (`preprocess_text`, src/chatbot.py:20-31) is left out: its result is never used.
- The embedding service (src/chatbot.py:61-62, 82) is left out: its vectors, or its failure, are inputs. The service is taken to return exactly one vector per chunk (`BuildCorpus` and `Session.Run` require it); the source does not check this, and a count mismatch would silently break the coupling of index ordinal i with chunk i that the search mapping relies on.
- The L2 nearest-neighbour search (src/chatbot.py:83) runs on floating-point vectors inside the search library. It is the `search` parameter, required to return only ordinals of the index it searched (`StaysInIndex`).
- Retrieval.SearchDocs: requires every ordinal to lie in 0..|texts|-1. Python would wrap a negative ordinal such as -1 to the last chunk instead of failing. The search library pads its answer with -1 when it holds fewer than k vectors, and this padding is not modelled.
- The chat-completion call (src/chatbot.py:123-129) is the `complete` parameter. Its model name, token limit and sampling temperature are not modelled, and neither is the `.strip()` of the reply: `complete` returns the already stripped text. Sampling randomness is covered only in that each run receives its own `complete`.
- Every exception inside `generate_answer` is caught in `main` (src/chatbot.py:216-217). The model has two failure values for this: `RetrievalFailed` when the query embedding or the index search (src/chatbot.py:82-83) raises, and a `None` reply when the completion call fails.
- The web UI is left out: page setup, styling, sidebar, rendering of the history and of the answer, spinners and error display (src/chatbot.py:137-170, 195-200, 205-206, 214-215, 217).
- Module start-up is left out: the tokeniser downloads and the API client creation (src/chatbot.py:11-18).
- Reading the regulation file (src/chatbot.py:175-177) is left out: the chunk list stands for its result. A failure of the file read, of sentence tokenisation (:178) or of splitting (:179) ends `main` before the corpus is stored, like a failed embedding call; the model represents all of these by `embedded == None`.
- Messages are dictionaries in the source, and `api_messages.append(msg)` shares them with the history. The model uses `Turn` values, so this aliasing is not captured.
- `src/test_script.py` is not part of this model. It calls the live services and compares nothing mechanically.
