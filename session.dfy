/**
 * Answer generation and the per-session bookkeeping of the chat application:
 * the corpus is built once and reused, every submitted question is recorded as
 * a user turn before generation, and an assistant turn follows only when
 * generation succeeds.
 */
module ChatApp {
  import opened Chat
  import opened Retrieval
  import opened Assembly

  /** The chat-completion service: the (stripped) answer to a request, or None when the call fails. */
  type Complete = seq<Turn> -> Option<string>

  /** What answering the last message did: retrieval failed, or a request was sent and answered or not. */
  datatype Generation = RetrievalFailed | Completed(request: seq<Turn>, reply: Option<string>)

  /** The answer text, when generation succeeded. */
  function Answer(g: Generation): Option<string>
  {
    if g.Completed? then g.reply else None
  }

  /**
   * Answering a non-empty history: search with the last message's text, map the
   * ordinals to chunk texts, assemble the request, and send it.
   */
  function Generate(messages: seq<Turn>, corpus: Corpus, search: Search, complete: Complete): (g: Generation)
    requires |messages| > 0 && Coupled(corpus) && StaysInIndex(search)
    ensures g.RetrievalFailed? <==> search(corpus.index, messages[|messages| - 1].content, K).None?
    ensures g.Completed? ==> g.reply == complete(g.request)
    ensures g.Completed? ==> |g.request| == Min(|messages|, Window) + 1
    ensures g.Completed? ==> g.request[|g.request| - 1] == WithContext(messages[|messages| - 1], SearchDocs(corpus.texts, search(corpus.index, messages[|messages| - 1].content, K).value))
  {
    var question := messages[|messages| - 1].content;
    match search(corpus.index, question, K)
    case None => RetrievalFailed
    case Some(ranked) =>
      assert InIndex(corpus.index, ranked);
      var request := Request(messages, SearchDocs(corpus.texts, ranked));
      Completed(request, complete(request))
  }

  /**
   * The answer step as the application runs it. The retrieval query is the
   * last message's text; the request sent is the assembled request for the
   * history and the chunk texts of the ranked ordinals; the reply is the
   * service's answer to exactly that request.
   */
  method GenerateAnswer(messages: seq<Turn>, corpus: Corpus, search: Search, complete: Complete)
    returns (g: Generation)
    requires |messages| > 0 && Coupled(corpus) && StaysInIndex(search)
    ensures g == Generate(messages, corpus, search, complete)
    ensures g.Completed? ==> search(corpus.index, messages[|messages| - 1].content, K).Some?
    ensures g.Completed? ==> |g.request| == Min(|messages|, Window) + 1
  {
    var question := messages[|messages| - 1].content;
    var found := search(corpus.index, question, K);
    if found.None? {
      return RetrievalFailed;
    }
    var ranked := found.value;
    assert InIndex(corpus.index, ranked);
    var context := SearchDocs(corpus.texts, ranked);
    var request := AssembleRequest(messages, context);
    RequestShape(messages, context);
    var answer := complete(request);
    g := Completed(request, answer);
  }

  /**
   * A stored history: only user and assistant turns, and every assistant turn
   * answers the user turn just before it.
   */
  predicate WellFormedHistory(history: seq<Turn>)
  {
    forall i {:trigger history[i]} :: 0 <= i < |history| ==>
      (history[i].role == RoleUser || history[i].role == RoleAssistant) &&
      (history[i].role == RoleAssistant ==> i > 0 && history[i - 1].role == RoleUser)
  }

  /** The assistant turn recorded after generation: one on success, none on failure. */
  function ReplyTurns(g: Generation): (turns: seq<Turn>)
    ensures |turns| <= 1
    ensures turns == [] <==> Answer(g).None?
    ensures turns != [] ==> turns[0] == Turn(RoleAssistant, Answer(g).value)
  {
    match Answer(g)
    case None => []
    case Some(answer) => [Turn(RoleAssistant, answer)]
  }

  /** Recording a question and its outcome keeps a history well formed. */
  lemma RecordKeepsWellFormed(history: seq<Turn>, question: string, g: Generation)
    requires WellFormedHistory(history)
    ensures WellFormedHistory(history + [Turn(RoleUser, question)] + ReplyTurns(g))
  {
  }

  /**
   * The request for a newly recorded question: the system turn, at most the two
   * stored turns before the question (verbatim), and the question as a user turn
   * carrying the context. It holds exactly one system turn.
   */
  lemma QuestionRequest(history: seq<Turn>, question: string, context: seq<string>)
    requires WellFormedHistory(history)
    ensures var messages := history + [Turn(RoleUser, question)];
      var r := Request(messages, context);
      && r == [SystemTurn] + history[WindowStart(|messages|)..] + [WithContext(Turn(RoleUser, question), context)]
      && |r| - 2 <= 2
      && r[|r| - 1].role == RoleUser
      && forall i :: 0 < i < |r| ==> r[i].role != RoleSystem
  {
  }

  /** What one run of the application did. */
  datatype Step = BuildFailed | Idle | Asked(generation: Generation)

  /**
   * The state the application keeps across runs of one session: the chunk texts
   * with their index, and the message history. Both start absent.
   */
  class Session {
    var corpus: Option<Corpus>
    var messages: Option<seq<Turn>>

    /** The history is created only once the corpus exists; both respect their invariants. */
    ghost predicate Valid()
      reads this
    {
      && (messages.Some? ==> corpus.Some? && WellFormedHistory(messages.value))
      && (corpus.Some? ==> Coupled(corpus.value))
    }

    /** The stored history, empty while absent. */
    function History(): seq<Turn>
      reads this
    {
      messages.GetOr([])
    }

    /** A fresh session: no corpus, no history. */
    constructor ()
      ensures Valid()
      ensures corpus == None && messages == None
    {
      corpus := None;
      messages := None;
    }

    /**
     * One run of the application. `chunks` and `embedded` are the chunk list of
     * the document and the embedding service's vectors for it, used only when
     * the session has no corpus yet; `question` is what the input box delivered,
     * and an absent or empty one is not submitted. A failed build ends the run
     * with nothing changed.
     */
    method Run(chunks: seq<string>, embedded: Option<seq<Embedding>>, question: Option<string>,
               search: Search, complete: Complete)
      returns (step: Step)
      requires Valid()
      requires embedded.Some? ==> |embedded.value| == |chunks|
      requires StaysInIndex(search)
      modifies this
      ensures Valid()
      ensures old(corpus).Some? ==> corpus == old(corpus)
      ensures old(corpus).None? ==> corpus == BuildCorpus(chunks, embedded)
      ensures step.BuildFailed? <==> corpus.None?
      ensures step.BuildFailed? ==> messages == old(messages)
      ensures step.Idle? <==> corpus.Some? && (question.None? || question.value == "")
      ensures step.Idle? ==> messages == Some(old(History()))
      ensures step.Asked? ==>
        question.Some? && corpus.Some? &&
        var asked := old(History()) + [Turn(RoleUser, question.value)];
        && step.generation == Generate(asked, corpus.value, search, complete)
        && messages == Some(asked + ReplyTurns(step.generation))
    {
      if corpus.None? {
        var built := BuildCorpus(chunks, embedded);
        if built.None? {
          return BuildFailed;
        }
        corpus := built;
      }
      if messages.None? {
        messages := Some([]);
      }
      if question.None? || question.value == "" {
        return Idle;
      }
      var history := messages.value;
      assert history == old(History());
      messages := Some(history + [Turn(RoleUser, question.value)]);
      var g := GenerateAnswer(messages.value, corpus.value, search, complete);
      var answer := Answer(g);
      if answer.Some? {
        messages := Some(messages.value + [Turn(RoleAssistant, answer.value)]);
        assert ReplyTurns(g) == [Turn(RoleAssistant, answer.value)];
      } else {
        assert messages.value == messages.value + ReplyTurns(g);
      }
      RecordKeepsWellFormed(history, question.value, g);
      step := Asked(g);
    }
  }
}
