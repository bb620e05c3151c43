/**
 * Assembly of the chat-completion request from the conversation history and
 * the retrieved chunk texts: one fixed system turn, the earlier turns of the
 * last three messages, and the current message rewritten to carry the context.
 */
module Assembly {
  import opened Chat

  /** The fixed instruction sent as the first turn of every request. */
  const SystemPrompt: string := "Você é um assistente especializado no Vestibular da Unicamp 2025. Responda às perguntas dos usuários usando apenas as informações do edital oficial fornecido. Seja preciso e direto. Se não encontrar a resposta no contexto, indique que não possui essa informação."

  const SystemTurn: Turn := Turn(RoleSystem, SystemPrompt)

  /** Separator placed between retrieved chunks. */
  const ContextSeparator: string := "\n\n"
  /** Text before the joined context in the final turn. */
  const ContextLabel: string := "Contexto:\n"
  /** Text between the joined context and the question in the final turn. */
  const QuestionLabel: string := "\n\nPergunta:\n"

  /** How many trailing messages, the current one included, the request looks at. */
  const Window: nat := 3

  function Min(a: int, b: int): int { if a <= b then a else b }

  /** Index of the first message inside the window of a history of length `n`. */
  function WindowStart(n: nat): nat
  {
    if n >= Window then n - Window else 0
  }

  /** The current message with the retrieved context placed before its text. */
  function WithContext(last: Turn, context: seq<string>): (t: Turn)
    ensures t.role == last.role
    ensures |ContextLabel| + |QuestionLabel| + |last.content| <= |t.content|
  {
    Turn(last.role, ContextLabel + Join(ContextSeparator, context) + QuestionLabel + last.content)
  }

  /** The request for a non-empty history and the chunks retrieved for its last message. */
  function Request(messages: seq<Turn>, context: seq<string>): (r: seq<Turn>)
    requires |messages| > 0
    ensures |r| == Min(|messages|, Window) + 1
    ensures r[0] == SystemTurn
    ensures r[|r| - 1] == WithContext(messages[|messages| - 1], context)
  {
    var n := |messages|;
    [SystemTurn] + messages[WindowStart(n)..n - 1] + [WithContext(messages[n - 1], context)]
  }

  /**
   * The request as the service client builds it: start with the system turn,
   * append the window's turns but the last one by one, then the contextualised
   * current message.
   */
  method AssembleRequest(messages: seq<Turn>, context: seq<string>) returns (request: seq<Turn>)
    requires |messages| > 0
    ensures request == Request(messages, context)
  {
    var contextText := Join(ContextSeparator, context);
    request := [SystemTurn];
    var previous := if |messages| >= 3 then messages[|messages| - 3..] else messages;
    for i := 0 to |previous| - 1
      invariant request == [SystemTurn] + previous[..i]
    {
      request := request + [previous[i]];
    }
    assert previous[..|previous| - 1] == messages[WindowStart(|messages|)..|messages| - 1];
    var last := messages[|messages| - 1];
    request := request + [Turn(last.role, ContextLabel + contextText + QuestionLabel + last.content)];
  }

  /**
   * Shape of every request: it has min(n, 3) + 1 turns; the first is the system
   * turn; the middle ones are the at most two messages before the current one,
   * unchanged and in order; the last keeps the current message's role and
   * carries the context and the question.
   */
  lemma RequestShape(messages: seq<Turn>, context: seq<string>)
    requires |messages| > 0
    ensures var r := Request(messages, context); var n := |messages|;
      && |r| == Min(n, Window) + 1
      && r[0] == Turn(RoleSystem, SystemPrompt)
      && (forall i :: 1 <= i < |r| - 1 ==> r[i] == messages[n - |r| + i])
      && r[|r| - 1].role == messages[n - 1].role
      && r[|r| - 1].content == ContextLabel + Join(ContextSeparator, context) + QuestionLabel + messages[n - 1].content
  {
  }

  /** A one-message history yields exactly the system turn and the contextualised question. */
  lemma SingleMessageRequest(message: Turn, context: seq<string>)
    ensures Request([message], context) == [SystemTurn, WithContext(message, context)]
  {
  }

  /**
   * The system turn is the only one the request adds with the system role: every
   * other turn is a history message forwarded verbatim or takes its role from
   * the current message. So a history without system turns gives a request with
   * exactly one.
   */
  lemma OnlyOneSystemTurn(messages: seq<Turn>, context: seq<string>)
    requires |messages| > 0
    ensures var r := Request(messages, context);
      && r[0].role == RoleSystem
      && (forall i :: 0 < i < |r| - 1 ==> r[i] in messages)
      && r[|r| - 1].role == messages[|messages| - 1].role
    ensures (forall i :: 0 <= i < |messages| ==> messages[i].role != RoleSystem) ==>
      var r := Request(messages, context);
      forall i :: 0 < i < |r| ==> r[i].role != RoleSystem
  {
  }

  /**
   * The final turn can be taken apart again: it starts with the context label,
   * ends with the question label and the question, and what lies between is the
   * joined context. The labels are there even when no chunk was retrieved.
   */
  lemma WithContextDecomposes(last: Turn, context: seq<string>)
    ensures var c := WithContext(last, context).content;
      var tail := |c| - |last.content|;
      && |ContextLabel| + |QuestionLabel| <= tail
      && c[..|ContextLabel|] == ContextLabel
      && c[tail..] == last.content
      && c[tail - |QuestionLabel|..tail] == QuestionLabel
      && c[|ContextLabel|..tail - |QuestionLabel|] == Join(ContextSeparator, context)
  {
  }

  /** Different questions under the same context give different final turns. */
  lemma WithContextInjective(a: Turn, b: Turn, context: seq<string>)
    requires WithContext(a, context) == WithContext(b, context)
    ensures a == b
  {
    WithContextDecomposes(a, context);
    WithContextDecomposes(b, context);
    assert |a.content| == |b.content|;
  }

  /** With no retrieved chunk the final turn still carries both labels, around an empty context. */
  lemma EmptyContextKeepsLabels(last: Turn)
    ensures WithContext(last, []).content == "Contexto:\n\n\nPergunta:\n" + last.content
  {
  }

  /** Every retrieved chunk appears verbatim in the final turn, at its place in the context. */
  lemma ChunkInFinalTurn(messages: seq<Turn>, context: seq<string>, i: nat)
    requires |messages| > 0 && i < |context|
    ensures var r := Request(messages, context); var c := r[|r| - 1].content;
      var start := |ContextLabel| + Offset(ContextSeparator, context, i);
      start + |context[i]| <= |c| && c[start..start + |context[i]|] == context[i]
  {
    var r := Request(messages, context);
    var c := r[|r| - 1].content;
    var joined := Join(ContextSeparator, context);
    JoinHoldsPart(ContextSeparator, context, i);
    var o := Offset(ContextSeparator, context, i);
    assert c == ContextLabel + joined + (QuestionLabel + messages[|messages| - 1].content);
    assert c[|ContextLabel| + o..|ContextLabel| + o + |context[i]|] == joined[o..o + |context[i]|];
  }
}
