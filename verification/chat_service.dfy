/** `ChatService`: a holder of one agent that forwards chat to it. */
module ChatService {
  import opened Wrappers
  import opened Errors
  import Agents

  /** The service keeps nothing but its agent. */
  datatype ChatService = ChatService(agent: Agents.Agent)

  /** `send_message_stream` over a backend stream that ends normally
      (`failure` is `None`) or raises after `responses`: the stub's fixed
      reply, or the non-empty response texts in order, with the message
      added to the agent's thread. The service has no handler, so the
      agent's failure is the caller's, unchanged. */
  function SendMessageStream(svc: ChatService, text: string, responses: seq<Agents.Response>,
                             failure: Option<Error>)
    : (r: (ChatService, seq<string>, Option<Error>))
    ensures r.0.agent.kind == svc.agent.kind
    ensures svc.agent.kind.Stub? ==> r == (svc, Agents.StubReply, None)
    ensures !svc.agent.kind.Stub? ==>
              && r.0.agent.thread == Agents.Continue(svc.agent.thread, text)
              && r.1 == Agents.StreamFilter(responses)
              && r.2 == failure
  {
    var (a, chunks, e) := Agents.SendUntil(svc.agent, text, responses, failure);
    (ChatService(a), chunks, e)
  }

  /** `reset`: the agent forgets its conversation and stays the same
      agent. */
  function ResetChat(svc: ChatService): (r: ChatService)
    ensures r.agent.kind == svc.agent.kind
    ensures svc.agent.kind.Stub? ==> r == svc
    ensures !svc.agent.kind.Stub? ==> r.agent.thread.None?
  {
    ChatService(Agents.Reset(svc.agent))
  }

  /** A conversation through the service is the agent's conversation: the
      second message continues the thread the first one created, and a reset
      forgets it. */
  lemma ForwardedConversation(a: Agents.Agent, t1: string, t2: string, r1: seq<Agents.Response>, r2: seq<Agents.Response>)
    requires !a.kind.Stub? && a.thread.None?
    ensures var (s1, c1, e1) := SendMessageStream(ChatService(a), t1, r1, None);
            var (s2, c2, e2) := SendMessageStream(s1, t2, r2, None);
            && c1 == Agents.StreamFilter(r1) && c2 == Agents.StreamFilter(r2)
            && e1.None? && e2.None?
            && s2.agent.thread == Some([t1, t2])
            && ResetChat(s2) == ChatService(a)
  {
    Agents.ThreadLifecycle(a, t1, t2, r1, r2);
  }

  /** A failed message is not rolled back: its error reaches the caller, and
      the next message continues the thread that already holds it. */
  lemma FailureKeepsThread(a: Agents.Agent, t1: string, t2: string, r1: seq<Agents.Response>, r2: seq<Agents.Response>,
                           e: Error)
    requires !a.kind.Stub? && a.thread.None?
    ensures var (s1, c1, e1) := SendMessageStream(ChatService(a), t1, r1, Some(e));
            var (s2, _, e2) := SendMessageStream(s1, t2, r2, None);
            && e1 == Some(e) && c1 == Agents.StreamFilter(r1)
            && e2.None?
            && s2.agent.thread == Some([t1, t2])
  {
    assert [t1] + [t2] == [t1, t2];
  }
}
