/** The send protocol of the shopping assistant page: `handleSendWithRetry`
    (at most three gateway calls with a growing pause between them),
    `handleSend` (the user's message is logged before the call, the reply only
    on success, and every busy flag is cleared at the end), `handleNewSession`
    and `handleInputChange`.

    The page calls one of three per-intent chat functions; which one, and what
    it answers on each call, is the `Gateway` parameter. The page's handlers
    close over the `messages` of the render in which the user pressed send, so
    the conversation handed to the gateway, and the snapshot archived after a
    success, are built from the log as it was before the send. */
module AssistantPage {
  import opened Common
  import opened Strings
  import opened ChatMessage
  import opened ChatStore
  import opened AssistantIntent
  import LLM

  const MAX_CALLS: nat := 3
  const RETRY_STEP_MS: nat := 1000
  const FALLBACK_ERROR: string := "API调用失败"

  /** One call of the chosen chat function: it answered `{code, data|msg}`,
      or it threw. */
  datatype GatewayOutcome = Answered(result: LLM.ChatResult) | Threw(message: string)

  /** What the chat function for `intent` does on its `attempt`-th call with
      the conversation `sent`. */
  type Gateway = (Intent, seq<Message>, nat) -> GatewayOutcome

  /** The course of one `handleSendWithRetry`: the reply delivered, if any,
      the number of gateway calls, the pauses taken between them, and the
      error shown once retries are exhausted. */
  datatype SendReport = SendReport(reply: Option<Message>, calls: nat, delays: seq<nat>, shownError: Option<string>)

  predicate Succeeded(o: GatewayOutcome) {
    o.Answered? && o.result.Ok?
  }

  /** The message of the error caught: `response.msg || 'API调用失败'` for a
      refused call, the exception's own message for a thrown one. */
  function ErrorMessage(o: GatewayOutcome): (m: string)
    ensures o.Answered? ==> m != ""
    ensures o.Answered? && o.result.Failed? && o.result.msg != "" ==> m == o.result.msg
    ensures o.Threw? ==> m == o.message
  {
    match o
    case Answered(r) => if r.Failed? && r.msg != "" then r.msg else FALLBACK_ERROR
    case Threw(m) => m
  }

  /** The toast after the last failure: messages mentioning `API` are shown
      as they are, anything else as the network message. */
  function ShownError(o: GatewayOutcome): (e: string)
    ensures Contains(e, "API") || e == LLM.NETWORK_ERROR
    ensures Contains(ErrorMessage(o), "API") ==> e == ErrorMessage(o)
  {
    var m := ErrorMessage(o);
    if Contains(m, "API") then m else LLM.NETWORK_ERROR
  }

  /** The pauses before the retries `1..n`: 1000 ms, 2000 ms, ... */
  function Delays(n: nat): (d: seq<nat>)
    ensures |d| == n && forall i :: 0 <= i < n ==> d[i] == RETRY_STEP_MS * (i + 1)
  {
    seq(n, i => RETRY_STEP_MS * (i + 1))
  }

  /** `handleSendWithRetry(content, attempt)`, the recursion as the page
      writes it: a success stops, a failure before the third call retries,
      the third failure gives up. */
  function RetryFrom(gateway: Gateway, intent: Intent, sent: seq<Message>, attempt: nat): (r: SendReport)
    requires attempt < MAX_CALLS
    ensures attempt < r.calls <= MAX_CALLS && r.delays == Delays(r.calls - 1)
    ensures forall k :: attempt <= k < r.calls - 1 ==> !Succeeded(gateway(intent, sent, k))
    ensures r.reply.Some? <==> exists k :: attempt <= k < MAX_CALLS && Succeeded(gateway(intent, sent, k))
    ensures r.reply.Some? ==> Succeeded(gateway(intent, sent, r.calls - 1))
                              && r.reply.value == gateway(intent, sent, r.calls - 1).result.data
                              && r.shownError.None?
    ensures r.reply.None? ==> r.calls == MAX_CALLS && r.shownError == Some(ShownError(gateway(intent, sent, MAX_CALLS - 1)))
    decreases MAX_CALLS - attempt
  {
    var o := gateway(intent, sent, attempt);
    if Succeeded(o) then SendReport(Some(o.result.data), attempt + 1, Delays(attempt), None)
    else if attempt == MAX_CALLS - 1 then SendReport(None, MAX_CALLS, Delays(attempt), Some(ShownError(o)))
    else RetryFrom(gateway, intent, sent, attempt + 1)
  }

  /** The retry loop: the gateway is called until it succeeds or has been
      called three times, pausing `1000 * attempt` ms before each retry. */
  method SendWithRetry(gateway: Gateway, intent: Intent, sent: seq<Message>) returns (report: SendReport)
    ensures report == RetryFrom(gateway, intent, sent, 0)
    ensures 1 <= report.calls <= MAX_CALLS
  {
    var attempt := 0;
    var delays := [];
    var o := gateway(intent, sent, attempt);
    while !Succeeded(o) && attempt < MAX_CALLS - 1
      invariant attempt < MAX_CALLS && o == gateway(intent, sent, attempt)
      invariant delays == Delays(attempt)
      invariant RetryFrom(gateway, intent, sent, attempt) == RetryFrom(gateway, intent, sent, 0)
      decreases MAX_CALLS - attempt
    {
      delays := delays + [RETRY_STEP_MS * (attempt + 1)];
      attempt := attempt + 1;
      o := gateway(intent, sent, attempt);
    }
    if Succeeded(o) {
      report := SendReport(Some(o.result.data), attempt + 1, delays, None);
    } else {
      report := SendReport(None, MAX_CALLS, delays, Some(ShownError(o)));
    }
  }

  /** The shown error always names the API or is the network message. */
  lemma ShownErrorIsExplained(gateway: Gateway, intent: Intent, sent: seq<Message>)
    requires RetryFrom(gateway, intent, sent, 0).reply.None?
    ensures var e := RetryFrom(gateway, intent, sent, 0).shownError.value;
      Contains(e, "API") || e == LLM.NETWORK_ERROR
  {
  }

  /** A gateway that fails on every call is called exactly three times, after
      pauses of one and two seconds. */
  lemma {:induction false} AlwaysFailingGateway(gateway: Gateway, intent: Intent, sent: seq<Message>)
    requires forall k :: 0 <= k < MAX_CALLS ==> !Succeeded(gateway(intent, sent, k))
    ensures RetryFrom(gateway, intent, sent, 0).calls == 3
    ensures RetryFrom(gateway, intent, sent, 0).delays == [1000, 2000]
  {
    var r := RetryFrom(gateway, intent, sent, 0);
    assert r.reply.None?;
    assert Delays(2) == [1000, 2000];
  }

  /** The page state and the chat store it drives. */
  class AssistantPage {
    var input: string
    var isSending: bool
    var retryCount: nat
    var inputHint: string
    const store: AIChatStore

    constructor (store: AIChatStore)
      ensures this.store == store
      ensures input == "" && !isSending && retryCount == 0 && inputHint == ""
    {
      this.store := store;
      input, isSending, retryCount, inputHint := "", false, 0, "";
    }

    /** `handleInputChange`: keeps the text and recomputes the hint. */
    method HandleInputChange(value: string)
      modifies this`input, this`inputHint
      ensures input == value && inputHint == GetInputHint(value)
    {
      input := value;
      inputHint := GetInputHint(value);
    }

    /** `handleSend`. Blank input changes nothing and calls nothing
        (`report` is `None`); any other input is dispatched. */
    method HandleSend(gateway: Gateway, atSend: Clock, atReply: Clock, atSave: Clock)
      returns (report: Option<SendReport>)
      requires store.Valid()
      modifies this`input, this`isSending, this`retryCount
      modifies store`messages, store`isLoading, store`lastActiveTime, store`typingIndicator, store`history
      ensures store.Valid()
      ensures AllSpace(old(input)) ==>
        && report.None?
        && input == old(input) && isSending == old(isSending) && retryCount == old(retryCount)
        && store.messages == old(store.messages) && store.history == old(store.history)
        && store.isLoading == old(store.isLoading) && store.typingIndicator == old(store.typingIndicator)
        && store.lastActiveTime == old(store.lastActiveTime)
      ensures !AllSpace(old(input)) ==>
        var content := Trim(old(input));
        var sent := old(store.messages) + [Bare(USER, content)];
        var r := RetryFrom(gateway, DetectUserIntent(content), sent, 0);
        && report == Some(r)
        && store.messages == old(store.messages) + [Stamp(Bare(USER, content), atSend, store.currentSessionId)]
                             + (if r.reply.Some? then [Stamp(r.reply.value, atReply, store.currentSessionId)] else [])
        && retryCount == (if r.reply.Some? then 0 else MAX_CALLS)
        && store.history == (if r.reply.Some? && Truthy(store.currentSessionId) && |old(store.messages)| > 0
                             then Upsert(old(store.history), HistoryItem(Conversation(store.currentSessionId, None, sent, None), atSave))
                             else old(store.history))
        && store.lastActiveTime == Some(if r.reply.Some? then atReply.iso else atSend.iso)
        && input == "" && !isSending && !store.isLoading && !store.typingIndicator
    {
      if IsBlank(input) {
        return None;
      }
      var r := Dispatch(Trim(input), gateway, atSend, atReply, atSave);
      report := Some(r);
    }

    /** The non-blank part of `handleSend`: the trimmed text is logged once as
        a user message before the gateway is called, the reply is logged only
        on success, a success in a live session archives the pre-send log
        plus the user's message, and the busy flags end cleared. */
    method Dispatch(content: string, gateway: Gateway, atSend: Clock, atReply: Clock, atSave: Clock)
      returns (r: SendReport)
      requires store.Valid()
      modifies this`input, this`isSending, this`retryCount
      modifies store`messages, store`isLoading, store`lastActiveTime, store`typingIndicator, store`history
      ensures store.Valid()
      ensures r == RetryFrom(gateway, DetectUserIntent(content), old(store.messages) + [Bare(USER, content)], 0)
      ensures store.messages == old(store.messages) + [Stamp(Bare(USER, content), atSend, store.currentSessionId)]
                                + (if r.reply.Some? then [Stamp(r.reply.value, atReply, store.currentSessionId)] else [])
      ensures store.history == (if r.reply.Some? && Truthy(store.currentSessionId) && |old(store.messages)| > 0
                                then Upsert(old(store.history), HistoryItem(Conversation(store.currentSessionId, None, old(store.messages) + [Bare(USER, content)], None), atSave))
                                else old(store.history))
      ensures retryCount == (if r.reply.Some? then 0 else MAX_CALLS)
      ensures store.lastActiveTime == Some(if r.reply.Some? then atReply.iso else atSend.iso)
      ensures input == "" && !isSending && !store.isLoading && !store.typingIndicator
    {
      var before := store.messages;
      var sid := store.currentSessionId;
      Begin(content, atSend);
      var sent := before + [Bare(USER, content)];
      r := SendWithRetry(gateway, DetectUserIntent(content), sent);
      Finish(r.reply, sent, atReply, atSave);
    }

    /** Before the call: busy flags up, the user's message logged, the input
        cleared. */
    method Begin(content: string, atSend: Clock)
      modifies this`input, this`isSending
      modifies store`messages, store`isLoading, store`lastActiveTime, store`typingIndicator
      ensures store.messages == old(store.messages) + [Stamp(Bare(USER, content), atSend, store.currentSessionId)]
      ensures store.lastActiveTime == Some(atSend.iso) && !store.isLoading
      ensures input == "" && isSending && store.typingIndicator
    {
      isSending := true;
      store.SetLoading(true);
      store.AddMessage(Bare(USER, content), atSend);
      input := "";
      store.SetTypingIndicator(true);
    }

    /** After the call: the reply logged and the conversation archived on
        success, the retry counter set, and every busy flag cleared. `sent`
        is the pre-send log plus the user's message. */
    method Finish(reply: Option<Message>, sent: seq<Message>, atReply: Clock, atSave: Clock)
      requires store.Valid()
      modifies this`isSending, this`retryCount
      modifies store`messages, store`isLoading, store`lastActiveTime, store`typingIndicator, store`history
      ensures store.Valid()
      ensures store.messages == old(store.messages) + (if reply.Some? then [Stamp(reply.value, atReply, store.currentSessionId)] else [])
      ensures retryCount == (if reply.Some? then 0 else MAX_CALLS)
      ensures reply.Some? && Truthy(store.currentSessionId) && |sent| > 1 ==>
                store.history == Upsert(old(store.history), HistoryItem(Conversation(store.currentSessionId, None, sent, None), atSave))
      ensures !(reply.Some? && Truthy(store.currentSessionId) && |sent| > 1) ==> store.history == old(store.history)
      ensures store.lastActiveTime == (if reply.Some? then Some(atReply.iso) else old(store.lastActiveTime))
      ensures !isSending && !store.isLoading && !store.typingIndicator
    {
      ghost var archive := store.history;
      if reply.Some? {
        store.AddMessage(reply.value, atReply);
        retryCount := 0;
      } else {
        retryCount := MAX_CALLS;
      }
      assert store.history == archive;
      ghost var sid := store.currentSessionId;
      if reply.Some? && Truthy(store.currentSessionId) && |sent| > 1 {
        ghost var item := HistoryItem(Conversation(sid, None, sent, None), atSave);
        store.SaveHistory(Conversation(store.currentSessionId, None, sent, None), atSave);
        assert store.history == Upsert(archive, item);
      }
      ghost var saved := store.history;
      isSending := false;
      store.SetLoading(false);
      store.SetTypingIndicator(false);
      assert store.history == saved;
      assert store.currentSessionId == sid;
    }

    /** `handleNewSession`: a live session with more than the welcome message
        is archived first; then a new session starts and the input clears. */
    method HandleNewSession(atSave: Clock, atStart: Clock)
      requires store.Valid()
      modifies this`input, store`history, store`currentSessionId, store`messages, store`lastActiveTime
      ensures store.Valid()
      ensures store.history == (if Truthy(old(store.currentSessionId)) && |old(store.messages)| > 1
                                then Upsert(old(store.history), HistoryItem(Conversation(old(store.currentSessionId), None, old(store.messages), None), atSave))
                                else old(store.history))
      ensures store.currentSessionId == Some(SessionId(atStart))
      ensures store.messages == [Welcome(SessionId(atStart), atStart)]
      ensures store.lastActiveTime == Some(atStart.iso)
      ensures input == ""
    {
      if Truthy(store.currentSessionId) && |store.messages| > 1 {
        store.SaveHistory(Conversation(store.currentSessionId, None, store.messages, None), atSave);
      }
      store.StartNewSession(atStart);
      input := "";
    }
  }
}
