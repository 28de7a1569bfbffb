/** The per-session state of the app: the chat history, a list of turns the
    script appends to in place and replaces on reset, and the handle of the
    remote chat, which is deleted on reset and created whenever it is absent.
    The remote model is abstract: what `start_chat` and `send_message` return
    is passed in as a parameter. */
module Conversation {
  import opened Wrappers
  import opened Text
  import opened Turns
  import opened Replies

  /** A remote chat handle, seeded with the history it was started from. */
  datatype ChatHandle = ChatHandle(seed: seq<Turn>)

  /** What `model.start_chat(history=...)` did: returned a handle, or raised. */
  datatype StartResult = Started | StartFailed(error: string)

  /** What `chat.send_message(text)` did: returned a response (with `chatLast`,
      the handle's `last` attribute afterwards), or raised. */
  datatype RemoteResult = Success(resp: Response, chatLast: Option<Last>) | Failure(error: string)

  /** Whether a chat handle had to be created for this run. */
  datatype ChatStatus = Reused | Opened | CouldNotStart(message: string)

  /** What the send handler did: nothing, a reply, or a reported error.
      `message` is the stripped input given to `chat.send_message`; in a
      `Failed` status with no chat handle it is the text that would have
      been sent. */
  datatype SendStatus =
    | Idle
    | Replied(message: string, reply: string)
    | Failed(message: string, error: string)

  /** One run of the script after the key check: stopped because no chat
      could be started, or ran the send handler. */
  datatype RunOutcome = Stopped(message: string) | Ran(status: SendStatus)

  /** The history and send status after the send handler. */
  datatype Step = Step(history: seq<Turn>, status: SendStatus)

  const SystemRole := "system"
  const UserRole := "user"
  const AssistantRole := "assistant"
  const StartErrorPrefix := "Could not start chat: "
  const SendErrorPrefix := "Error sending message: "
  /** What reading the missing `chat` key of the session state raises. */
  const NoChatError := "st.session_state has no attribute \"chat\""

  /** The `{"role": "system", ...}` entry holding the system prompt. */
  function SystemTurn(prompt: string): (t: Turn)
    ensures t.role == Some(SystemRole) && LabelOf(t) == Other(SystemRole)
    ensures DisplayText(t) == prompt
  {
    TextTurn(SystemRole, prompt)
  }

  /** The history shape every session keeps: the system turn first and only
      there, user and assistant turns after it, and every assistant turn right
      after the user turn that caused it. */
  ghost predicate WellFormedLog(h: seq<Turn>) {
    && |h| >= 1
    && h[0].role == Some(SystemRole)
    && (forall i :: 1 <= i < |h| ==> h[i].role == Some(UserRole) || h[i].role == Some(AssistantRole))
    && (forall i :: 1 <= i < |h| && h[i].role == Some(AssistantRole) ==> h[i - 1].role == Some(UserRole))
  }

  /** The send handler as a function of the history before it: `chatOpen` says
      whether the session holds a chat handle, `pressed` whether Send was
      clicked, `input` the text area, `remote` what the remote call gives. */
  function AfterSend(h: seq<Turn>, chatOpen: bool, pressed: bool, input: string, remote: RemoteResult): (r: Step)
    ensures r.status.Idle? <==> !pressed || AllSpace(input)
    ensures r.status.Idle? ==> r.history == h
    ensures r.status.Replied? <==> pressed && !AllSpace(input) && chatOpen && remote.Success?
    ensures r.status.Replied? ==>
      && r.status.message == Strip(input) != []
      && r.status.reply == ExtractReply(remote.resp, remote.chatLast)
      && r.history == h + [TextTurn(UserRole, Strip(input)), TextTurn(AssistantRole, r.status.reply)]
    ensures r.status.Failed? ==>
      && r.status.message == Strip(input) != []
      && r.history == h + [TextTurn(UserRole, Strip(input))]
      && r.status.error == SendErrorPrefix + (if chatOpen then remote.error else NoChatError)
  {
    var message := Strip(input);
    if !pressed || message == [] then Step(h, Idle)
    else
      var withUser := h + [TextTurn(UserRole, message)];
      if !chatOpen then Step(withUser, Failed(message, SendErrorPrefix + NoChatError))
      else match remote
        case Failure(e) => Step(withUser, Failed(message, SendErrorPrefix + e))
        case Success(resp, chatLast) =>
          var reply := ExtractReply(resp, chatLast);
          Step(withUser + [TextTurn(AssistantRole, reply)], Replied(message, reply))
  }

  /** The send handler keeps the history well formed, also when a failure
      leaves a user turn without its answer. */
  lemma AfterSendKeepsWellFormed(h: seq<Turn>, chatOpen: bool, pressed: bool, input: string, remote: RemoteResult)
    requires WellFormedLog(h)
    ensures WellFormedLog(AfterSend(h, chatOpen, pressed, input, remote).history)
  {
    var r := AfterSend(h, chatOpen, pressed, input, remote);
    if !r.status.Idle? {
      var u := TextTurn(UserRole, Strip(input));
      AppendKeepsWellFormed(h, u);
      if r.status.Replied? {
        AppendKeepsWellFormed(h + [u], TextTurn(AssistantRole, r.status.reply));
      }
    }
  }

  /** Appending a user turn, or an assistant turn right after a user turn,
      keeps the history well formed. */
  lemma AppendKeepsWellFormed(h: seq<Turn>, t: Turn)
    requires WellFormedLog(h)
    requires t.role == Some(UserRole) || (t.role == Some(AssistantRole) && h[|h| - 1].role == Some(UserRole))
    ensures WellFormedLog(h + [t])
  {
    var h' := h + [t];
    forall i | 1 <= i < |h'|
      ensures h'[i].role == Some(UserRole) || h'[i].role == Some(AssistantRole)
      ensures h'[i].role == Some(AssistantRole) ==> h'[i - 1].role == Some(UserRole)
    {
      if i < |h| {
        assert h'[i] == h[i] && h'[i - 1] == h[i - 1];
      } else {
        assert h'[i] == t && h'[i - 1] == h[|h| - 1];
      }
    }
  }

  /** One interaction of the user with an open chat. */
  datatype Interaction = Interaction(pressed: bool, input: string, remote: RemoteResult)

  /** The turns the handler adds with an open chat, case by case: none when
      the interaction is skipped, the user turn, and the assistant turn only
      when the remote call succeeds. */
  function Added(x: Interaction): (ts: seq<Turn>)
    ensures |ts| <= 2
  {
    if !x.pressed || AllSpace(x.input) then []
    else if x.remote.Failure? then [TextTurn(UserRole, Strip(x.input))]
    else [TextTurn(UserRole, Strip(x.input)), TextTurn(AssistantRole, ExtractReply(x.remote.resp, x.remote.chatLast))]
  }

  /** The turns a list of interactions should add, in order. */
  function AddedAll(xs: seq<Interaction>): seq<Turn> {
    if xs == [] then [] else Added(xs[0]) + AddedAll(xs[1..])
  }

  /** The history after running the send handler on each interaction in turn. */
  function Replay(h: seq<Turn>, xs: seq<Interaction>): seq<Turn>
    decreases |xs|
  {
    if xs == [] then h
    else Replay(AfterSend(h, true, xs[0].pressed, xs[0].input, xs[0].remote).history, xs[1..])
  }

  /** The history is an append-only log: after any sequence of interactions it
      is the old history followed by each interaction's turns, in the order the
      interactions happened. */
  lemma {:induction false} ReplayAppendsInOrder(h: seq<Turn>, xs: seq<Interaction>)
    ensures Replay(h, xs) == h + AddedAll(xs)
    decreases |xs|
  {
    if xs != [] {
      var x := xs[0];
      var h' := AfterSend(h, true, x.pressed, x.input, x.remote).history;
      AfterSendAdds(h, x);
      ReplayAppendsInOrder(h', xs[1..]);
      assert h + Added(x) + AddedAll(xs[1..]) == h + (Added(x) + AddedAll(xs[1..]));
    }
  }

  /** With an open chat the handler adds exactly the turns `Added` names. */
  lemma AfterSendAdds(h: seq<Turn>, x: Interaction)
    ensures AfterSend(h, true, x.pressed, x.input, x.remote).history == h + Added(x)
  {
  }

  /** One entry of the conversation column. */
  datatype Line = Line(speaker: Label, text: string)

  class Session {
    var history: seq<Turn>
    var chat: Option<ChatHandle>

    /** The history is well formed, and a live chat handle was seeded with a
        prefix of the current history. That no handle outlives a reset is
        `Reset`'s `chat == None`, not this invariant. */
    ghost predicate Valid()
      reads this
    {
      && WellFormedLog(history)
      && (chat.Some? ==> chat.value.seed <= history)
    }

    /** First run of a session: the history is seeded with one system turn. */
    constructor (systemPrompt: string)
      ensures Valid()
      ensures history == [SystemTurn(systemPrompt)] && chat == None
    {
      history := [SystemTurn(systemPrompt)];
      chat := None;
    }

    /** "Reset conversation": one fresh system turn holding the current prompt,
        and no chat handle. */
    method Reset(systemPrompt: string)
      modifies this
      ensures Valid()
      ensures history == [SystemTurn(systemPrompt)] && chat == None
    {
      history := [SystemTurn(systemPrompt)];
      if chat.Some? {
        chat := None;
      }
    }

    /** Starts a chat from the current history when there is none. */
    method EnsureChat(start: StartResult) returns (status: ChatStatus)
      requires Valid()
      modifies this
      ensures Valid() && history == old(history)
      ensures old(chat).Some? ==> status == Reused && chat == old(chat)
      ensures old(chat).None? && start.Started? ==> status == Opened && chat == Some(ChatHandle(history))
      ensures old(chat).None? && start.StartFailed? ==>
        status == CouldNotStart(StartErrorPrefix + start.error) && chat == None
    {
      if chat.Some? {
        return Reused;
      }
      match start
      case Started =>
        chat := Some(ChatHandle(history));
        status := Opened;
      case StartFailed(e) =>
        status := CouldNotStart(StartErrorPrefix + e);
    }

    /** The send handler: appends the user turn, calls the remote chat, and
        appends the reply only when the call succeeds. */
    method Send(pressed: bool, input: string, remote: RemoteResult) returns (status: SendStatus)
      requires Valid()
      modifies this
      ensures Valid() && chat == old(chat)
      ensures Step(history, status) == AfterSend(old(history), old(chat).Some?, pressed, input, remote)
    {
      ghost var h0 := history;
      var message := Strip(input);
      if !pressed || message == [] {
        return Idle;
      }
      history := history + [TextTurn(UserRole, message)];
      if chat.None? {
        status := Failed(message, SendErrorPrefix + NoChatError);
      } else {
        match remote
        case Failure(e) =>
          status := Failed(message, SendErrorPrefix + e);
        case Success(resp, chatLast) =>
          var reply := ExtractReply(resp, chatLast);
          history := history + [TextTurn(AssistantRole, reply)];
          status := Replied(message, reply);
      }
      AfterSendKeepsWellFormed(h0, old(chat).Some?, pressed, input, remote);
    }

    /** One run of the script once the key is known: reset if asked, make sure
        a chat exists (stopping if it cannot be started), then handle Send. */
    method Run(systemPrompt: string, clear: bool, start: StartResult, pressed: bool, input: string, remote: RemoteResult)
      returns (outcome: RunOutcome)
      requires Valid()
      modifies this
      ensures Valid()
      ensures var h0 := if clear then [SystemTurn(systemPrompt)] else old(history);
        var c0 := if clear then None else old(chat);
        if c0.None? && start.StartFailed? then
          && outcome == Stopped(StartErrorPrefix + start.error)
          && history == h0 && chat == None
        else
          && outcome.Ran?
          && chat == Some(if c0.Some? then c0.value else ChatHandle(h0))
          && Step(history, outcome.status) == AfterSend(h0, true, pressed, input, remote)
      ensures clear && outcome.Ran? ==> chat == Some(ChatHandle([SystemTurn(systemPrompt)]))
    {
      if clear {
        Reset(systemPrompt);
      }
      var started := EnsureChat(start);
      if started.CouldNotStart? {
        return Stopped(started.message);
      }
      var status := Send(pressed, input, remote);
      outcome := Ran(status);
    }

    /** The conversation column: one labelled line per turn, in history order. */
    method Render() returns (lines: seq<Line>)
      ensures |lines| == |history|
      ensures forall i :: 0 <= i < |lines| ==> lines[i] == Line(LabelOf(history[i]), DisplayText(history[i]))
    {
      lines := [];
      var i := 0;
      while i < |history|
        invariant 0 <= i <= |history|
        invariant |lines| == i
        invariant forall k :: 0 <= k < i ==> lines[k] == Line(LabelOf(history[k]), DisplayText(history[k]))
      {
        var msg := history[i];
        lines := lines + [Line(LabelOf(msg), DisplayText(msg))];
        i := i + 1;
      }
    }
  }

  /** How the conversation column shows what the app itself stores: the
      system turn under its raw role, user turns as "You", replies as
      "Assistant", each with the text it was created from. */
  lemma StoredTurnsRender(prompt: string, message: string, reply: string)
    ensures LabelOf(SystemTurn(prompt)) == Other(SystemRole) && DisplayText(SystemTurn(prompt)) == prompt
    ensures LabelOf(TextTurn(UserRole, message)) == You && DisplayText(TextTurn(UserRole, message)) == message
    ensures LabelOf(TextTurn(AssistantRole, reply)) == Assistant && DisplayText(TextTurn(AssistantRole, reply)) == reply
  {
  }
}
