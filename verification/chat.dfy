/**
 The chat session controller of the page: the state the component keeps
 (input text, conversation, loading flag, error text), the submit handler
 that records a user turn, asks the provider through the retrying wrapper
 and records the answer or a fixed error message, and the predicate that
 disables the submit button.

 The handler's asynchronous middle is split in two: `Begin` is the state
 once the synchronous part has run, `Finish` applies how the wrapped
 provider call settled. React state updates are applied in order, which is
 what the handler's functional `setChat` updates amount to when nothing
 else runs in between.
 */
module Chat {
  import JsString
  import opened Retry

  datatype Role = User | Bot

  /** One turn of the conversation. */
  datatype Message = Message(role: Role, text: string)

  /** The component's state: the text box, the conversation, whether a
      request is in flight, and the error banner ("" when none). */
  datatype ChatState = ChatState(question: string, chat: seq<Message>, loading: bool, error: string)

  /** What one submit produced: the final state and the prompt of every
      call made to the provider. */
  datatype Submission = Submission(state: ChatState, prompts: seq<string>)

  const FetchErrorText: string := "Error fetching response, please try again later."

  /** The state the component mounts with. */
  const Initial: ChatState := ChatState("", [], false, "")

  /** `question.trim() === ""`. */
  predicate IsBlank(q: string) {
    JsString.Trim(q) == []
  }

  /** `disabled={!question.trim() || loading}`: the button is disabled
      exactly when a request is in flight or the text box holds nothing
      but whitespace. */
  function SubmitDisabled(s: ChatState): (disabled: bool)
    ensures disabled <==> s.loading || JsString.AllTrimmable(s.question)
  {
    JsString.Trim(s.question) == [] || s.loading
  }

  /** The state once the handler has passed the blank check and run up to
      its `await`: error cleared, loading set, the raw question appended
      as a user turn, the text box cleared. */
  function Begin(s: ChatState): ChatState {
    ChatState("", s.chat + [Message(User, s.question)], true, "")
  }

  /** The state once the wrapped provider call has settled: a bot turn on
      success, the fixed error text on failure, loading cleared either way. */
  function Finish(p: ChatState, settled: Outcome<string>): ChatState {
    match settled
    case Ok(answer) => p.(chat := p.chat + [Message(Bot, answer)], loading := false)
    case Err(_) => p.(error := FetchErrorText, loading := false)
  }

  /** The submit handler, given how the wrapped provider call settled. A
      blank question changes nothing. Otherwise the old conversation is
      kept, the raw question follows it as a user turn, and then comes the
      answer as a bot turn with the error cleared, or nothing more with the
      fixed error text shown; the text box ends empty and loading ends
      false. */
  function Submit(s: ChatState, settled: Outcome<string>): (r: ChatState)
    ensures IsBlank(s.question) ==> r == s
    ensures !IsBlank(s.question) ==>
      && !r.loading
      && r.question == ""
      && |r.chat| > |s.chat|
      && r.chat[..|s.chat| + 1] == s.chat + [Message(User, s.question)]
    ensures !IsBlank(s.question) && settled.Ok? ==>
      && r.chat == s.chat + [Message(User, s.question), Message(Bot, settled.value)]
      && r.error == ""
    ensures !IsBlank(s.question) && settled.Err? ==>
      && r.chat == s.chat + [Message(User, s.question)]
      && r.error == FetchErrorText
  {
    if IsBlank(s.question) then s else Finish(Begin(s), settled)
  }

  /** The submit handler with the provider given as a script of call
      outcomes, wrapped with the default budget and delay. A blank
      question makes no call. Otherwise every call asks the raw question,
      every call but the last was rate limited, the last call is rate
      limited only when the budget is spent, and the final state is what
      the last call's outcome makes of the submit. */
  function HandleSubmit(s: ChatState, script: seq<Outcome<string>>): (r: Submission)
    requires |script| >= MaxCalls(DefaultRetries)
    ensures IsBlank(s.question) ==> r == Submission(s, [])
    ensures !IsBlank(s.question) ==>
      && 1 <= |r.prompts| <= MaxCalls(DefaultRetries)
      && (forall i :: 0 <= i < |r.prompts| ==> r.prompts[i] == s.question)
      && (forall i :: 0 <= i < |r.prompts| - 1 ==> IsRetryable(script[i]))
      && (IsRetryable(script[|r.prompts| - 1]) ==> |r.prompts| == MaxCalls(DefaultRetries))
      && r.state == Submit(s, script[|r.prompts| - 1])
  {
    if IsBlank(s.question) then
      Submission(s, [])
    else
      var t := FetchWithRetry(script, DefaultRetries, DefaultDelay);
      Submission(Submit(s, t.result), Repeat(s.question, t.calls))
  }

  /** `n` copies of `x`: the prompts of `n` calls of `() => getAnswer(x)`. */
  function Repeat(x: string, n: nat): (xs: seq<string>)
    ensures |xs| == n && forall i :: 0 <= i < n ==> xs[i] == x
  {
    if n == 0 then [] else Repeat(x, n - 1) + [x]
  }

  /** The user turn is recorded before the provider is asked, and whatever
      the call settles with, the state before the call is kept as a prefix. */
  lemma UserTurnRecordedBeforeFetch(s: ChatState, settled: Outcome<string>)
    requires !IsBlank(s.question)
    ensures Begin(s).loading && Begin(s).error == "" && Begin(s).question == ""
    ensures Begin(s).chat == s.chat + [Message(User, s.question)]
    ensures Begin(s).chat <= Submit(s, settled).chat
  {
  }

  /** Submit leaves the state unchanged exactly when the question is blank. */
  lemma SubmitNoOpIffBlank(s: ChatState, settled: Outcome<string>)
    ensures Submit(s, settled) == s <==> IsBlank(s.question)
  {
    if !IsBlank(s.question) {
      assert |Submit(s, settled).chat| > |s.chat|;
    }
  }

  /** With no request in flight, the button is enabled exactly when
      submitting would change the state. */
  lemma EnabledIffSubmitActs(s: ChatState, settled: Outcome<string>)
    requires !s.loading
    ensures !SubmitDisabled(s) <==> Submit(s, settled) != s
  {
    SubmitNoOpIffBlank(s, settled);
  }

  /** The handler itself never looks at the loading flag: only the disabled
      button keeps a second submit out while one is in flight. */
  lemma SubmitIgnoresLoading(s: ChatState, settled: Outcome<string>, b: bool)
    requires !IsBlank(s.question)
    ensures Submit(s.(loading := b), settled) == Submit(s, settled)
  {
  }

  /** Every bot turn directly follows a user turn. */
  ghost predicate WellFormed(chat: seq<Message>) {
    forall i :: 0 <= i < |chat| && chat[i].role == Bot ==> i > 0 && chat[i - 1].role == User
  }

  lemma SubmitKeepsWellFormed(s: ChatState, settled: Outcome<string>)
    requires WellFormed(s.chat)
    ensures WellFormed(Submit(s, settled).chat)
  {
    if !IsBlank(s.question) {
      var u := Message(User, s.question);
      match settled
      case Ok(answer) => AppendKeepsWellFormed(s.chat, [u, Message(Bot, answer)]);
      case Err(_) => AppendKeepsWellFormed(s.chat, [u]);
    }
  }

  /** Appending a well-formed block that starts with a user turn keeps a
      conversation well formed. */
  lemma AppendKeepsWellFormed(chat: seq<Message>, block: seq<Message>)
    requires WellFormed(chat) && WellFormed(block)
    requires block != [] ==> block[0].role == User
    ensures WellFormed(chat + block)
  {
    var c := chat + block;
    forall i | 0 <= i < |c| && c[i].role == Bot
      ensures i > 0 && c[i - 1].role == User
    {
      if i < |chat| {
        assert c[i] == chat[i] && c[i - 1] == chat[i - 1];
      } else {
        assert c[i] == block[i - |chat|];
        if i > |chat| {
          assert c[i - 1] == block[i - 1 - |chat|];
        }
      }
    }
  }

  /** A question asked through a short burst of rate limits, at most the
      default budget of them, still gets its answer. */
  lemma RecoversFromRateLimitBurst(s: ChatState, script: seq<Outcome<string>>, k: nat, answer: string)
    requires !IsBlank(s.question)
    requires |script| >= MaxCalls(DefaultRetries)
    requires k <= DefaultRetries
    requires forall i :: 0 <= i < k ==> IsRetryable(script[i])
    requires script[k] == Ok(answer)
    ensures var r := HandleSubmit(s, script);
      && |r.prompts| == k + 1
      && r.state.chat == s.chat + [Message(User, s.question), Message(Bot, answer)]
      && r.state.error == ""
      && !r.state.loading
  {
    RateLimitedThenOk(script, DefaultRetries, DefaultDelay, k, answer);
  }

  /** A question rate limited on every call shows the fixed error after
      four calls, and the conversation keeps the user turn without an
      answer. */
  lemma PersistentRateLimitShowsError(s: ChatState, script: seq<Outcome<string>>)
    requires !IsBlank(s.question)
    requires |script| >= MaxCalls(DefaultRetries)
    requires forall i :: 0 <= i <= DefaultRetries ==> IsRetryable(script[i])
    ensures var r := HandleSubmit(s, script);
      && |r.prompts| == 4
      && r.state.chat == s.chat + [Message(User, s.question)]
      && r.state.error == FetchErrorText
      && !r.state.loading
  {
    AlwaysRateLimited(script, DefaultRetries, DefaultDelay);
  }

  /** "Hello" answered with "Hi there" from a fresh page. */
  lemma HelloRoundTrip()
    ensures Submit(Initial.(question := "Hello"), Ok("Hi there"))
            == ChatState("", [Message(User, "Hello"), Message(Bot, "Hi there")], false, "")
  {
    assert !JsString.IsTrimmable("Hello"[0]);
  }

  /** What the user can do to the page: type into the text box, or submit
      while the provider's calls would settle as `script` says. */
  datatype Event = Edit(text: string) | Send(script: seq<Outcome<string>>)

  predicate ScriptsCover(events: seq<Event>) {
    forall i :: 0 <= i < |events| && events[i].Send? ==> |events[i].script| >= MaxCalls(DefaultRetries)
  }

  function Step(s: ChatState, e: Event): ChatState
    requires e.Send? ==> |e.script| >= MaxCalls(DefaultRetries)
  {
    match e
    case Edit(text) => s.(question := text)
    case Send(script) => HandleSubmit(s, script).state
  }

  /** The state after a sequence of events, each run to completion. */
  function Run(s: ChatState, events: seq<Event>): ChatState
    requires ScriptsCover(events)
    decreases |events|
  {
    if events == [] then s else Run(Step(s, events[0]), events[1..])
  }

  /** The conversation only grows: no event edits or removes a turn. */
  lemma {:induction false} ConversationOnlyGrows(s: ChatState, events: seq<Event>)
    requires ScriptsCover(events)
    ensures s.chat <= Run(s, events).chat
    decreases |events|
  {
    if events != [] {
      var e := events[0];
      if e.Send? && !IsBlank(s.question) {
        var r := HandleSubmit(s, e.script).state;
        assert r.chat[..|s.chat|] == s.chat;
      }
      assert s.chat <= Step(s, e).chat;
      assert ScriptsCover(events[1..]);
      ConversationOnlyGrows(Step(s, e), events[1..]);
    }
  }

  /** Between events the page is never left loading. */
  lemma {:induction false} NeverLeftLoading(s: ChatState, events: seq<Event>)
    requires ScriptsCover(events)
    requires !s.loading
    ensures !Run(s, events).loading
    decreases |events|
  {
    if events != [] {
      assert ScriptsCover(events[1..]);
      NeverLeftLoading(Step(s, events[0]), events[1..]);
    }
  }

  /** Every bot turn directly follows a user turn. */
  lemma {:induction false} RunKeepsWellFormed(s: ChatState, events: seq<Event>)
    requires ScriptsCover(events)
    requires WellFormed(s.chat)
    ensures WellFormed(Run(s, events).chat)
    decreases |events|
  {
    if events != [] {
      var e := events[0];
      if e.Send? && !IsBlank(s.question) {
        var calls := |HandleSubmit(s, e.script).prompts|;
        SubmitKeepsWellFormed(s, e.script[calls - 1]);
      }
      assert ScriptsCover(events[1..]);
      RunKeepsWellFormed(Step(s, e), events[1..]);
    }
  }
}
