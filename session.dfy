/** The chat panel's state machine, as values. Each function is one handler of the
    component run as one atomic step: the network reply, fresh uuids and `Date.now()`
    are its inputs. The class in module Component performs the same steps in place. */
module Session {
  import opened Wrappers
  import opened Text
  import opened Messages
  import opened Providers
  import opened Persistence

  datatype View = Editor | Preview

  /** The call in flight: the abort controller (`aborted` records whether `abort()` was
      called) together with what the running `callAi` captured when it started. */
  datatype Request = Request(
    userMessageId: string,
    sessionId: string,
    prompt: string,
    provider: string,
    aborted: bool)

  /** How a `POST /api/ask-ai` ended. `Replied` is a 2xx answer whose body parsed, with an
      empty `response` standing for a missing one; `HttpError` a non-2xx answer;
      `NetworkError` a rejected fetch or an unparsable body; `Aborted` an `AbortError`. */
  datatype Outcome =
    | Replied(ok: bool, response: string, modelUsed: Option<string>, providerUsed: Option<string>)
    | HttpError(status: int)
    | NetworkError
    | Aborted

  /** How a `GET /api/check-env` ended: `Unavailable` covers both a non-2xx answer and a
      thrown error; `env` is `None` when the body has no `env` field. */
  datatype ProviderCheck = Unavailable | Reported(env: Option<seq<EnvEntry>>)

  /** The kind of toast a finished request shows. */
  datatype Notice = Generated(provider: string) | Stopped | Failed

  /** The component's state, the two parent props it drives through callbacks (`html`,
      `view`, and the working flag reported with `setIsAiWorking`) and the browser
      storage it mirrors to. */
  datatype State = State(
    working: bool,
    request: Option<Request>,
    history: seq<Message>,
    prompt: string,
    sessionId: string,
    showHistory: bool,
    selectedProvider: string,
    availableProviders: seq<string>,
    html: string,
    view: View,
    storage: Storage)

  /** The working flag is set exactly while a request holds an abort controller. */
  predicate Valid(s: State) {
    s.working <==> s.request.Some?
  }

  /** The initial state after the mount effect has loaded from storage. */
  function Mounted(stored: Storage, codec: Codec, freshSession: string, providerParam: Option<string>,
                   html: string, view: View): (r: State)
    ensures Valid(r) && !r.working && !r.showHistory && r.prompt == ""
    ensures Loaded(r.history, r.sessionId) == Restored(stored, codec, freshSession)
    ensures r.selectedProvider == InitialProvider(providerParam) && r.availableProviders == []
    ensures r.storage == stored && r.html == html && r.view == view
  {
    var loaded := Restored(stored, codec, freshSession);
    State(false, None, loaded.history, "", loaded.sessionId, false, InitialProvider(providerParam), [],
          html, view, stored)
  }

  /** The guard at the top of `callAi`: no request in flight, a prompt that is not
      whitespace only, and a session. */
  predicate CanSubmit(s: State): (r: bool)
    ensures r <==> !s.working && !AllWhitespace(s.prompt) && s.sessionId != ""
  {
    TrimEmptyIff(s.prompt);
    !s.working && Trim(s.prompt) != "" && s.sessionId != ""
  }

  /** The optimistic user message `callAi` appends: a user message in the current
      session whose text is the prompt without surrounding whitespace, and which is never
      blank when the guard let the call through. */
  function UserMessage(s: State, id: string, now: int): (m: Message)
    ensures m.id == id && m.role == User && m.sessionId == s.sessionId && m.timestamp == now
    ensures m.modelUsed.None? && m.providerUsed.None?
    ensures exists k :: TrimmedAt(s.prompt, m.content, k)
    ensures CanSubmit(s) ==> m.content != [] && !IsWhitespace(m.content[0]) && !IsWhitespace(m.content[|m.content| - 1])
  {
    Message(id, s.sessionId, User, Trim(s.prompt), now, None, None)
  }

  /** `callAi` up to the fetch: when the guard lets it through, the panel starts working,
      holds a fresh controller, appends exactly one user message carrying the trimmed
      prompt and the session id, and clears the prompt; nothing else changes. When the
      guard stops it, nothing at all changes. */
  function Submit(s: State, id: string, now: int): (r: State)
    ensures r == s <==> !CanSubmit(s)
    ensures CanSubmit(s) ==>
      && r.working && r.prompt == ""
      && r.history == s.history + [UserMessage(s, id, now)]
      && r.request == Some(Request(id, s.sessionId, Trim(s.prompt), s.selectedProvider, false))
      && r.(working := s.working, request := s.request, history := s.history, prompt := s.prompt) == s
    ensures Valid(s) ==> Valid(r)
  {
    if !CanSubmit(s) then s
    else
      s.(working := true,
         request := Some(Request(id, s.sessionId, Trim(s.prompt), s.selectedProvider, false)),
         history := s.history + [UserMessage(s, id, now)],
         prompt := "")
  }

  /** `stopGeneration`: marks the controller aborted when there is one, otherwise does
      nothing; the history and everything else stay as they are. */
  function Stop(s: State): (r: State)
    ensures s.request.None? ==> r == s
    ensures s.request.Some? ==>
      && r.request.Some? && r.request.value.aborted
      && r.request.value.(aborted := false) == s.request.value.(aborted := false)
      && r.(request := s.request) == s
    ensures Valid(s) ==> Valid(r)
  {
    match s.request
    case None => s
    case Some(req) => s.(request := Some(req.(aborted := true)))
  }

  /** The reply counts as a success: a 2xx answer whose body parsed, with `data.ok` and
      a non-empty `data.response`. A non-2xx answer, a failed fetch and an abort never do. */
  predicate Succeeded(o: Outcome) {
    o.Replied? && o.ok && o.response != ""
  }

  /** The end of `callAi`, from the reply to the `finally` block: a success appends one
      assistant message (and replaces the HTML and shows the preview exactly when the
      reply looks like an HTML document); any failure, an abort included, filters the
      optimistic user message out by id. Either way the request is over. Only
      `stopGeneration` aborts the controller, so an `AbortError` comes only for a request
      that was stopped. */
  function Complete(s: State, o: Outcome, assistantId: string, now: int): (r: State)
    requires s.request.Some? && (o.Aborted? ==> s.request.value.aborted)
    ensures !r.working && r.request.None? && Valid(r)
    ensures Succeeded(o) ==>
      r.history == s.history + [Message(assistantId, s.request.value.sessionId, Assistant, o.response, now,
                                        o.modelUsed, o.providerUsed)]
    ensures !Succeeded(o) ==> r.history == RemoveById(s.history, s.request.value.userMessageId)
    ensures (r.html, r.view) ==
      if Succeeded(o) && LooksLikeHtml(o.response) then (o.response, Preview) else (s.html, s.view)
    ensures r.(working := s.working, request := s.request, history := s.history, html := s.html, view := s.view) == s
  {
    var req := s.request.value;
    var settled :=
      if Succeeded(o) then
        var reply := Message(assistantId, req.sessionId, Assistant, o.response, now, o.modelUsed, o.providerUsed);
        if LooksLikeHtml(o.response) then
          s.(history := s.history + [reply], html := o.response, view := Preview)
        else
          s.(history := s.history + [reply])
      else
        s.(history := RemoveById(s.history, req.userMessageId));
    settled.(working := false, request := None)
  }

  /** The toast for a finished request: the abort is the only failure told apart, and a
      success names `data.providerUsed`, or the selected provider when it is missing. */
  function NoticeFor(o: Outcome, req: Request): (n: Notice)
    ensures n.Stopped? <==> o.Aborted?
    ensures n.Generated? <==> Succeeded(o)
    ensures n.Generated? && o.providerUsed.Some? && o.providerUsed.value != "" ==> n.provider == o.providerUsed.value
    ensures n.Generated? && (o.providerUsed.None? || o.providerUsed.value == "") ==> n.provider == req.provider
  {
    if Succeeded(o) then
      Generated(if o.providerUsed.Some? && o.providerUsed.value != "" then o.providerUsed.value else req.provider)
    else if o.Aborted? then Stopped
    else Failed
  }

  /** `startNewConversation`: empty history and prompt, history list hidden, the new
      session installed; the request state and the storage are untouched. */
  function StartNewConversation(s: State, newSession: string): (r: State)
    ensures r.history == [] && r.prompt == "" && !r.showHistory && r.sessionId == newSession
    ensures r.(history := s.history, prompt := s.prompt, showHistory := s.showHistory, sessionId := s.sessionId) == s
    ensures Valid(s) ==> Valid(r)
  {
    s.(history := [], sessionId := newSession, prompt := "", showHistory := false)
  }

  /** `clearHistory`: empty history, both storage keys removed, the new session
      installed; the prompt and the history list's visibility are kept. */
  function ClearHistory(s: State, newSession: string): (r: State)
    ensures r.history == [] && r.sessionId == newSession
    ensures HistoryKey !in r.storage && SessionKey !in r.storage
    ensures r.storage == Cleared(s.storage)
    ensures r.(history := s.history, sessionId := s.sessionId, storage := s.storage) == s
    ensures Valid(s) ==> Valid(r)
  {
    s.(history := [], storage := Cleared(s.storage), sessionId := newSession)
  }

  /** The save effect, run after a step that changed the history or the session. */
  function Persist(s: State, codec: Codec): (r: State)
    ensures r.storage == Saved(s.storage, s.history, s.sessionId, codec)
    ensures r.(storage := s.storage) == s
  {
    s.(storage := Saved(s.storage, s.history, s.sessionId, codec))
  }

  /** The provider check: on an answer, the available list becomes the configured
      providers and the selection falls back to the first of them when it is not one;
      when the check fails nothing changes. */
  function CheckProviders(s: State, check: ProviderCheck): (r: State)
    ensures check.Unavailable? ==> r == s
    ensures check.Reported? ==>
      var configured := Configured(if check.env.Some? then check.env.value else []);
      && r.availableProviders == configured
      && r.selectedProvider == Fallback(configured, s.selectedProvider)
      && r.(availableProviders := s.availableProviders, selectedProvider := s.selectedProvider) == s
    ensures check.Reported? && r.availableProviders != [] ==> r.selectedProvider in r.availableProviders
    ensures Valid(s) ==> Valid(r)
  {
    match check
    case Unavailable => s
    case Reported(env) =>
      var configured := Configured(if env.Some? then env.value else []);
      s.(availableProviders := configured, selectedProvider := Fallback(configured, s.selectedProvider))
  }

  /** The textarea's `onChange`. */
  function EditPrompt(s: State, text: string): (r: State)
    ensures r.prompt == text && r.(prompt := s.prompt) == s
  {
    s.(prompt := text)
  }

  /** The dropdown's `onChange`. */
  function SelectProvider(s: State, provider: string): (r: State)
    ensures r.selectedProvider == provider && r.(selectedProvider := s.selectedProvider) == s
  {
    s.(selectedProvider := provider)
  }

  /** The history button. */
  function ToggleHistory(s: State): (r: State)
    ensures r.showHistory != s.showHistory && r.(showHistory := s.showHistory) == s
  {
    s.(showHistory := !s.showHistory)
  }

  /** A failed request, whatever the failure and whether or not it was stopped first,
      returns the history to exactly what it was before the submit; the working flag is
      down again but the prompt stays cleared. The `AbortError` of a stopped request is
      rolled back like every other failure. */
  lemma FailureRollsBack(s: State, id: string, now: int, stopped: bool, o: Outcome, assistantId: string,
                         later: int)
    requires CanSubmit(s) && id !in Ids(s.history) && !Succeeded(o) && (o.Aborted? ==> stopped)
    ensures var submitted := Submit(s, id, now);
            var r := Complete(if stopped then Stop(submitted) else submitted, o, assistantId, later);
            && r.history == s.history && !r.working && r.request.None? && r.prompt == ""
  {
    RemoveAppended(s.history, UserMessage(s, id, now));
  }

  /** A successful request adds exactly two messages: the user's, then the reply. */
  lemma SuccessAppendsExchange(s: State, id: string, now: int, o: Outcome, assistantId: string, later: int)
    requires CanSubmit(s) && Succeeded(o)
    ensures var r := Complete(Submit(s, id, now), o, assistantId, later);
            && |r.history| == |s.history| + 2
            && r.history[..|s.history|] == s.history
            && r.history[|s.history|] == UserMessage(s, id, now)
            && r.history[|s.history| + 1].role == Assistant
            && r.history[|s.history| + 1].content == o.response
            && r.history[|s.history| + 1].sessionId == s.sessionId
  {
  }

  /** Which failure it was changes only the notice, never the state. */
  lemma FailuresAgreeOnState(s: State, o1: Outcome, o2: Outcome, assistantId: string, now: int)
    requires s.request.Some? && !Succeeded(o1) && !Succeeded(o2)
    requires (o1.Aborted? ==> s.request.value.aborted) && (o2.Aborted? ==> s.request.value.aborted)
    ensures Complete(s, o1, assistantId, now) == Complete(s, o2, assistantId, now)
  {
  }

  /** The provider effect runs again when the selection changes; with the same answer
      the second run changes nothing. */
  lemma ProviderCheckSettles(s: State, check: ProviderCheck)
    ensures CheckProviders(CheckProviders(s, check), check) == CheckProviders(s, check)
  {
  }

  /** The save effect skips an empty history, so a request that fails on an empty
      conversation leaves its rolled-back user message in storage, and the next mount
      brings it back. */
  lemma RolledBackMessageReturnsOnReload(s: State, id: string, now: int, stopped: bool, o: Outcome,
                                         assistantId: string, later: int, codec: Codec, freshSession: string)
    requires Faithful(codec)
    requires s.history == [] && CanSubmit(s) && !Succeeded(o) && (o.Aborted? ==> stopped)
    ensures var submitted := Persist(Submit(s, id, now), codec);
            var settled := if stopped then Stop(submitted) else submitted;
            var failed := Persist(Complete(settled, o, assistantId, later), codec);
            && failed.history == []
            && Restored(failed.storage, codec, freshSession) == Loaded([UserMessage(s, id, now)], s.sessionId)
  {
    var m := UserMessage(s, id, now);
    var submitted := Persist(Submit(s, id, now), codec);
    assert submitted.history == [m];
    RemoveAppended([], m);
    SaveThenRestore(Submit(s, id, now).storage, [m], s.sessionId, codec, freshSession);
  }

  /** The same holds for a new conversation: storage keeps the old messages and the next
      mount pairs them with the new session id. */
  lemma NewConversationReloadsOldHistory(s: State, codec: Codec, newSession: string, freshSession: string)
    requires Faithful(codec)
    requires s.history != [] && s.sessionId != "" && newSession != ""
    ensures var started := Persist(StartNewConversation(Persist(s, codec), newSession), codec);
            && started.history == []
            && Restored(started.storage, codec, freshSession) == Loaded(s.history, newSession)
  {
  }

  /** Clearing does reach storage: after the save that follows, the next mount starts a
      fresh session with no history. */
  lemma ClearedConversationStaysCleared(s: State, newSession: string, codec: Codec, freshSession: string)
    ensures var cleared := Persist(ClearHistory(s, newSession), codec);
            && cleared.history == []
            && Restored(cleared.storage, codec, freshSession) == Loaded([], freshSession)
  {
  }
}
