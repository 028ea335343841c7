/** The `AskAI` component as an object: its `useState` cells, the abort-controller ref,
    the parent state it drives through `setHtml`, `setView` and `setIsAiWorking`, and
    `localStorage`. Each handler updates the fields step by step, as the source's setters
    do, and is proved to perform the matching transition of module Session. */
module Component {
  import opened Wrappers
  import opened Text
  import opened Messages
  import opened Providers
  import opened Persistence
  import opened Session

  class AskAiPanel {
    var working: bool
    var request: Option<Request>
    var history: seq<Message>
    var prompt: string
    var sessionId: string
    var showHistory: bool
    var selectedProvider: string
    var availableProviders: seq<string>
    var html: string
    var view: View
    var storage: Storage

    /** The fields as one value. */
    function State(): Session.State
      reads this
    {
      Session.State(working, request, history, prompt, sessionId, showHistory, selectedProvider,
                    availableProviders, html, view, storage)
    }

    ghost predicate Valid()
      reads this
    {
      Session.Valid(State())
    }

    /** Mounting: the `useState` initial values, then the load effect. */
    constructor Mount(stored: Storage, codec: Codec, freshSession: string, providerParam: Option<string>,
                      initialHtml: string, initialView: View)
      ensures Valid()
      ensures State() == Mounted(stored, codec, freshSession, providerParam, initialHtml, initialView)
    {
      working := false;
      request := None;
      prompt := "";
      showHistory := false;
      selectedProvider := InitialProvider(providerParam);
      availableProviders := [];
      html := initialHtml;
      view := initialView;
      storage := stored;
      history := [];
      sessionId := "";
      if Present(stored, HistoryKey) && Present(stored, SessionKey) {
        var parsed := codec.decode(stored[HistoryKey]);
        if parsed.Some? {
          history := parsed.value;
          sessionId := stored[SessionKey];
        } else {
          sessionId := freshSession;
        }
      } else {
        sessionId := freshSession;
      }
    }

    /** `callAi` up to the fetch. `id` is the fresh uuid of the user message. */
    method Submit(id: string, now: int)
      requires Valid() && id !in Ids(history)
      modifies this
      ensures Valid()
      ensures State() == Session.Submit(old(State()), id, now)
    {
      ghost var before := State();
      var trimmed := Trim(prompt);
      if working || trimmed == "" || sessionId == "" {
        assert !CanSubmit(before);
        return;
      }
      assert CanSubmit(before);
      working := true;
      request := Some(Request(id, sessionId, trimmed, selectedProvider, false));
      var userMessage := Message(id, sessionId, User, trimmed, now, None, None);
      assert userMessage == UserMessage(before, id, now);
      history := history + [userMessage];
      prompt := "";
      assert State() == before.(working := true,
                                request := Some(Request(id, before.sessionId, trimmed, before.selectedProvider, false)),
                                history := before.history + [userMessage],
                                prompt := "");
    }

    /** `stopGeneration`. */
    method Stop()
      requires Valid()
      modifies this
      ensures Valid()
      ensures State() == Session.Stop(old(State()))
    {
      if request.Some? {
        request := Some(request.value.(aborted := true));
      }
    }

    /** The rest of `callAi` once the fetch has settled with `outcome`; `assistantId` is
        the fresh uuid a reply would get. Returns the kind of toast shown. */
    method Complete(outcome: Outcome, assistantId: string, now: int) returns (notice: Notice)
      requires Valid() && request.Some?
      requires outcome.Aborted? ==> request.value.aborted
      modifies this
      ensures Valid()
      ensures State() == Session.Complete(old(State()), outcome, assistantId, now)
      ensures notice == NoticeFor(outcome, old(request.value))
    {
      var req := request.value;
      if Succeeded(outcome) {
        var reply := Message(assistantId, req.sessionId, Assistant, outcome.response, now,
                             outcome.modelUsed, outcome.providerUsed);
        history := history + [reply];
        if LooksLikeHtml(outcome.response) {
          html := outcome.response;
          view := Preview;
        }
        var reported := outcome.providerUsed;
        notice := Generated(if reported.Some? && reported.value != "" then reported.value else req.provider);
      } else {
        history := RemoveById(history, req.userMessageId);
        notice := if outcome.Aborted? then Stopped else Failed;
      }
      working := false;
      request := None;
    }

    /** `startNewConversation`; `newSession` is the fresh uuid. */
    method StartNewConversation(newSession: string)
      requires Valid()
      modifies this
      ensures Valid()
      ensures State() == Session.StartNewConversation(old(State()), newSession)
    {
      history := [];
      sessionId := newSession;
      prompt := "";
      showHistory := false;
    }

    /** `clearHistory`; `newSession` is the fresh uuid. */
    method ClearHistory(newSession: string)
      requires Valid()
      modifies this
      ensures Valid()
      ensures State() == Session.ClearHistory(old(State()), newSession)
    {
      history := [];
      storage := storage - {HistoryKey};
      storage := storage - {SessionKey};
      sessionId := newSession;
    }

    /** The save effect. */
    method Persist(codec: Codec)
      requires Valid()
      modifies this
      ensures Valid()
      ensures State() == Session.Persist(old(State()), codec)
    {
      if |history| > 0 {
        storage := storage[HistoryKey := codec.encode(history)];
      }
      if sessionId != "" {
        storage := storage[SessionKey := sessionId];
      }
    }

    /** The provider-check effect, applied to the answer of `GET /api/check-env`. */
    method CheckProviders(check: ProviderCheck)
      requires Valid()
      modifies this
      ensures Valid()
      ensures State() == Session.CheckProviders(old(State()), check)
    {
      if check.Reported? {
        var env := if check.env.Some? then check.env.value else [];
        var configured := Configured(env);
        availableProviders := configured;
        if |configured| > 0 && selectedProvider !in configured {
          selectedProvider := configured[0];
        }
      }
    }

    method EditPrompt(text: string)
      requires Valid()
      modifies this
      ensures Valid()
      ensures State() == Session.EditPrompt(old(State()), text)
    {
      prompt := text;
    }

    method SelectProvider(provider: string)
      requires Valid()
      modifies this
      ensures Valid()
      ensures State() == Session.SelectProvider(old(State()), provider)
    {
      selectedProvider := provider;
    }

    method ToggleHistory()
      requires Valid()
      modifies this
      ensures Valid()
      ensures State() == Session.ToggleHistory(old(State()))
    {
      showHistory := !showHistory;
    }
  }
}
