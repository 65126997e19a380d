/**
 * The per-chat session state machine of the bot: the quota gate, the prompt
 * composer, the transcript manager, the completion exchange, the reply
 * formatter and the commands and menu callbacks that change a session.
 */
module App {
  import opened Wrappers
  import opened ChatTypes
  import opened Modes
  import opened Utils
  import opened JsString
  import opened MarkdownV2

  // ---------------------------------------------------------------- quota gate

  /** `!token`: an absent or empty token counts as no token. */
  predicate NoToken(token: Option<string>)
  {
    token.None? || token.value == ""
  }

  /**
   * The quota gate. `limit` is the configured limit after numeric conversion;
   * `None` stands for a value that does not convert, against which every
   * comparison is false.
   */
  predicate ShouldWarnAboutToken(messagesCount: int, limit: Option<int>, token: Option<string>)
  {
    limit.Some? && messagesCount >= limit.value && NoToken(token)
  }

  /**
   * The gate fires exactly when the free messages are used up and no usable
   * token is stored, and never when the limit is not a number.
   */
  lemma QuotaGate(messagesCount: int, limit: Option<int>, token: Option<string>)
    ensures limit.Some? ==>
      (ShouldWarnAboutToken(messagesCount, limit, token) <==> !(messagesCount < limit.value || (token.Some? && |token.value| > 0)))
    ensures limit.None? ==> !ShouldWarnAboutToken(messagesCount, limit, token)
    ensures ShouldWarnAboutToken(5, Some(5), None) && !ShouldWarnAboutToken(5, Some(5), Some("abc12"))
  {
  }

  // ---------------------------------------------------------------- prompt

  /** `!!settings?.skipProse`: the short-replies toggle as the prompt and the menu read it. */
  predicate SkipProse(settings: Option<map<string, bool>>)
  {
    settings.Some? && "skipProse" in settings.value && settings.value["skipProse"]
  }

  const AnswerAs := " Answer as: "
  const DontMention := ". Don't mention the mode in your answer."

  /** The user turn composed from the message text, the toggle and the session mode. */
  function GetPrompt(text: Option<string>, settings: Option<map<string, bool>>, mode: Option<string>): string
  {
    Show(text) + ". " + (if SkipProse(settings) then "Skip prose." else "") + AnswerAs + Show(mode) + DontMention
  }

  /** The prompt starts with the message text and ends with the mode instruction. */
  lemma PromptFrame(text: Option<string>, settings: Option<map<string, bool>>, mode: Option<string>)
    ensures var p := GetPrompt(text, settings, mode);
      && |p| == |Show(text)| + 2 + (if SkipProse(settings) then 11 else 0) + |AnswerAs| + |Show(mode)| + |DontMention|
      && p[..|Show(text)|] == Show(text)
      && p[|p| - |Show(mode)| - |DontMention|..] == Show(mode) + DontMention
  {
  }

  /** Different message texts give different prompts: the composer loses none of the text. */
  lemma {:induction false} PromptInjective(t1: Option<string>, t2: Option<string>, settings: Option<map<string, bool>>, mode: Option<string>)
    requires GetPrompt(t1, settings, mode) == GetPrompt(t2, settings, mode)
    ensures Show(t1) == Show(t2)
  {
    PromptFrame(t1, settings, mode);
    PromptFrame(t2, settings, mode);
  }

  /** The prompts for the two toggle states differ exactly by the short-replies instruction. */
  lemma {:induction false} PromptReflectsToggle(text: Option<string>, s1: Option<map<string, bool>>, s2: Option<map<string, bool>>, mode: Option<string>)
    ensures GetPrompt(text, s1, mode) == GetPrompt(text, s2, mode) <==> SkipProse(s1) == SkipProse(s2)
  {
    PromptFrame(text, s1, mode);
    PromptFrame(text, s2, mode);
  }

  // ---------------------------------------------------------------- transcript

  /**
   * The transcript after a user turn: seeded with the system entry of the
   * mode whose display name is the session mode when there is none yet,
   * otherwise extended by the user entry.
   */
  function WithUserTurn(history: Option<seq<ChatHistoryItem>>, mode: Option<string>, content: string): (r: seq<ChatHistoryItem>)
    ensures history.Some? ==> |r| == |history.value| + 1 && r[..|history.value|] == history.value
    ensures history.None? ==> |r| == 2 && r[0] == ChatHistoryItem(System, PromptStartOf(FindByName(mode)))
    ensures r[|r| - 1] == ChatHistoryItem(User, Some(content))
  {
    if history.None? then
      [ChatHistoryItem(System, PromptStartOf(FindByName(mode))), ChatHistoryItem(User, Some(content))]
    else
      history.value + [ChatHistoryItem(User, Some(content))]
  }

  /** A user turn keeps the system entry alone at the head, and establishes it when seeding. */
  lemma UserTurnKeepsSystemHead(history: Option<seq<ChatHistoryItem>>, mode: Option<string>, content: string)
    requires history.Some? ==> SystemOnlyAtHead(history.value)
    ensures SystemOnlyAtHead(WithUserTurn(history, mode, content))
  {
  }

  /** The transcript the clear command installs: the system entry of the mode matched by name or code. */
  function ClearedHistory(mode: Option<string>): (r: seq<ChatHistoryItem>)
    ensures SystemOnlyAtHead(r) && |r| == 1
  {
    [ChatHistoryItem(System, PromptStartOf(FindByNameOrCode(mode)))]
  }

  /** Clearing keeps a non-empty system prompt for any mode of the table, named either way. */
  lemma ClearedHistoryContent(mode: Option<string>, m: Mode)
    requires m in Table && (mode == Some(m.name) || mode == Some(m.code))
    ensures ClearedHistory(mode) == [ChatHistoryItem(System, Some(m.promptStart))]
    ensures |m.promptStart| > 0
  {
    LookupUnique(ByNameOrCode, mode, m);
    PromptsNonEmpty();
  }

  /** Clearing a fresh session gives back the initial transcript. */
  lemma ClearFreshSession()
    ensures ClearedHistory(Some(InitialMode)) == InitialHistory()
    ensures ClearedHistory(Some(InitialMode)) == [ChatHistoryItem(System, Some(Assistant.promptStart))]
  {
    LookupTable();
  }

  // ---------------------------------------------------------------- completion

  /** What the completion collaborator does with one request. */
  datatype CompletionOutcome = Throws | Resolved(message: Option<ApiMessage>)

  /** The request sent to the completion collaborator: the key and the messages. */
  datatype Request = Request(apiKey: string, messages: seq<ChatHistoryItem>)

  /** `session.token ?? platformToken`: a stored token wins, even an empty one. */
  function ApiKey(token: Option<string>, platformToken: string): string
  {
    if token.Some? then token.value else platformToken
  }

  /** The stored token takes precedence over the platform token, but an empty one passes the gate as absent. */
  lemma ApiKeyPrecedence(token: string, platformToken: string, messagesCount: int, limit: int)
    ensures ApiKey(Some(token), platformToken) == token
    ensures ApiKey(None, platformToken) == platformToken
    ensures ShouldWarnAboutToken(messagesCount, Some(limit), Some("")) == (messagesCount >= limit)
  {
  }

  /** The transcript after the reply: the returned message is appended only when there is one. */
  function WithReply(sent: seq<ChatHistoryItem>, outcome: CompletionOutcome): (r: seq<ChatHistoryItem>)
  {
    if outcome.Resolved? && outcome.message.Some? then sent + [StoredItem(outcome.message.value)] else sent
  }

  /** The usage counter after an exchange whose request was sent: raised once whenever the call resolves. */
  function CountAfter(messagesCount: int, outcome: CompletionOutcome): int
  {
    if outcome.Resolved? then messagesCount + 1 else messagesCount
  }

  /**
   * The effect of one exchange on a transcript: a reply adds the user turn and
   * the reply; a resolved call without a message, or a thrown one, keeps the
   * user turn alone; the earlier entries never change; the counter rises by
   * one exactly when the call resolved.
   */
  lemma ExchangeEffect(history: seq<ChatHistoryItem>, mode: Option<string>, prompt: string, messagesCount: int, outcome: CompletionOutcome)
    ensures var after := WithReply(WithUserTurn(Some(history), mode, prompt), outcome);
      && after[..|history|] == history
      && after[|history|] == ChatHistoryItem(User, Some(prompt))
      && (outcome.Resolved? && outcome.message.Some? ==>
            |after| == |history| + 2 && after[|history| + 1] == StoredItem(outcome.message.value))
      && (!(outcome.Resolved? && outcome.message.Some?) ==> |after| == |history| + 1)
    ensures CountAfter(messagesCount, outcome) == messagesCount + (if outcome.Throws? then 0 else 1)
  {
    var sent := WithUserTurn(Some(history), mode, prompt);
    assert sent[..|history|] == history;
  }

  /** A reply that is not a system message keeps the system entry alone at the head. */
  lemma ReplyKeepsSystemHead(sent: seq<ChatHistoryItem>, outcome: CompletionOutcome)
    requires SystemOnlyAtHead(sent)
    requires outcome.Resolved? && outcome.message.Some? ==> outcome.message.value.role != System
    ensures SystemOnlyAtHead(WithReply(sent, outcome))
  {
  }

  // ---------------------------------------------------------------- reply formatting

  /** A reply as handed to the chat platform: the text and the parse mode (`undefined` allowed). */
  datatype Formatted = Formatted(text: string, parseMode: Option<ParseMode>)

  /**
   * The reply formatter: the parse mode of the mode whose display name is the
   * session mode; the text is escaped for MarkdownV2 and left alone otherwise.
   */
  function ReplyWithChatCompletion(mode: Option<string>, completion: string): (r: Formatted)
    ensures r.parseMode == ParseModeOf(FindByName(mode))
    ensures r.parseMode == Some(MarkdownV2) ==> r.text == Escape(completion)
    ensures r.parseMode != Some(MarkdownV2) ==> r.text == completion
  {
    var parseMode := ParseModeOf(FindByName(mode));
    Formatted(if parseMode == Some(MarkdownV2) then Escape(completion) else completion, parseMode)
  }

  /**
   * The initial mode is a code, so a fresh session's replies go out with no
   * parse mode and unescaped; after choosing the technical writer from the
   * menu they are escaped, and after choosing the assistant they are HTML.
   */
  lemma ReplyFormatByMode(completion: string)
    ensures ReplyWithChatCompletion(Some(InitialMode), completion) == Formatted(completion, None)
    ensures ReplyWithChatCompletion(Some(TechnicalWriter.name), completion) == Formatted(Escape(completion), Some(MarkdownV2))
    ensures ReplyWithChatCompletion(Some(Assistant.name), completion) == Formatted(completion, Some(HTML))
    ensures ReplyWithChatCompletion(None, completion) == Formatted(completion, None)
  {
    LookupTable();
  }

  /** What the message handler sends back. */
  datatype Outbound = TokenLimitWarning | CompletionError | Reply(formatted: Formatted)

  // ---------------------------------------------------------------- the token command

  /** `ctx.message?.text.split(" ")[1]`: the argument of the token command. */
  function TokenArgument(text: Option<string>): Option<string>
  {
    if text.None? then None else SecondPiece(text.value, ' ')
  }

  /** `z.string().nonempty().min(5).parse(arg)`: the token the command stores, if it accepts one. */
  function AcceptedToken(text: Option<string>): (r: Option<string>)
    ensures r.Some? <==> TokenArgument(text).Some? && |TokenArgument(text).value| >= 5
    ensures r.Some? ==> r == TokenArgument(text)
  {
    var arg := TokenArgument(text);
    if arg.Some? && |arg.value| >= 1 && |arg.value| >= 5 then arg else None
  }

  /**
   * `/token <word>` stores the word exactly when it has at least five
   * characters, whatever follows it after a space; the bare command, or a
   * second space in place of the word, stores nothing.
   */
  lemma TokenCommand(word: string, tail: string)
    requires ' ' !in word && (tail == [] || tail[0] == ' ')
    ensures AcceptedToken(Some("/token" + " " + word + tail)) == (if |word| >= 5 then Some(word) else None)
    ensures AcceptedToken(Some("/token")) == None
    ensures AcceptedToken(Some("/token" + " " + " " + word)) == None
  {
    SecondPieceIs("/token", word, tail, ' ');
    assert "/token" + " " + word + tail == "/token" + [' '] + word + tail;
    SecondPieceIs("/token", "", " " + word, ' ');
    assert "/token" + " " + " " + word == "/token" + [' '] + "" + (" " + word);
  }

  // ---------------------------------------------------------------- the session

  /** One chat's session record, changed in place by the handlers and commands. */
  class Session {
    var mode: Option<string>
    var token: Option<string>
    var messagesCount: int
    var chatHistory: Option<seq<ChatHistoryItem>>
    var settings: Option<map<string, bool>>

    /** A fresh copy of the initial session value. */
    constructor ()
      ensures mode == Some(InitialMode) && token == None && messagesCount == 0
      ensures chatHistory == Some(InitialHistory()) && settings == Some(InitialSettings)
      ensures HistoryWellFormed()
    {
      mode := Some(InitialMode);
      token := None;
      messagesCount := 0;
      chatHistory := Some(InitialHistory());
      settings := Some(InitialSettings);
      InitialHistoryShape();
    }

    /** The transcript, when present, holds its system entry at the head and nowhere else. */
    ghost predicate HistoryWellFormed()
      reads this
    {
      chatHistory.Some? ==> SystemOnlyAtHead(chatHistory.value)
    }

    /** The quota gate on this session. */
    predicate ShouldWarn(limit: Option<int>)
      reads this
    {
      ShouldWarnAboutToken(messagesCount, limit, token)
    }

    /** Appends a user turn, seeding the transcript first when there is none, and returns the stored transcript. */
    method GetChatHistory(content: string) returns (history: seq<ChatHistoryItem>)
      modifies this`chatHistory
      ensures history == WithUserTurn(old(chatHistory), mode, content)
      ensures chatHistory == Some(history)
      ensures old(HistoryWellFormed()) ==> HistoryWellFormed()
    {
      if HistoryWellFormed() {
        UserTurnKeepsSystemHead(chatHistory, mode, content);
      }
      if chatHistory.None? {
        chatHistory := Some([ChatHistoryItem(System, PromptStartOf(FindByName(mode))), ChatHistoryItem(User, Some(content))]);
      } else {
        chatHistory := Some(chatHistory.value + [ChatHistoryItem(User, Some(content))]);
      }
      history := chatHistory.value;
    }

    /**
     * One exchange with the completion collaborator. When the typing action
     * cannot be sent nothing changes and no request is made. Otherwise the
     * user turn is appended before the call, the counter is raised once
     * whenever the call resolves, and the reply is appended only when present;
     * a thrown call keeps the user turn and the counter.
     */
    method GetChatCompletion(prompt: string, platformToken: string, typingSent: bool, outcome: CompletionOutcome)
      returns (request: Option<Request>, reply: Option<ApiMessage>)
      modifies this
      ensures mode == old(mode) && token == old(token) && settings == old(settings)
      ensures !typingSent ==> request.None? && reply.None? &&
                              chatHistory == old(chatHistory) && messagesCount == old(messagesCount)
      ensures typingSent ==> request == Some(Request(ApiKey(old(token), platformToken), WithUserTurn(old(chatHistory), old(mode), prompt)))
      ensures typingSent ==> chatHistory == Some(WithReply(request.value.messages, outcome))
      ensures typingSent ==> messagesCount == CountAfter(old(messagesCount), outcome)
      ensures typingSent ==> reply == (if outcome.Resolved? then outcome.message else None)
      ensures old(HistoryWellFormed()) && (outcome.Resolved? && outcome.message.Some? ==> outcome.message.value.role != System)
              ==> HistoryWellFormed()
    {
      var apiKey := ApiKey(token, platformToken);
      if !typingSent {
        return None, None;
      }
      var history := GetChatHistory(prompt);
      request := Some(Request(apiKey, history));
      if SystemOnlyAtHead(history) && (outcome.Resolved? && outcome.message.Some? ==> outcome.message.value.role != System) {
        ReplyKeepsSystemHead(history, outcome);
      }
      match outcome {
        case Throws =>
          reply := None;
        case Resolved(message) =>
          messagesCount := messagesCount + 1;
          if message.Some? {
            chatHistory := Some(chatHistory.value + [StoredItem(message.value)]);
          }
          reply := message;
      }
    }

    /**
     * The text-message handler: a session over its quota gets the warning and
     * is left as it was; otherwise the composed prompt goes through one
     * exchange, and the reply is formatted for the session mode or replaced
     * by an error message when there is none.
     */
    method HandleMessage(text: Option<string>, limit: Option<int>, platformToken: string, typingSent: bool, outcome: CompletionOutcome)
      returns (request: Option<Request>, out: Outbound)
      modifies this
      ensures mode == old(mode) && token == old(token) && settings == old(settings)
      ensures old(ShouldWarn(limit)) ==>
                out == TokenLimitWarning && request.None? &&
                chatHistory == old(chatHistory) && messagesCount == old(messagesCount)
      ensures !old(ShouldWarn(limit)) && !typingSent ==>
                out == CompletionError && request.None? &&
                chatHistory == old(chatHistory) && messagesCount == old(messagesCount)
      ensures !old(ShouldWarn(limit)) && typingSent ==>
                && request == Some(Request(ApiKey(old(token), platformToken),
                                           WithUserTurn(old(chatHistory), old(mode), GetPrompt(text, old(settings), old(mode)))))
                && chatHistory == Some(WithReply(request.value.messages, outcome))
                && messagesCount == CountAfter(old(messagesCount), outcome)
                && out == (if outcome.Resolved? && outcome.message.Some?
                           then Reply(ReplyWithChatCompletion(old(mode), outcome.message.value.content))
                           else CompletionError)
      ensures old(HistoryWellFormed()) && (outcome.Resolved? && outcome.message.Some? ==> outcome.message.value.role != System)
              ==> HistoryWellFormed()
    {
      var prompt := GetPrompt(text, settings, mode);
      if ShouldWarn(limit) {
        return None, TokenLimitWarning;
      }
      var reply;
      request, reply := GetChatCompletion(prompt, platformToken, typingSent, outcome);
      if reply.None? {
        out := CompletionError;
      } else {
        out := Reply(ReplyWithChatCompletion(mode, reply.value.content));
      }
    }

    /** The clear command: the transcript becomes the single system entry of the current mode. */
    method Clear()
      modifies this`chatHistory
      ensures chatHistory == Some(ClearedHistory(mode))
      ensures HistoryWellFormed()
    {
      chatHistory := Some([ChatHistoryItem(System, PromptStartOf(FindByNameOrCode(mode)))]);
    }

    /** The token command: stores the argument when the schema accepts it; reports whether it did. */
    method SetToken(text: Option<string>) returns (accepted: bool)
      modifies this`token
      ensures accepted <==> AcceptedToken(text).Some?
      ensures token == if accepted then AcceptedToken(text) else old(token)
    {
      var arg := AcceptedToken(text);
      if arg.None? {
        return false;
      }
      token := arg;
      accepted := true;
    }

    /** The short-replies toggle as the menu reads it. */
    predicate IsSkipProseSet()
      reads this
    {
      SkipProse(settings)
    }

    /**
     * The short-replies toggle's `set`: writes the new state under
     * `skipProse`, creating the settings when absent, and leaves every other
     * key as it was. Returns `true` when the settings existed, else the new state.
     */
    method SetSkipProse(newState: bool) returns (rerender: bool)
      modifies this`settings
      ensures IsSkipProseSet() == newState
      ensures settings.Some? && "skipProse" in settings.value && settings.value["skipProse"] == newState
      ensures forall k :: k != "skipProse" ==>
                (k in settings.value <==> old(settings).Some? && k in old(settings).value)
      ensures forall k :: k != "skipProse" && k in settings.value ==> settings.value[k] == old(settings).value[k]
      ensures rerender == (old(settings).Some? || newState)
    {
      if settings.Some? {
        settings := Some(settings.value["skipProse" := newState]);
        rerender := true;
      } else {
        settings := Some(map["skipProse" := newState]);
        rerender := newState;
      }
    }

    /** The mode menu's `isSet`: whether `key` is the session mode. */
    predicate IsModeSelected(key: string)
      reads this
    {
      Some(key) == mode
    }

    /** The mode menu's `set`: the session mode becomes the chosen display name. */
    method SelectMode(key: string) returns (announcement: string, rerender: bool)
      modifies this`mode
      ensures mode == Some(key)
      ensures forall k :: IsModeSelected(k) <==> k == key
      ensures announcement == "You are chatting with " + key && rerender
    {
      mode := Some(key);
      announcement := "You are chatting with " + key;
      rerender := true;
    }
  }

  /**
   * A conversation that uses up a free limit of three, is refused, sets a
   * token and goes on: the counter after each message, and whether the
   * refused message left the transcript as it was.
   */
  method QuotaScenario(platformToken: string, answer: ApiMessage) returns (counts: seq<int>, refusedKeptHistory: bool)
    ensures counts == [1, 2, 3, 3, 4] && refusedKeptHistory
  {
    var s := new Session();
    var limit := Some(3);
    var request, out := s.HandleMessage(Some("one"), limit, platformToken, true, Resolved(Some(answer)));
    var c1 := s.messagesCount;
    request, out := s.HandleMessage(Some("two"), limit, platformToken, true, Resolved(Some(answer)));
    var c2 := s.messagesCount;
    request, out := s.HandleMessage(Some("three"), limit, platformToken, true, Resolved(Some(answer)));
    var c3 := s.messagesCount;
    assert c1 == 1 && c2 == 2 && c3 == 3 && s.token == None;
    var before := s.chatHistory;
    request, out := s.HandleMessage(Some("four"), limit, platformToken, true, Resolved(Some(answer)));
    var c4 := s.messagesCount;
    refusedKeptHistory := out == TokenLimitWarning && s.chatHistory == before;
    assert refusedKeptHistory && c4 == 3;
    var command := "/token" + " " + "abc12" + "";
    TokenCommand("abc12", "");
    var accepted := s.SetToken(Some(command));
    assert s.token == Some("abc12") && s.messagesCount == 3;
    request, out := s.HandleMessage(Some("four"), limit, platformToken, true, Resolved(Some(answer)));
    counts := [c1, c2, c3, c4, s.messagesCount];
  }
}
