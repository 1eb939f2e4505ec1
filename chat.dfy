/**
 * The chat turn of src/lib/openai.ts (`handleUserMessage` and the three
 * wrappers that call it) and its per-user conversation cache. A turn consumes
 * an admission slot, builds the request from the system message, the five
 * most recent stored messages and the new user message, calls the language
 * model, and only on a non-empty reply stores the exchange (keeping the last
 * ten messages) and records the tokens used.
 *
 * The model call is an abstract collaborator: a function from the request to
 * a reply, about which nothing is assumed.
 */
module Chat {
  import opened Wrappers
  import opened Clock
  import opened JsString
  import opened RateLimiter

  datatype Role = System | User | Assistant

  datatype Message = Message(role: Role, content: string)

  /** Stored messages sent with each request (`slice(-5)`). */
  const ContextMessages: nat := 5
  /** Messages kept per user (`slice(-10)`). */
  const StoredMessages: nat := 10

  /** The opening of `SYSTEM_PROMPT`; the rest of its text is left out. */
  const SystemPrompt: string := "Eres un chef experto y nutricionista especializado en planificación de menús personalizados."
  const PreferenceHeader: string := "PREFERENCIAS DEL USUARIO:"


  /**
   * The `preferences` argument; an empty string stands for a field that is
   * absent or empty (both are falsy in the template).
   */
  datatype Preferences = Preferences(familySize: nat, ages: string, dietaryRestrictions: string,
                                     foodPreferences: string)

  /** What the model collaborator answers. */
  datatype ModelReply =
    | Completion(content: Option<string>, totalTokens: Option<nat>)
    | CallFailed(status: Option<int>)

  /**
   * The two errors `handleUserMessage` rethrows: the one for an upstream 429
   * and the generic one for everything else.
   */
  datatype ChatError = LimitReached | ProcessingFailed

  /** The message of the rethrown error. */
  function ErrorText(e: ChatError): string {
    match e
    case LimitReached =>
      "Has alcanzado el límite de consultas. Por favor, espera unos minutos antes de intentarlo de nuevo."
    case ProcessingFailed =>
      "Lo siento, tuve un problema al procesar tu mensaje. ¿Podrías intentarlo de nuevo?"
  }

  /** What `handleUserMessage` resolves to, or the error it throws. */
  datatype ChatResult = Answered(text: string) | Failed(error: ChatError)

  // ---------------------------------------------------------------------------
  // Message assembly
  // ---------------------------------------------------------------------------

  predicate IsSuffix<T(==)>(r: seq<T>, s: seq<T>) {
    |r| <= |s| && s[|s| - |r|..] == r
  }

  /** `s.slice(-n)` for a positive `n`: the last `n` elements, or all of a shorter `s`. */
  function TakeLast<T(==)>(s: seq<T>, n: nat): (r: seq<T>)
    requires n > 0
    ensures |r| == if |s| < n then |s| else n
    ensures IsSuffix(r, s)
  {
    if |s| <= n then s else s[|s| - n..]
  }

  /** Trimming to `m` keeps every shorter tail: storing ten loses none of the five sent. */
  lemma TakeLastOfTakeLast<T>(s: seq<T>, m: nat, n: nat)
    requires 0 < n <= m
    ensures TakeLast(TakeLast(s, m), n) == TakeLast(s, n)
  {
  }

  /**
   * Trimming after every append gives what a single trim of the whole log
   * gives: the stored history is always the last `n` messages ever exchanged.
   */
  lemma TakeLastAppend<T>(h: seq<T>, x: seq<T>, n: nat)
    requires n > 0
    ensures TakeLast(TakeLast(h, n) + x, n) == TakeLast(h + x, n)
  {
    var t := TakeLast(h, n);
    if |h| > n {
      assert h == h[..|h| - n] + t;
      assert h + x == h[..|h| - n] + (t + x);
      var hx := h + x;
      var tx := t + x;
      assert TakeLast(tx, n) == TakeLast(hx, n) by {
        assert hx[|hx| - |tx|..] == tx;
        assert TakeLast(tx, n) == tx[|tx| - n..];
        assert hx[|hx| - n..] == tx[|tx| - n..];
      }
    }
  }

  lemma PrefixExtend<X>(a: seq<X>, b: seq<X>, c: seq<X>)
    requires b <= c
    ensures a + b <= a + c
  {
    assert (a + c)[..|a + b|] == a + b;
  }

  lemma PrefixOfConcat<X>(a: seq<X>, b: seq<X>)
    ensures a <= a + b
  {
    assert (a + b)[..|a|] == a;
  }

  lemma PrefixTrans<X>(a: seq<X>, b: seq<X>, c: seq<X>)
    requires a <= b && b <= c
    ensures a <= c
  {
    assert c[..|a|] == b[..|a|];
  }

  /** `cond ? caption + value : ''` inside a template literal. */
  function OptionalLine(caption: string, value: string): (r: string)
    ensures value == "" <==> r == ""
  {
    if value == "" then "" else caption + value
  }

  /** The `PREFERENCIAS DEL USUARIO` block of the system message. */
  function PreferenceBlock(p: Preferences): (r: string)
    ensures PreferenceHeader <= r
    ensures PreferenceHeader + ("\n        - Familia de " + NatToString(p.familySize) + " personas") <= r
  {
    var family := PreferenceHeader + ("\n        - Familia de " + NatToString(p.familySize) + " personas");
    var rest := "\n        " + OptionalLine("- Edades: ", p.ages) + "\n        "
                + OptionalLine("- Restricciones: ", p.dietaryRestrictions) + "\n        "
                + OptionalLine("- Preferencias: ", p.foodPreferences);
    PrefixOfConcat(PreferenceHeader, "\n        - Familia de " + NatToString(p.familySize) + " personas");
    PrefixOfConcat(family, rest);
    PrefixTrans(PreferenceHeader, family, family + rest);
    family + rest
  }

  /** The system message carries the preference block. */
  predicate PreferencesShown(m: Message) {
    SystemPrompt + "\n\n" + PreferenceHeader <= m.content
  }

  /**
   * The system message: the prompt, then the preference block exactly when
   * preferences were passed.
   */
  function SystemMessage(prefs: Option<Preferences>): (m: Message)
    ensures m.role == System
  {
    Message(System, SystemPrompt + "\n\n" + (if prefs.Some? then PreferenceBlock(prefs.value) else ""))
  }

  /**
   * The system message is the prompt, then the preference block exactly when
   * preferences were passed.
   */
  lemma SystemMessageShowsPreferences(prefs: Option<Preferences>)
    ensures var m := SystemMessage(prefs);
            && m.role == System
            && SystemPrompt + "\n\n" <= m.content
            && (PreferencesShown(m) <==> prefs.Some?)
            && (prefs.None? ==> m.content == SystemPrompt + "\n\n")
  {
    if prefs.Some? {
      PrefixExtend(SystemPrompt + "\n\n", PreferenceHeader, PreferenceBlock(prefs.value));
    }
  }

  /**
   * The request: the system message, at most the five most recent stored
   * messages in their order, then the new user message.
   */
  function BuildRequest(system: Message, history: seq<Message>, message: string): (r: seq<Message>)
    ensures 2 <= |r| <= ContextMessages + 2
    ensures r[0] == system && r[|r| - 1] == Message(User, message)
    ensures |r| - 2 == if |history| < ContextMessages then |history| else ContextMessages
    ensures IsSuffix(r[1..|r| - 1], history)
  {
    var context := TakeLast(history, ContextMessages);
    var r := [system] + context + [Message(User, message)];
    assert r[1..|r| - 1] == context;
    r
  }

  /**
   * The stored history after an answered turn: the old history with the user
   * message and the reply appended, trimmed to its last ten messages.
   */
  function Remember(history: seq<Message>, message: string, reply: string): (h: seq<Message>)
    ensures 2 <= |h| <= StoredMessages
    ensures h[|h| - 2] == Message(User, message) && h[|h| - 1] == Message(Assistant, reply)
    ensures IsSuffix(h, history + [Message(User, message), Message(Assistant, reply)])
    ensures |h| == if |history| + 2 < StoredMessages then |history| + 2 else StoredMessages
  {
    TakeLast(history + [Message(User, message), Message(Assistant, reply)], StoredMessages)
  }

  /** `response.choices[0]?.message?.content`, when it is truthy. */
  function ReplyText(reply: ModelReply): (t: Option<string>)
    ensures t.Some? <==> reply.Completion? && reply.content.Some? && reply.content.value != ""
    ensures t.Some? ==> t.value == reply.content.value && t.value != ""
  {
    if reply.Completion? && reply.content.Some? && reply.content.value != "" then Some(reply.content.value)
    else None
  }

  /** `response.usage?.total_tokens || 0`. */
  function ReportedTokens(reply: ModelReply): (t: nat)
    ensures reply.Completion? && reply.totalTokens.Some? ==> t == reply.totalTokens.value
    ensures t > 0 ==> reply.Completion? && reply.totalTokens == Some(t)
  {
    if reply.Completion? && reply.totalTokens.Some? then reply.totalTokens.value else 0
  }

  /**
   * The `status` of the error a turn without a usable reply throws inside the
   * `try`: the failed call's own, or none for the empty-reply error
   * ('No se pudo generar una respuesta').
   */
  function ReplyStatus(reply: ModelReply): (st: Option<int>)
    ensures st.Some? ==> reply.CallFailed? && st == reply.status
    ensures reply.CallFailed? ==> st == reply.status
    ensures reply.Completion? ==> st.None?
  {
    if reply.CallFailed? then reply.status else None
  }

  /**
   * The `catch`: an error whose `status` is 429 becomes the limit error,
   * every other error (the local limiter's included) the generic one.
   */
  function UserFacingError(status: Option<int>): (e: ChatError)
    ensures e == LimitReached <==> status == Some(429)
  {
    if status == Some(429) then LimitReached else ProcessingFailed
  }

  /** The local limiter's rejection reaches the user as the generic error, not the 429 one. */
  lemma LocalRejectionIsGeneric()
    ensures UserFacingError(RateLimitExceeded.status) == ProcessingFailed
  {
  }

  // ---------------------------------------------------------------------------
  // The turn
  // ---------------------------------------------------------------------------

  function HistoryOf(conversations: map<string, seq<Message>>, userId: string): seq<Message> {
    if userId in conversations then conversations[userId] else []
  }

  /** The three module-level maps a turn touches. */
  datatype Stores = Stores(windows: map<string, Window>, usage: map<string, Usage>,
                           conversations: map<string, seq<Message>>)

  /** What an admitted turn makes of the model's reply: its result and the stores after it. */
  datatype Response = Response(result: ChatResult, stores: Stores)

  /** A turn's result, the stores after it, and the request sent to the model (if any). */
  datatype Turn = Turn(result: ChatResult, stores: Stores, request: Option<seq<Message>>)

  /**
   * The request an admitted turn sends, from the user's stored history; a
   * user with no history sends only the system message and the new message.
   */
  function TurnRequest(s: Stores, message: string, userId: string, prefs: Option<Preferences>): (r: seq<Message>)
    ensures 2 <= |r| <= ContextMessages + 2
  {
    BuildRequest(SystemMessage(prefs), HistoryOf(s.conversations, userId), message)
  }

  /**
   * The part of the `try` after the model call, on stores `s` in which the
   * slot is already consumed: a non-empty reply is stored and its tokens
   * recorded at time `later`; anything else is thrown and caught.
   */
  function Respond(s: Stores, message: string, userId: string, later: int, reply: ModelReply): (r: Response)
    ensures r.stores.windows == s.windows
  {
    match ReplyText(reply)
    case None =>
      Response(Failed(UserFacingError(ReplyStatus(reply))), s)
    case Some(text) =>
      var conversations := s.conversations[userId := Remember(HistoryOf(s.conversations, userId), message, text)];
      var usage := s.usage[userId := RecordTokens(Get(s.usage, userId), ReportedTokens(reply), later)];
      Response(Answered(text), s.(usage := usage, conversations := conversations))
  }

  /**
   * One `handleUserMessage(message, userId, preferences)`: `consume` reads the
   * clock at `now` and `incrementTokens`, after the awaited model call, at
   * `later`. An answer is the model's non-empty reply to the request sent,
   * and a failed turn stores nothing but the consumed slot.
   */
  function ChatTurn(s: Stores, message: string, userId: string, prefs: Option<Preferences>, now: int,
                    later: int, model: seq<Message> -> ModelReply): (t: Turn)
  {
    var admitted := s.(windows := AfterConsume(s.windows, userId, now));
    if ConsumeWindow(Get(s.windows, userId), now).Rejected? then
      Turn(Failed(UserFacingError(RateLimitExceeded.status)), admitted, None)
    else
      var request := TurnRequest(s, message, userId, prefs);
      var r := Respond(admitted, message, userId, later, model(request));
      Turn(r.result, r.stores, Some(request))
  }

  // The turn lemmas name the turn `t` they describe, the reply lemmas the
  // response `r`.

  /**
   * Every turn first consumes an admission slot, and that slot is never
   * refunded: whatever the model does, the limiter's map is left as `consume`
   * left it. The model is called exactly when the slot was granted.
   */
  lemma TurnConsumesSlot(s: Stores, message: string, userId: string, prefs: Option<Preferences>, now: int,
                         later: int, model: seq<Message> -> ModelReply, t: Turn)
    requires t == ChatTurn(s, message, userId, prefs, now, later, model)
    ensures t.stores.windows == AfterConsume(s.windows, userId, now)
    ensures t.request.None? <==> ConsumeWindow(Get(s.windows, userId), now).Rejected?
  {
  }

  /**
   * A rejected admission stops the turn before the history is read or the
   * model is called, changes nothing (a rejected `consume` writes nothing),
   * and reaches the user as the generic message.
   */
  lemma RejectedTurn(s: Stores, message: string, userId: string, prefs: Option<Preferences>, now: int,
                     later: int, model: seq<Message> -> ModelReply, t: Turn)
    requires t == ChatTurn(s, message, userId, prefs, now, later, model)
    requires ConsumeWindow(Get(s.windows, userId), now).Rejected?
    ensures t.request.None?
    ensures t.stores == s
    ensures t.result == Failed(ProcessingFailed)
  {
  }

  /** Unfolds an admitted turn into the request it sends and `Respond` on the stores with the slot consumed. */
  lemma AdmittedTurnSteps(s: Stores, message: string, userId: string, prefs: Option<Preferences>, now: int,
                          later: int, model: seq<Message> -> ModelReply, t: Turn)
    requires t == ChatTurn(s, message, userId, prefs, now, later, model)
    requires ConsumeWindow(Get(s.windows, userId), now).Admitted?
    ensures t.request == Some(TurnRequest(s, message, userId, prefs))
    ensures Response(t.result, t.stores)
            == Respond(s.(windows := AfterConsume(s.windows, userId, now)), message, userId, later,
                       model(TurnRequest(s, message, userId, prefs)))
  {
  }

  /**
   * An admitted turn sends the system message, then the last min(5, |h|)
   * messages of the user's stored history `h` in their order, then the new
   * user message. It is answered exactly when the model's reply to that
   * request is non-empty; otherwise the error is classified by the reply's
   * status and only the consumed slot is kept.
   */
  lemma AdmittedTurn(s: Stores, message: string, userId: string, prefs: Option<Preferences>, now: int,
                     later: int, model: seq<Message> -> ModelReply, t: Turn)
    requires t == ChatTurn(s, message, userId, prefs, now, later, model)
    requires ConsumeWindow(Get(s.windows, userId), now).Admitted?
    ensures var q, h := TurnRequest(s, message, userId, prefs), HistoryOf(s.conversations, userId);
            && t.request == Some(q)
            && q[0] == SystemMessage(prefs) && q[|q| - 1] == Message(User, message)
            && |q| - 2 == (if |h| < ContextMessages then |h| else ContextMessages)
            && IsSuffix(q[1..|q| - 1], h)
            && (t.result.Answered? <==> ReplyText(model(q)).Some?)
            && (t.result.Failed? ==> t.result.error == UserFacingError(ReplyStatus(model(q))))
    ensures t.stores.windows == AfterConsume(s.windows, userId, now)
    ensures t.result.Failed? ==> t.stores.usage == s.usage && t.stores.conversations == s.conversations
  {
    AdmittedTurnSteps(s, message, userId, prefs, now, later, model, t);
    var h := HistoryOf(s.conversations, userId);
    var q := BuildRequest(SystemMessage(prefs), h, message);
    assert TurnRequest(s, message, userId, prefs) == q;
    assert |q| - 2 == (if |h| < ContextMessages then |h| else ContextMessages);
  }

  /**
   * Without a non-empty reply (a failed call or empty content) neither the
   * history nor the token meter changes, and the error is classified by its
   * status.
   */
  lemma UnansweredReply(s: Stores, message: string, userId: string, later: int, reply: ModelReply, r: Response)
    requires r == Respond(s, message, userId, later, reply)
    requires ReplyText(reply).None?
    ensures r.stores == s
    ensures r.result == Failed(UserFacingError(ReplyStatus(reply)))
  {
  }

  /**
   * A failed model call of an admitted turn reaches the user as the limit
   * error exactly when the upstream status is 429, and as the generic error
   * otherwise; only the consumed slot is kept.
   */
  lemma FailedCallReachesUser(s: Stores, message: string, userId: string, prefs: Option<Preferences>, now: int,
                              later: int, model: seq<Message> -> ModelReply, t: Turn)
    requires t == ChatTurn(s, message, userId, prefs, now, later, model)
    requires ConsumeWindow(Get(s.windows, userId), now).Admitted?
    requires model(TurnRequest(s, message, userId, prefs)).CallFailed?
    ensures t.result.Failed?
    ensures t.result.error == LimitReached <==> model(TurnRequest(s, message, userId, prefs)).status == Some(429)
    ensures t.stores == s.(windows := AfterConsume(s.windows, userId, now))
  {
    AdmittedTurnSteps(s, message, userId, prefs, now, later, model, t);
  }

  /** Unfolds the handling of a non-empty reply into the two stores it updates. */
  lemma AnsweredReplySteps(s: Stores, message: string, userId: string, later: int, reply: ModelReply, r: Response)
    requires r == Respond(s, message, userId, later, reply)
    requires ReplyText(reply).Some?
    ensures r.result == Answered(ReplyText(reply).value)
    ensures r.stores.conversations
            == s.conversations[userId := Remember(HistoryOf(s.conversations, userId), message, r.result.text)]
    ensures r.stores.usage == s.usage[userId := RecordTokens(Get(s.usage, userId), ReportedTokens(reply), later)]
  {
  }

  /**
   * A non-empty reply is returned as is. The user's history `h'` ends with the
   * user message and the reply, is a suffix of the old history `h` followed
   * by those two, and holds min(10, |h| + 2) messages. No other history
   * changes.
   */
  lemma AnsweredReply(s: Stores, message: string, userId: string, later: int, reply: ModelReply, r: Response)
    requires r == Respond(s, message, userId, later, reply)
    requires ReplyText(reply).Some?
    ensures r.result == Answered(reply.content.value)
    ensures var h, h' := HistoryOf(s.conversations, userId), HistoryOf(r.stores.conversations, userId);
            && 2 <= |h'|
            && h'[|h'| - 2] == Message(User, message) && h'[|h'| - 1] == Message(Assistant, reply.content.value)
            && IsSuffix(h', h + [Message(User, message), Message(Assistant, reply.content.value)])
            && |h'| == (if |h| + 2 < StoredMessages then |h| + 2 else StoredMessages)
    ensures r.stores.conversations == s.conversations[userId := HistoryOf(r.stores.conversations, userId)]
  {
    ExchangeStored(s.conversations, r.stores.conversations, userId, message, reply.content.value);
  }

  /**
   * Answering records the reported tokens (0 when absent): the user's
   * lifetime total grows by exactly that much, and so does today's figure
   * before the stored midnight. No other user's tokens change, and neither
   * does the admission map.
   */
  lemma AnsweredTokens(s: Stores, message: string, userId: string, later: int, reply: ModelReply, r: Response)
    requires r == Respond(s, message, userId, later, reply)
    requires ReplyText(reply).Some?
    ensures userId in r.stores.usage
    ensures r.stores.usage[userId].total == StoredTotal(Get(s.usage, userId)) + ReportedTokens(reply)
    ensures userId in s.usage && later < s.usage[userId].resetTime ==>
              r.stores.usage[userId].daily == s.usage[userId].daily + ReportedTokens(reply)
    ensures r.stores.usage == s.usage[userId := r.stores.usage[userId]]
    ensures r.stores.windows == s.windows
  {
    RecordedUsage(s.usage, r.stores.usage, userId, ReportedTokens(reply), later);
  }

  lemma ExchangeStored(conversations: map<string, seq<Message>>, conversations': map<string, seq<Message>>,
                       userId: string, message: string, text: string)
    requires conversations' == conversations[userId := Remember(HistoryOf(conversations, userId), message, text)]
    ensures var h, h' := HistoryOf(conversations, userId), HistoryOf(conversations', userId);
            && 2 <= |h'|
            && h'[|h'| - 2] == Message(User, message) && h'[|h'| - 1] == Message(Assistant, text)
            && IsSuffix(h', h + [Message(User, message), Message(Assistant, text)])
            && |h'| == (if |h| + 2 < StoredMessages then |h| + 2 else StoredMessages)
    ensures conversations' == conversations[userId := HistoryOf(conversations', userId)]
  {
    RememberedExchange(HistoryOf(conversations, userId), HistoryOf(conversations', userId), message, text);
  }

  lemma RememberedExchange(h: seq<Message>, h': seq<Message>, message: string, text: string)
    requires h' == Remember(h, message, text)
    ensures && 2 <= |h'|
            && h'[|h'| - 2] == Message(User, message) && h'[|h'| - 1] == Message(Assistant, text)
            && IsSuffix(h', h + [Message(User, message), Message(Assistant, text)])
            && |h'| == (if |h| + 2 < StoredMessages then |h| + 2 else StoredMessages)
  {
  }

  lemma RecordedUsage(usage: map<string, Usage>, usage': map<string, Usage>, userId: string, tokens: nat, later: int)
    requires usage' == usage[userId := RecordTokens(Get(usage, userId), tokens, later)]
    ensures userId in usage'
    ensures usage'[userId].total == StoredTotal(Get(usage, userId)) + tokens
    ensures userId in usage && later < usage[userId].resetTime ==> usage'[userId].daily == usage[userId].daily + tokens
    ensures usage' == usage[userId := usage'[userId]]
  {
  }

  /** The reply to one user's request leaves every other user's history and tokens as they were. */
  lemma ResponseIsPartitioned(s: Stores, message: string, userId: string, later: int, reply: ModelReply,
                              r: Response, other: string)
    requires r == Respond(s, message, userId, later, reply)
    requires other != userId
    ensures Get(r.stores.usage, other) == Get(s.usage, other)
    ensures HistoryOf(r.stores.conversations, other) == HistoryOf(s.conversations, other)
  {
  }

  /** A turn by one user leaves every other user's entries in all three maps as they were. */
  lemma TurnIsPartitioned(s: Stores, message: string, userId: string, prefs: Option<Preferences>, now: int,
                          later: int, model: seq<Message> -> ModelReply, t: Turn, other: string)
    requires t == ChatTurn(s, message, userId, prefs, now, later, model)
    requires other != userId
    ensures Get(t.stores.windows, other) == Get(s.windows, other)
    ensures Get(t.stores.usage, other) == Get(s.usage, other)
    ensures HistoryOf(t.stores.conversations, other) == HistoryOf(s.conversations, other)
  {
    TurnConsumesSlot(s, message, userId, prefs, now, later, model, t);
    if ConsumeWindow(Get(s.windows, userId), now).Admitted? {
      AdmittedTurnSteps(s, message, userId, prefs, now, later, model, t);
      var admitted := s.(windows := AfterConsume(s.windows, userId, now));
      ResponseIsPartitioned(admitted, message, userId, later, model(TurnRequest(s, message, userId, prefs)),
                            Response(t.result, t.stores), other);
    } else {
      RejectedTurn(s, message, userId, prefs, now, later, model, t);
    }
  }

  /** One admitted turn whose reply is empty only consumes the slot. */
  lemma EmptyReplyTurn(s: Stores, message: string, userId: string, now: int, later: int,
                       model: seq<Message> -> ModelReply, t: Turn)
    requires t == ChatTurn(s, message, userId, None, now, later, model)
    requires ConsumeWindow(Get(s.windows, userId), now).Admitted?
    requires forall r :: ReplyText(model(r)).None?
    ensures t.request.Some?
    ensures t.stores == s.(windows := AfterConsume(s.windows, userId, now))
  {
    AdmittedTurnSteps(s, message, userId, None, now, later, model, t);
    UnansweredReply(s.(windows := AfterConsume(s.windows, userId, now)), message, userId, later,
                    model(TurnRequest(s, message, userId, None)), Response(t.result, t.stores));
  }

  /**
   * One answered turn, reporting no tokens, on a history with room for two
   * more messages: the exchange is appended as is and today's token figure
   * stays 0.
   */
  lemma ZeroTokenAnswer(s: Stores, message: string, userId: string, now: int, later: int,
                        model: seq<Message> -> ModelReply, t: Turn)
    requires t == ChatTurn(s, message, userId, None, now, later, model)
    requires ConsumeWindow(Get(s.windows, userId), now).Admitted?
    requires forall r :: ReplyText(model(r)).Some? && ReportedTokens(model(r)) == 0
    requires userId in s.usage ==> s.usage[userId].daily == 0
    requires |HistoryOf(s.conversations, userId)| + 2 <= StoredMessages
    ensures t.stores.windows == AfterConsume(s.windows, userId, now)
    ensures HistoryOf(t.stores.conversations, userId)
            == HistoryOf(s.conversations, userId) + [Message(User, message), Message(Assistant, t.result.text)]
    ensures userId in t.stores.usage && t.stores.usage[userId].daily == 0
  {
    AdmittedTurnSteps(s, message, userId, None, now, later, model, t);
    var admitted := s.(windows := AfterConsume(s.windows, userId, now));
    var reply := model(TurnRequest(s, message, userId, None));
    AnsweredReplySteps(admitted, message, userId, later, reply, Response(t.result, t.stores));
  }

  /**
   * `h` is `messages` in order, each user message followed by a reply: the
   * shape of a history none of whose exchanges was trimmed away.
   */
  predicate Alternates(h: seq<Message>, messages: seq<string>) {
    && |h| == 2 * |messages|
    && forall i :: 0 <= i < |messages| ==> h[2 * i] == Message(User, messages[i]) && h[2 * i + 1].role == Assistant
  }

  /** Appending the exchange for the last of `messages` extends the alternation to all of them. */
  lemma ExchangeAppended(h: seq<Message>, messages: seq<string>, reply: string)
    requires messages != [] && Alternates(h, messages[..|messages| - 1])
    ensures Alternates(h + [Message(User, messages[|messages| - 1]), Message(Assistant, reply)], messages)
  {
    var init := messages[..|messages| - 1];
    var h' := h + [Message(User, messages[|messages| - 1]), Message(Assistant, reply)];
    forall i | 0 <= i < |messages| ensures h'[2 * i] == Message(User, messages[i]) && h'[2 * i + 1].role == Assistant {
      if i < |init| {
        assert h'[2 * i] == h[2 * i] && h'[2 * i + 1] == h[2 * i + 1] && init[i] == messages[i];
      }
    }
  }

  /** Every stored history has at most ten messages. */
  predicate HistoriesBounded(conversations: map<string, seq<Message>>) {
    forall u :: u in conversations ==> |conversations[u]| <= StoredMessages
  }

  lemma StoreKeepsBound(conversations: map<string, seq<Message>>, userId: string, h: seq<Message>)
    requires HistoriesBounded(conversations) && |h| <= StoredMessages
    ensures HistoriesBounded(conversations[userId := h])
  {
  }

  /** No turn lets a stored history grow past ten messages. */
  lemma TurnKeepsHistoriesBounded(s: Stores, message: string, userId: string, prefs: Option<Preferences>,
                                  now: int, later: int, model: seq<Message> -> ModelReply, t: Turn)
    requires t == ChatTurn(s, message, userId, prefs, now, later, model)
    requires HistoriesBounded(s.conversations)
    ensures HistoriesBounded(t.stores.conversations)
  {
    if ConsumeWindow(Get(s.windows, userId), now).Admitted? {
      AdmittedTurnSteps(s, message, userId, prefs, now, later, model, t);
      var admitted := s.(windows := AfterConsume(s.windows, userId, now));
      var reply := model(TurnRequest(s, message, userId, prefs));
      if ReplyText(reply).Some? {
        AnsweredReplySteps(admitted, message, userId, later, reply, Response(t.result, t.stores));
        StoreKeepsBound(s.conversations, userId, Remember(HistoryOf(s.conversations, userId), message, t.result.text));
      } else {
        UnansweredReply(admitted, message, userId, later, reply, Response(t.result, t.stores));
      }
    } else {
      RejectedTurn(s, message, userId, prefs, now, later, model, t);
    }
  }

  /**
   * The stores after one user sends `messages` in order, without preferences,
   * with every clock reading at the one instant `now`.
   */
  function AfterTurns(s: Stores, messages: seq<string>, userId: string, now: int,
                      model: seq<Message> -> ModelReply): Stores
    decreases |messages|
  {
    if messages == [] then s
    else
      var before := AfterTurns(s, messages[..|messages| - 1], userId, now, model);
      ChatTurn(before, messages[|messages| - 1], userId, None, now, now, model).stores
  }

  /**
   * Up to fifty messages by a user with no stored window, at one instant,
   * whose replies are all empty: every one is admitted (the window counts
   * them all), none is stored and no tokens are recorded.
   */
  lemma {:induction false} EmptyRepliesStoreNothing(s: Stores, messages: seq<string>, userId: string, now: int,
                                                    model: seq<Message> -> ModelReply)
    requires userId !in s.windows
    requires |messages| <= Points
    requires forall r :: ReplyText(model(r)).None?
    ensures AfterTurns(s, messages, userId, now, model).conversations == s.conversations
    ensures AfterTurns(s, messages, userId, now, model).usage == s.usage
    ensures Get(AfterTurns(s, messages, userId, now, model).windows, userId)
            == if messages == [] then None else Some(Window(|messages|, now + WindowMs))
    decreases |messages|
  {
    if messages != [] {
      var init := messages[..|messages| - 1];
      EmptyRepliesStoreNothing(s, init, userId, now, model);
      var before := AfterTurns(s, init, userId, now, model);
      var t := ChatTurn(before, messages[|messages| - 1], userId, None, now, now, model);
      SameInstantConsume(before.windows, userId, now, |init|);
      EmptyReplyTurn(before, messages[|messages| - 1], userId, now, now, model, t);
    }
  }

  /**
   * Up to five answered messages by a new user at one instant that report
   * no tokens: all are admitted, the user's history holds every message
   * followed by its reply, in order, and today's token figure stays 0.
   */
  lemma {:induction false} AnsweredTurnsOfNewUser(s: Stores, messages: seq<string>, userId: string, now: int,
                                                  model: seq<Message> -> ModelReply)
    requires userId !in s.windows && userId !in s.conversations && userId !in s.usage
    requires 2 * |messages| <= StoredMessages
    requires forall r :: ReplyText(model(r)).Some? && ReportedTokens(model(r)) == 0
    ensures Get(AfterTurns(s, messages, userId, now, model).windows, userId)
            == if messages == [] then None else Some(Window(|messages|, now + WindowMs))
    ensures Alternates(HistoryOf(AfterTurns(s, messages, userId, now, model).conversations, userId), messages)
    ensures userId in AfterTurns(s, messages, userId, now, model).usage ==>
              AfterTurns(s, messages, userId, now, model).usage[userId].daily == 0
    decreases |messages|
  {
    if messages != [] {
      var init, last := messages[..|messages| - 1], messages[|messages| - 1];
      AnsweredTurnsOfNewUser(s, init, userId, now, model);
      var before := AfterTurns(s, init, userId, now, model);
      var t := ChatTurn(before, last, userId, None, now, now, model);
      SameInstantConsume(before.windows, userId, now, |init|);
      ZeroTokenAnswer(before, last, userId, now, now, model, t);
      ExchangeAppended(HistoryOf(before.conversations, userId), messages, t.result.text);
    }
  }

  // ---------------------------------------------------------------------------
  // The stateful session
  // ---------------------------------------------------------------------------

  /**
   * `conversationCache` together with the admission counter and the token
   * meter it drives.
   */
  class ChatSession {
    var conversations: map<string, seq<Message>>
    const limiter: AdmissionCounter
    const meter: TokenMeter

    ghost predicate Valid()
      reads this, limiter, meter
    {
      && limiter.Valid() && meter.Valid()
    }

    ghost function State(): Stores
      reads this, limiter, meter
    {
      Stores(limiter.windows, meter.usage, conversations)
    }

    constructor (limiter: AdmissionCounter, meter: TokenMeter)
      requires limiter.Valid() && meter.Valid()
      ensures Valid() && this.limiter == limiter && this.meter == meter && conversations == map[]
    {
      this.limiter := limiter;
      this.meter := meter;
      conversations := map[];
    }

    /**
     * `handleUserMessage(message, userId, preferences)`, with `model` as the
     * model call; `consume` reads the clock at `now` and `incrementTokens` at
     * `later`.
     */
    method HandleUserMessage(message: string, userId: string, prefs: Option<Preferences>, now: int, later: int,
                             model: seq<Message> -> ModelReply)
      returns (result: ChatResult)
      requires Valid()
      modifies this, limiter, meter
      ensures Valid()
      ensures var t := ChatTurn(old(State()), message, userId, prefs, now, later, model);
              result == t.result && State() == t.stores
    {
      ghost var before := State();
      ghost var t := ChatTurn(before, message, userId, prefs, now, later, model);
      var admission := limiter.Consume(userId, now);
      if admission.Fail? {
        RejectedTurn(before, message, userId, prefs, now, later, model, t);
        assert conversations == before.conversations && meter.usage == before.usage;
        return Failed(UserFacingError(admission.error.status));
      }
      AdmittedTurnSteps(before, message, userId, prefs, now, later, model, t);
      var history := if userId in conversations then conversations[userId] else [];
      var systemMessage := SystemMessage(prefs);
      var messages := [systemMessage] + TakeLast(history, ContextMessages) + [Message(User, message)];
      assert messages == TurnRequest(before, message, userId, prefs);
      var reply := model(messages);
      ghost var admitted := State();
      assert admitted == before.(windows := AfterConsume(before.windows, userId, now));
      assert history == HistoryOf(admitted.conversations, userId);
      var text := ReplyText(reply);
      if text.None? {
        UnansweredReply(admitted, message, userId, later, reply, Response(t.result, t.stores));
        assert conversations == before.conversations && meter.usage == before.usage;
        return Failed(UserFacingError(ReplyStatus(reply)));
      }
      AnsweredReplySteps(admitted, message, userId, later, reply, Response(t.result, t.stores));
      StoreExchange(userId, history, message, text.value, ReportedTokens(reply), later);
      result := Answered(text.value);
    }

    /**
     * The end of an answered turn: the exchange is appended to the user's
     * history (which keeps its last ten messages) and the tokens are recorded.
     */
    method StoreExchange(userId: string, history: seq<Message>, message: string, reply: string,
                         tokens: nat, now: int)
      requires Valid() && history == HistoryOf(conversations, userId)
      modifies this, meter
      ensures Valid()
      ensures conversations == old(conversations)[userId := Remember(history, message, reply)]
      ensures meter.usage == old(meter.usage)[userId := RecordTokens(Get(old(meter.usage), userId), tokens, now)]
      ensures limiter.windows == old(limiter.windows)
    {
      conversations := conversations[userId := TakeLast(history + [Message(User, message),
                                                                   Message(Assistant, reply)],
                                                         StoredMessages)];
      meter.IncrementTokens(userId, tokens, now);
    }

    /** `generateMenuPlan(preferences, userId)`: the only wrapper that passes the preferences. */
    method GenerateMenuPlan(menuDays: nat, prefs: Preferences, userId: string, now: int, later: int,
                            model: seq<Message> -> ModelReply)
      returns (result: ChatResult)
      requires Valid()
      modifies this, limiter, meter
      ensures Valid()
      ensures var t := ChatTurn(old(State()), MenuPlanRequest(menuDays, prefs), userId, Some(prefs), now, later, model);
              result == t.result && State() == t.stores
    {
      result := HandleUserMessage(MenuPlanRequest(menuDays, prefs), userId, Some(prefs), now, later, model);
    }

    /** `generateShoppingList(menuPlan, userId)`: no preferences. */
    method GenerateShoppingList(menuPlan: string, userId: string, now: int, later: int, model: seq<Message> -> ModelReply)
      returns (result: ChatResult)
      requires Valid()
      modifies this, limiter, meter
      ensures Valid()
      ensures var t := ChatTurn(old(State()), ShoppingListRequest(menuPlan), userId, None, now, later, model);
              result == t.result && State() == t.stores
    {
      result := HandleUserMessage(ShoppingListRequest(menuPlan), userId, None, now, later, model);
    }

    /** `estimateShoppingCost(shoppingList, userId)`: no preferences. */
    method EstimateShoppingCost(shoppingList: string, userId: string, now: int, later: int,
                                model: seq<Message> -> ModelReply)
      returns (result: ChatResult)
      requires Valid()
      modifies this, limiter, meter
      ensures Valid()
      ensures var t := ChatTurn(old(State()), CostRequest(shoppingList), userId, None, now, later, model);
              result == t.result && State() == t.stores
    {
      result := HandleUserMessage(CostRequest(shoppingList), userId, None, now, later, model);
    }
  }

  // The user messages the three wrappers send. Their fixed instruction lines
  // are shortened to their first line; the parts taken from the arguments are
  // as in the source.

  /** The menu request names the number of days first. */
  function MenuPlanRequest(menuDays: nat, p: Preferences): (r: string)
    ensures "Necesito un menú detallado para " + NatToString(menuDays) + " días" <= r
  {
    var head := "Necesito un menú detallado para " + NatToString(menuDays) + " días";
    var rest := " considerando estas preferencias:\n"
                + "      - Somos " + NatToString(p.familySize) + " personas\n      "
                + OptionalLine("- Edades: ", p.ages) + "\n      "
                + OptionalLine("- Restricciones: ", p.dietaryRestrictions) + "\n      "
                + OptionalLine("- Preferencias: ", p.foodPreferences) + "\n      \n      Por favor, incluye:";
    PrefixOfConcat(head, rest);
    head + rest
  }

  /** The shopping-list request carries the menu plan right after its opening line. */
  function ShoppingListRequest(menuPlan: string): (r: string)
    ensures "Necesito una lista de compra detallada y organizada para este menú:\n      \n      " + menuPlan <= r
  {
    var head := "Necesito una lista de compra detallada y organizada para este menú:\n      \n      " + menuPlan;
    PrefixOfConcat(head, "\n      \n      Por favor:");
    head + "\n      \n      Por favor:"
  }

  /** The cost request carries the shopping list right after its opening line. */
  function CostRequest(shoppingList: string): (r: string)
    ensures "¿Podrías darme una estimación detallada del coste de esta lista de compra?\n      \n      " + shoppingList <= r
  {
    var head := "¿Podrías darme una estimación detallada del coste de esta lista de compra?\n      \n      " + shoppingList;
    PrefixOfConcat(head, "\n      \n      Por favor:");
    head + "\n      \n      Por favor:"
  }
}
