/**
 * The `Chat` component: the transcript render dispatch (classification,
 * the avatar rule, widget attachment), the header and placeholder defaults,
 * and the submission rule of `handleSubmit` / `handleValidMessage`.
 */
module Chat {
  import opened Wrappers
  import opened ChatTypes
  import UserChatMessage

  // ---------------------------------------------------------------------------
  // Collaborators the render reads

  /** What a widget (and a custom renderer) is handed: the state and the message's payload. */
  datatype WidgetContext = WidgetContext(state: ChatState, payload: Option<string>)

  /** One call `widgetRegistry.getWidget(name, context)`. */
  datatype Lookup = Lookup(name: Option<string>, context: WidgetContext)

  /**
   * The predicates `botMessage`, `userMessage` and `customMessage(_, customMessages)`
   * of chatUtils, the custom renderer `customMessages[type](props)`,
   * `widgetRegistry.getWidget`, the application's custom components and
   * `URL.createObjectURL`, all opaque to the core.
   */
  datatype RenderEnv = RenderEnv(
    isBot: Message -> bool,
    isUser: Message -> bool,
    isCustom: Message -> bool,
    customRenderer: (string, WidgetContext) -> Element,
    getWidget: (Option<string>, WidgetContext) -> Option<Element>,
    components: UserChatMessage.Components,
    preview: File -> string)

  // ---------------------------------------------------------------------------
  // Render nodes

  datatype Node =
    | BotBubble(message: Message, withAvatar: bool)
    | UserBubble(view: UserChatMessage.View)
    | CustomBubble(element: Element)
    | WidgetNode(element: Element)

  /**
   * The fragment rendered for one message: its key, the nodes in it, and the
   * widget-registry calls made while building it.
   */
  datatype Slot = Slot(key: nat, nodes: seq<Node>, lookups: seq<Lookup>)

  datatype MessageKind = Bot | User | Custom | Unrenderable

  // ---------------------------------------------------------------------------
  // Classification and the avatar rule

  /** The order of the tests in `renderMessages`: bot, then user, then custom. */
  function Classify(env: RenderEnv, m: Message): (k: MessageKind)
    ensures k == Bot <==> env.isBot(m)
    ensures k == User <==> !env.isBot(m) && env.isUser(m)
    ensures k == Custom <==> !env.isBot(m) && !env.isUser(m) && env.isCustom(m)
    ensures k == Unrenderable <==> !env.isBot(m) && !env.isUser(m) && !env.isCustom(m)
  {
    if env.isBot(m) then Bot
    else if env.isUser(m) then User
    else if env.isCustom(m) then Custom
    else Unrenderable
  }

  /**
   * `showAvatar`: the first message shows an avatar; a later one hides it
   * exactly when the message before it has type "bot" and no widget.
   */
  function ShowAvatar(messages: seq<Message>, index: nat): (r: bool)
    requires index < |messages|
    ensures index == 0 ==> r
    ensures index > 0 ==>
      (!r <==> messages[index - 1].kind == "bot" && !Truthy(messages[index - 1].widget))
  {
    if index == 0 then true
    else
      var last := messages[index - 1];
      !(last.kind == "bot" && !Truthy(last.widget))
  }

  /**
   * The local `withAvatar` of `renderChatbotMessage`: a truthy `withAvatar`
   * is used as it is; a false or absent one falls back to `showAvatar`.
   * The bubble does not always receive this value: see `BubbleAvatar`.
   */
  function BotAvatar(messages: seq<Message>, index: nat): (r: bool)
    requires index < |messages|
    ensures messages[index].withAvatar == Some(true) ==> r
    ensures messages[index].withAvatar != Some(true) ==> r == ShowAvatar(messages, index)
  {
    if messages[index].withAvatar == Some(true) then true else ShowAvatar(messages, index)
  }

  /**
   * The `withAvatar` prop the bot bubble receives. The element writes
   * `withAvatar={withAvatar}` before spreading the message's own fields, so a
   * message that carries `withAvatar` overrides the local value with its own,
   * `false` included; only a message without the field gets `BotAvatar`.
   */
  function BubbleAvatar(messages: seq<Message>, index: nat): (r: bool)
    requires index < |messages|
    ensures messages[index].withAvatar.Some? ==> r == messages[index].withAvatar.value
    ensures messages[index].withAvatar.None? ==> r == BotAvatar(messages, index) == ShowAvatar(messages, index)
  {
    match messages[index].withAvatar
    case Some(v) => v
    case None => BotAvatar(messages, index)
  }

  /**
   * The local value and the prop differ exactly for an explicit `false`
   * where the rule would show the avatar: the message's `false` wins.
   */
  lemma ExplicitFalseOverridesRule(messages: seq<Message>, index: nat)
    requires index < |messages| && messages[index].withAvatar == Some(false)
    ensures !BubbleAvatar(messages, index)
    ensures BotAvatar(messages, index) == ShowAvatar(messages, index)
    ensures BubbleAvatar(messages, index) != BotAvatar(messages, index) <==> ShowAvatar(messages, index)
  {
  }

  /**
   * A user message followed by a bot message with `withAvatar: false`: the
   * rule would show the avatar, yet the bubble receives `false`.
   */
  lemma ExplicitFalseAfterUserMessage(env: RenderEnv, state: ChatState)
    requires |state.messages| == 2
    requires state.messages[0].kind == "user" && state.messages[1].withAvatar == Some(false)
    ensures ShowAvatar(state.messages, 1)
    ensures RenderChatbotMessage(env, state, 1).nodes[0] == BotBubble(state.messages[1], false)
  {
  }

  // ---------------------------------------------------------------------------
  // The three renderers

  /** `renderChatbotMessage`: the bubble, then the widget once `loading` is false. */
  function RenderChatbotMessage(env: RenderEnv, state: ChatState, index: nat): (r: Slot)
    requires index < |state.messages|
    ensures var m := state.messages[index];
      && r.key == m.id
      && 1 <= |r.nodes| <= 2
      && r.nodes[0] == BotBubble(m, BubbleAvatar(state.messages, index))
      && r.lookups == (if Truthy(m.widget) then [Lookup(m.widget, WidgetContext(state, m.payload))] else [])
      && (|r.nodes| == 2 <==>
            Truthy(m.widget) && !m.loading && env.getWidget(m.widget, WidgetContext(state, m.payload)).Some?)
      && (|r.nodes| == 2 ==>
            r.nodes[1] == WidgetNode(env.getWidget(m.widget, WidgetContext(state, m.payload)).value))
  {
    var m := state.messages[index];
    var bubble := BotBubble(m, BubbleAvatar(state.messages, index));
    if Truthy(m.widget) then
      var context := WidgetContext(state, m.payload);
      var widget := env.getWidget(m.widget, context);
      var shown := if !m.loading && widget.Some? then [WidgetNode(widget.value)] else [];
      Slot(m.id, [bubble] + shown, [Lookup(m.widget, context)])
    else
      Slot(m.id, [bubble], [])
  }

  /** `renderUserMessage`: the user bubble, then whatever the registry returns; the registry is always asked. */
  function RenderUserMessage(env: RenderEnv, state: ChatState, index: nat): (r: Slot)
    requires index < |state.messages|
    ensures var m := state.messages[index];
      var widget := env.getWidget(m.widget, WidgetContext(state, m.payload));
      && r.key == m.id
      && r.lookups == [Lookup(m.widget, WidgetContext(state, m.payload))]
      && r.nodes == [UserBubble(UserChatMessage.Render(m.text, m.attachments, env.components, env.preview))]
                    + (if widget.Some? then [WidgetNode(widget.value)] else [])
  {
    var m := state.messages[index];
    var context := WidgetContext(state, m.payload);
    var widget := env.getWidget(m.widget, context);
    var bubble := UserBubble(UserChatMessage.Render(m.text, m.attachments, env.components, env.preview));
    Slot(m.id, [bubble] + (if widget.Some? then [WidgetNode(widget.value)] else []), [Lookup(m.widget, context)])
  }

  /** `renderCustomMessage`: the tag's renderer, then a widget, only when one is named. */
  function RenderCustomMessage(env: RenderEnv, state: ChatState, index: nat): (r: Slot)
    requires index < |state.messages|
    ensures var m := state.messages[index];
      var context := WidgetContext(state, m.payload);
      && r.key == m.id
      && 1 <= |r.nodes| <= 2
      && r.nodes[0] == CustomBubble(env.customRenderer(m.kind, context))
      && r.lookups == (if Truthy(m.widget) then [Lookup(m.widget, context)] else [])
      && (|r.nodes| == 2 <==> Truthy(m.widget) && env.getWidget(m.widget, context).Some?)
      && (|r.nodes| == 2 ==> r.nodes[1] == WidgetNode(env.getWidget(m.widget, context).value))
  {
    var m := state.messages[index];
    var context := WidgetContext(state, m.payload);
    var body := CustomBubble(env.customRenderer(m.kind, context));
    if Truthy(m.widget) then
      var widget := env.getWidget(m.widget, context);
      Slot(m.id, [body] + (if widget.Some? then [WidgetNode(widget.value)] else []), [Lookup(m.widget, context)])
    else
      Slot(m.id, [body], [])
  }

  /** The callback of `renderMessages` for one message; `None` is the `undefined` of an unmatched one. */
  function RenderMessage(env: RenderEnv, state: ChatState, index: nat): (r: Option<Slot>)
    requires index < |state.messages|
    ensures r.None? <==> Classify(env, state.messages[index]) == Unrenderable
    ensures r.Some? ==> r.value.key == state.messages[index].id
    ensures Classify(env, state.messages[index]) == Bot ==> r == Some(RenderChatbotMessage(env, state, index))
    ensures Classify(env, state.messages[index]) == User ==> r == Some(RenderUserMessage(env, state, index))
    ensures Classify(env, state.messages[index]) == Custom ==> r == Some(RenderCustomMessage(env, state, index))
  {
    match Classify(env, state.messages[index])
    case Bot => Some(RenderChatbotMessage(env, state, index))
    case User => Some(RenderUserMessage(env, state, index))
    case Custom => Some(RenderCustomMessage(env, state, index))
    case Unrenderable => None
  }

  /** `messages.map(...)` from position `from` on. */
  function RenderFrom(env: RenderEnv, state: ChatState, from: nat): (r: seq<Option<Slot>>)
    requires from <= |state.messages|
    ensures |r| == |state.messages| - from
    ensures forall k :: 0 <= k < |r| ==> r[k] == RenderMessage(env, state, from + k)
    decreases |state.messages| - from
  {
    if from == |state.messages| then []
    else [RenderMessage(env, state, from)] + RenderFrom(env, state, from + 1)
  }

  /** `renderMessages`: one slot per message, in message order. */
  function RenderMessages(env: RenderEnv, state: ChatState): (r: seq<Option<Slot>>)
    ensures |r| == |state.messages|
    ensures forall k :: 0 <= k < |r| ==> r[k] == RenderMessage(env, state, k)
  {
    RenderFrom(env, state, 0)
  }

  /** With distinct message ids, the rendered fragments carry distinct keys. */
  lemma RenderedKeysUnique(env: RenderEnv, state: ChatState)
    requires UniqueIds(state.messages)
    ensures var r := RenderMessages(env, state);
      forall i, j :: 0 <= i < j < |r| && r[i].Some? && r[j].Some? ==> r[i].value.key != r[j].value.key
  {
  }

  /** A bot message without a widget never asks the registry, so the registry has no influence on it. */
  lemma BotWithoutWidgetIgnoresRegistry(env: RenderEnv, state: ChatState, index: nat,
                                        other: (Option<string>, WidgetContext) -> Option<Element>)
    requires index < |state.messages| && !Truthy(state.messages[index].widget)
    ensures RenderChatbotMessage(env, state, index).lookups == []
    ensures RenderChatbotMessage(env, state, index) == RenderChatbotMessage(env.(getWidget := other), state, index)
  {
  }

  /** A loading bot message shows no widget, whatever the registry returns. */
  lemma LoadingBotShowsNoWidget(env: RenderEnv, state: ChatState, index: nat)
    requires index < |state.messages| && state.messages[index].loading
    ensures forall k :: 0 <= k < |RenderChatbotMessage(env, state, index).nodes| ==>
      !RenderChatbotMessage(env, state, index).nodes[k].WidgetNode?
  {
  }

  /** The registry calls of a whole render: one per user message, one per bot or custom message with a widget. */
  function LookupsOf(slots: seq<Option<Slot>>): (r: seq<Lookup>)
  {
    if slots == [] then []
    else (if slots[0].Some? then slots[0].value.lookups else []) + LookupsOf(slots[1..])
  }

  /** A transcript made only of bot and custom messages without widgets never asks the registry. */
  lemma {:induction false} NoWidgetsNoLookups(env: RenderEnv, state: ChatState, from: nat)
    requires from <= |state.messages|
    requires forall k :: from <= k < |state.messages| ==>
      !Truthy(state.messages[k].widget) && Classify(env, state.messages[k]) != User
    ensures LookupsOf(RenderFrom(env, state, from)) == []
    decreases |state.messages| - from
  {
    if from < |state.messages| {
      var r := RenderFrom(env, state, from);
      assert r[1..] == RenderFrom(env, state, from + 1);
      NoWidgetsNoLookups(env, state, from + 1);
    }
  }

  // ---------------------------------------------------------------------------
  // Header and placeholder

  const HeaderPrefix: string := "Conversation with "
  const DefaultPlaceholder: string := "Write your message here"

  /** The default header text, used unless `headerText` is truthy. */
  function HeaderText(headerText: Option<string>, botName: string): (r: string)
    ensures Truthy(headerText) ==> r == headerText.value
    ensures !Truthy(headerText) ==>
      |r| == |HeaderPrefix| + |botName| && r[..|HeaderPrefix|] == HeaderPrefix && r[|HeaderPrefix|..] == botName
    ensures r != ""
  {
    if Truthy(headerText) then headerText.value else HeaderPrefix + botName
  }

  datatype HeaderView = CustomHeader(element: Element) | DefaultHeader(text: string)

  /** A custom `header` component (called with the action provider) replaces the default header. */
  function Header(customHeader: Option<Element>, headerText: Option<string>, botName: string): (r: HeaderView)
    ensures customHeader.Some? ==> r == CustomHeader(customHeader.value)
    ensures customHeader.None? ==> r == DefaultHeader(HeaderText(headerText, botName))
  {
    match customHeader
    case Some(e) => CustomHeader(e)
    case None => DefaultHeader(HeaderText(headerText, botName))
  }

  /** The textarea placeholder: `placeholderText` if truthy, else the default prompt. */
  function Placeholder(placeholderText: Option<string>): (r: string)
    ensures Truthy(placeholderText) ==> r == placeholderText.value
    ensures !Truthy(placeholderText) ==> r == DefaultPlaceholder
    ensures r != ""
  {
    if Truthy(placeholderText) then placeholderText.value else DefaultPlaceholder
  }

  // ---------------------------------------------------------------------------
  // Submission

  /**
   * The props `handleSubmit` reads: the optional validator, whether a `parse`
   * prop is given (it is preferred over `messageParser.parse`), and
   * `createChatMessage`.
   */
  datatype SubmitConfig = SubmitConfig(
    validator: Option<string -> bool>,
    hasParse: bool,
    mk: MessageFactory)

  /** Whether `handleSubmit` goes on to `handleValidMessage`. */
  predicate Accepts(validator: Option<string -> bool>, input: string, fileInput: Option<seq<File>>)
    ensures validator.None? ==> Accepts(validator, input, fileInput)
    ensures HasFiles(fileInput) ==> Accepts(validator, input, fileInput)
    ensures validator.Some? && !validator.value(input) && !HasFiles(fileInput) ==> !Accepts(validator, input, fileInput)
  {
    validator.None? || validator.value(input) || HasFiles(fileInput)
  }

  /** The `parse` prop is preferred over `messageParser.parse`. */
  function Target(cfg: SubmitConfig): (r: ParseTarget)
    ensures r == ParseProp <==> cfg.hasParse
    ensures r == MessageParser <==> !cfg.hasParse
  {
    if cfg.hasParse then ParseProp else MessageParser
  }

  /**
   * `handleSubmit`: on acceptance, one user message built from the pending
   * input is appended, the input is cleared, a scroll is requested and one
   * parser call with the pre-submit input is recorded; otherwise nothing
   * changes.
   */
  function AfterSubmit(cfg: SubmitConfig, s: Session): (r: Session)
    ensures !Accepts(cfg.validator, s.input, s.fileInput) ==> r == s
    ensures Accepts(cfg.validator, s.input, s.fileInput) ==>
      && r.state.messages == s.state.messages + [cfg.mk(s.input, "user", s.fileInput)]
      && r.state.isInputDisabled == s.state.isInputDisabled
      && r.state.isFileInputDisabled == s.state.isFileInputDisabled
      && r.input == ""
      && r.fileInput == None
      && r.parseLog == s.parseLog + [ParseCall(Target(cfg), s.input, s.fileInput)]
      && r.scrollRequests == s.scrollRequests + 1
  {
    if Accepts(cfg.validator, s.input, s.fileInput) then
      Session(
        s.state.(messages := s.state.messages + [cfg.mk(s.input, "user", s.fileInput)]),
        "",
        None,
        s.parseLog + [ParseCall(Target(cfg), s.input, s.fileInput)],
        s.scrollRequests + 1)
    else
      s
  }

  /** A submission changes the transcript exactly when it is accepted, and then by one message. */
  lemma SubmitChangesIffAccepted(cfg: SubmitConfig, s: Session)
    ensures |AfterSubmit(cfg, s).state.messages| == |s.state.messages| + 1
        <==> Accepts(cfg.validator, s.input, s.fileInput)
    ensures |AfterSubmit(cfg, s).parseLog| == |s.parseLog| + 1
        <==> Accepts(cfg.validator, s.input, s.fileInput)
  {
  }

  /** Attached files bypass the validator: the submission is appended and parsed even if the text is rejected. */
  lemma FilesBypassValidator(cfg: SubmitConfig, s: Session)
    requires HasFiles(s.fileInput)
    ensures AfterSubmit(cfg, s).state.messages == s.state.messages + [cfg.mk(s.input, "user", s.fileInput)]
    ensures AfterSubmit(cfg, s).parseLog[|s.parseLog|].files == s.fileInput
  {
  }

  /** Without a validator an empty text with no files is still submitted. */
  lemma EmptySubmissionWithoutValidator(cfg: SubmitConfig, s: Session)
    requires cfg.validator.None? && s.input == "" && s.fileInput.None?
    ensures AfterSubmit(cfg, s).state.messages == s.state.messages + [cfg.mk("", "user", None)]
    ensures AfterSubmit(cfg, s).parseLog == s.parseLog + [ParseCall(Target(cfg), "", None)]
  {
  }

  /**
   * After an accepted submission, the earlier slots of the transcript are
   * rendered from the same messages and the new last slot is the new
   * message's; a user-classified message gets the user bubble.
   */
  lemma SubmittedMessageRenderedLast(cfg: SubmitConfig, env: RenderEnv, s: Session)
    requires Accepts(cfg.validator, s.input, s.fileInput)
    ensures var r := AfterSubmit(cfg, s);
      var slots := RenderMessages(env, r.state);
      var m := cfg.mk(s.input, "user", s.fileInput);
      && |slots| == |s.state.messages| + 1
      && (forall k :: 0 <= k < |s.state.messages| ==> r.state.messages[k] == s.state.messages[k])
      && slots[|s.state.messages|] == RenderMessage(env, r.state, |s.state.messages|)
      && (Classify(env, m) == User ==>
            slots[|s.state.messages|].Some? &&
            slots[|s.state.messages|].value.nodes[0]
              == UserBubble(UserChatMessage.Render(m.text, m.attachments, env.components, env.preview)))
  {
  }
}
