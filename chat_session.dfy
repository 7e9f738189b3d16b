/**
 * The mounted conversation as one object: the state the `Chat` component
 * and its input form change through `handleSubmit`, `handleUpload`,
 * `handleRemoveFile` and the textarea's `onChange`, each modelled as a
 * sequential, atomic transition. The events the form can deliver, and what
 * any run of them preserves, are stated beside it.
 */
module ChatSession {
  import opened Wrappers
  import opened ChatTypes
  import Chat
  import ChatInputContainer

  // ---------------------------------------------------------------------------
  // Events the form delivers

  datatype Event =
    | Typed(text: string)
    | Submitted
    | Uploaded(files: Option<seq<File>>)
    | Removed(index: nat)

  /**
   * Whether the form offers the control that raises `e`: the textarea
   * (shown without pending files, disabled with `isInputDisabled`), the send
   * button (disabled with `isInputDisabled`), the file input (disabled with
   * `isFileInputDisabled`) and the remove button of a shown preview.
   */
  predicate Available(s: Session, e: Event)
    ensures Available(s, e) && e.Removed? ==> s.fileInput.Some? && e.index < |s.fileInput.value|
    ensures s.state.isInputDisabled ==> !Available(s, e) || e.Uploaded? || e.Removed?
    ensures s.state.isFileInputDisabled ==> !Available(s, e) || !e.Uploaded?
    ensures HasFiles(s.fileInput) ==> !Available(s, e) || !e.Typed?
  {
    match e
    case Typed(_) => !HasFiles(s.fileInput) && !s.state.isInputDisabled
    case Submitted => !s.state.isInputDisabled
    case Uploaded(_) => !s.state.isFileInputDisabled
    case Removed(i) => HasFiles(s.fileInput) && i < |s.fileInput.value|
  }

  /** `Available` is read off the rendered form: the control is there and not disabled. */
  lemma AvailableMatchesForm(s: Session, e: Event, placeholder: string, preview: File -> string)
    ensures var f := ChatInputContainer.Form(s.state, s.fileInput, s.input, placeholder, preview);
      Available(s, e) <==>
        match e
        case Typed(_) => f.area.TextArea? && !f.area.disabled
        case Submitted => !f.sendDisabled
        case Uploaded(_) => !f.fileInputDisabled
        case Removed(i) =>
          f.area.PreviewStrip? && exists k :: 0 <= k < |f.area.previews| && f.area.previews[k].index == i
  {
    var f := ChatInputContainer.Form(s.state, s.fileInput, s.input, placeholder, preview);
    if e.Removed? && Available(s, e) {
      assert f.area.previews[e.index].index == e.index;
    }
  }

  /** The transition an available event makes. */
  function Step(cfg: Chat.SubmitConfig, s: Session, e: Event): (r: Session)
    requires e.Removed? ==> s.fileInput.Some?
    ensures e.Typed? ==> r == s.(input := e.text)
    ensures e.Submitted? ==> r == Chat.AfterSubmit(cfg, s)
    ensures e.Uploaded? ==> r == ChatInputContainer.AfterUpload(cfg.mk, s, e.files)
    ensures e.Removed? ==> r == ChatInputContainer.AfterRemove(s, e.index)
  {
    match e
    case Typed(text) => s.(input := text)
    case Submitted => Chat.AfterSubmit(cfg, s)
    case Uploaded(files) => ChatInputContainer.AfterUpload(cfg.mk, s, files)
    case Removed(i) => ChatInputContainer.AfterRemove(s, i)
  }

  /** A run of events; an event whose control is not offered has no effect. */
  function Run(cfg: Chat.SubmitConfig, s: Session, events: seq<Event>): (r: Session)
    ensures events == [] ==> r == s
    decreases |events|
  {
    if events == [] then s
    else
      var next := if Available(s, events[0]) then Step(cfg, s, events[0]) else s;
      Run(cfg, next, events[1..])
  }

  /** Running two sequences of events one after the other is running their concatenation. */
  lemma {:induction false} RunConcat(cfg: Chat.SubmitConfig, s: Session, a: seq<Event>, b: seq<Event>)
    ensures Run(cfg, s, a + b) == Run(cfg, Run(cfg, s, a), b)
    decreases |a|
  {
    if a == [] {
      assert a + b == b;
    } else {
      var next := if Available(s, a[0]) then Step(cfg, s, a[0]) else s;
      assert (a + b)[0] == a[0];
      assert (a + b)[1..] == a[1..] + b;
      RunConcat(cfg, next, a[1..], b);
    }
  }

  /**
   * One step only appends: to the transcript and to the parser log, at most
   * one parser call per appended message, and the disabled flags stay.
   */
  lemma StepAppendsOnly(cfg: Chat.SubmitConfig, s: Session, e: Event)
    requires Available(s, e)
    ensures var r := Step(cfg, s, e);
      && s.state.messages <= r.state.messages
      && s.parseLog <= r.parseLog
      && |r.parseLog| - |s.parseLog| <= |r.state.messages| - |s.state.messages|
      && r.state.isInputDisabled == s.state.isInputDisabled
      && r.state.isFileInputDisabled == s.state.isFileInputDisabled
  {
  }

  /**
   * Over any run the earlier transcript and parser log are kept as prefixes,
   * the flags do not change, and every parser call comes with an appended
   * message.
   */
  lemma {:induction false} RunAppendsOnly(cfg: Chat.SubmitConfig, s: Session, events: seq<Event>)
    ensures var r := Run(cfg, s, events);
      && s.state.messages <= r.state.messages
      && s.parseLog <= r.parseLog
      && |r.parseLog| - |s.parseLog| <= |r.state.messages| - |s.state.messages|
      && r.state.isInputDisabled == s.state.isInputDisabled
      && r.state.isFileInputDisabled == s.state.isFileInputDisabled
    decreases |events|
  {
    if events != [] {
      var next := if Available(s, events[0]) then Step(cfg, s, events[0]) else s;
      if Available(s, events[0]) {
        StepAppendsOnly(cfg, s, events[0]);
      }
      RunAppendsOnly(cfg, next, events[1..]);
    }
  }

  /** While the input is disabled nothing is typed, submitted or handed to a parser. */
  lemma {:induction false} InputDisabledRunParsesNothing(cfg: Chat.SubmitConfig, s: Session, events: seq<Event>)
    requires s.state.isInputDisabled
    ensures Run(cfg, s, events).parseLog == s.parseLog
    ensures Run(cfg, s, events).input == s.input
    ensures Run(cfg, s, events).scrollRequests == s.scrollRequests
    decreases |events|
  {
    if events != [] {
      var next := if Available(s, events[0]) then Step(cfg, s, events[0]) else s;
      assert next.state.isInputDisabled && next.parseLog == s.parseLog && next.input == s.input;
      InputDisabledRunParsesNothing(cfg, next, events[1..]);
    }
  }

  /** With both flags set the conversation is frozen: only pending files can still be removed. */
  lemma {:induction false} DisabledRunKeepsState(cfg: Chat.SubmitConfig, s: Session, events: seq<Event>)
    requires s.state.isInputDisabled && s.state.isFileInputDisabled
    ensures Run(cfg, s, events).state == s.state
    ensures Run(cfg, s, events).parseLog == s.parseLog
    decreases |events|
  {
    if events != [] {
      var next := if Available(s, events[0]) then Step(cfg, s, events[0]) else s;
      assert next.state == s.state && next.parseLog == s.parseLog;
      DisabledRunKeepsState(cfg, next, events[1..]);
    }
  }

  // ---------------------------------------------------------------------------
  // The conversation object

  class Conversation {
    const config: Chat.SubmitConfig
    var state: ChatState
    var input: string
    var fileInput: Option<seq<File>>
    var parseLog: seq<ParseCall>
    var scrollRequests: nat

    /** The abstract value of the object. */
    function View(): Session
      reads this
    {
      Session(state, input, fileInput, parseLog, scrollRequests)
    }

    /** Mounting: `useState('')` and `useState(null)` over the application's state. */
    constructor (config: Chat.SubmitConfig, initial: ChatState)
      ensures this.config == config
      ensures View() == Session(initial, "", None, [], 0)
    {
      this.config := config;
      state := initial;
      input := "";
      fileInput := None;
      parseLog := [];
      scrollRequests := 0;
    }

    /** The textarea's `onChange`. */
    method ChangeInput(text: string)
      modifies this
      ensures View() == old(View()).(input := text)
    {
      input := text;
    }

    /** `handleValidMessage`: append the user message, request a scroll, clear the pending input. */
    method HandleValidMessage()
      modifies this
      ensures state == old(state).(messages := old(state.messages) + [config.mk(old(input), "user", old(fileInput))])
      ensures scrollRequests == old(scrollRequests) + 1
      ensures input == "" && fileInput == None
      ensures parseLog == old(parseLog)
    {
      state := state.(messages := state.messages + [config.mk(input, "user", fileInput)]);
      scrollRequests := scrollRequests + 1;
      input := "";
      fileInput := None;
    }

    /** `parse(text, files)` when the prop is given, else `messageParser.parse(text, files)`. */
    method CallParser(text: string, files: Option<seq<File>>)
      modifies this
      ensures View() == old(View()).(parseLog := old(parseLog) + [ParseCall(Chat.Target(config), text, files)])
    {
      if config.hasParse {
        parseLog := parseLog + [ParseCall(ParseProp, text, files)];
      } else {
        parseLog := parseLog + [ParseCall(MessageParser, text, files)];
      }
    }

    /** `handleSubmit`; the parser sees the input as it was before it was cleared. */
    method Submit()
      modifies this
      ensures View() == Chat.AfterSubmit(config, old(View()))
    {
      var text, files := input, fileInput;
      if config.validator.Some? {
        if config.validator.value(text) || HasFiles(files) {
          HandleValidMessage();
          CallParser(text, files);
        }
      } else {
        HandleValidMessage();
        CallParser(text, files);
      }
    }

    /** `handleUpload` with the event's file list, `None` when it carries none. */
    method Upload(files: Option<seq<File>>)
      modifies this
      ensures View() == ChatInputContainer.AfterUpload(config.mk, old(View()), files)
    {
      if files.None? {
        return;
      }
      if |files.value| > ChatInputContainer.MaxFiles {
        var notice := config.mk(ChatInputContainer.TooManyFilesNotice, "bot", None);
        state := state.(messages := state.messages + [notice]);
        return;
      }
      if fileInput.Some? {
        fileInput := Some(fileInput.value + files.value);
      } else {
        fileInput := Some(files.value);
      }
    }

    /** `handleRemoveFile(index)`. */
    method RemoveFile(index: nat)
      requires fileInput.Some?
      modifies this
      ensures View() == ChatInputContainer.AfterRemove(old(View()), index)
    {
      var prev := fileInput.value;
      fileInput := Some(ChatInputContainer.Slice(prev, 0, index) + ChatInputContainer.Slice(prev, index + 1, |prev|));
    }

    /** Deliver one event from the form; an event whose control is not offered does nothing. */
    method Dispatch(e: Event)
      modifies this
      ensures Available(old(View()), e) ==> View() == Step(config, old(View()), e)
      ensures !Available(old(View()), e) ==> View() == old(View())
    {
      if !Available(View(), e) {
        return;
      }
      match e
      case Typed(text) => ChangeInput(text);
      case Submitted => Submit();
      case Uploaded(files) => Upload(files);
      case Removed(i) => RemoveFile(i);
    }
  }
}
