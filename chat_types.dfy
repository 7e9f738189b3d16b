/** Option, used for every value the source leaves `undefined` or `null`. */
module Wrappers {
  datatype Option<+T> = None | Some(value: T)
}

/**
 * Entities shared by the chat components: messages, the conversation state
 * the embedding application owns, the pending input the `Chat` component
 * owns, and the log of calls handed to the application's message parser.
 */
module ChatTypes {
  import opened Wrappers

  /** A file picked through the browser's file input. */
  datatype File = File(name: string, data: seq<bv8>)

  /**
   * An element produced by application code (a widget, a custom message
   * renderer, a custom component). The core never looks inside it.
   */
  datatype Element = Element(handle: nat)

  /**
   * A transcript entry. `kind` is the message's `type` field ("bot", "user"
   * or an application tag); an absent `loading` is `false`; `withAvatar`
   * is absent, or an explicit boolean.
   */
  datatype Message = Message(
    id: nat,
    kind: string,
    text: string,
    attachments: Option<seq<File>>,
    widget: Option<string>,
    payload: Option<string>,
    loading: bool,
    withAvatar: Option<bool>)

  /** The application's chatbot state as the chat components read it. */
  datatype ChatState = ChatState(
    messages: seq<Message>,
    isInputDisabled: bool,
    isFileInputDisabled: bool)

  /** `createChatMessage(text, type, files)`; its body is not part of this model. */
  type MessageFactory = (string, string, Option<seq<File>>) -> Message

  /** Which parser an accepted submission was handed to. */
  datatype ParseTarget = ParseProp | MessageParser

  /** One recorded call `parse(text, files)`. */
  datatype ParseCall = ParseCall(target: ParseTarget, text: string, files: Option<seq<File>>)

  /**
   * Everything the input handlers read or write: the application state, the
   * pending text and files, the parser calls made so far and the number of
   * deferred scrolls requested by submissions.
   */
  datatype Session = Session(
    state: ChatState,
    input: string,
    fileInput: Option<seq<File>>,
    parseLog: seq<ParseCall>,
    scrollRequests: nat)

  /** JavaScript truthiness of an optional string: present and not empty. */
  predicate Truthy(s: Option<string>) {
    s.Some? && s.value != ""
  }

  /** `files && files.length > 0` */
  predicate HasFiles(files: Option<seq<File>>) {
    files.Some? && |files.value| > 0
  }

  /** Message ids are pairwise distinct. */
  ghost predicate UniqueIds(messages: seq<Message>) {
    forall i, j :: 0 <= i < j < |messages| ==> messages[i].id != messages[j].id
  }
}
