/**
 * The user bubble: a custom `userChatMessage` component if the application
 * supplies one, else a grid of attachment images, else the text; beside it
 * the custom `userAvatar` or the default user icon.
 */
module UserChatMessage {
  import opened Wrappers
  import opened ChatTypes

  /**
   * The two custom components the bubble consults. `userChatMessage` is
   * called with `{message}` only, so it is a function of the text;
   * `userAvatar` is called with no argument, so it is its element.
   */
  datatype Components = Components(
    userChatMessage: Option<string -> Element>,
    userAvatar: Option<Element>)

  /** One `<img>` of the attachment grid: its key index, preview source and alt text. */
  datatype Image = Image(key: nat, src: string, alt: string)

  datatype Body =
    | CustomBody(element: Element)
    | AttachmentGrid(images: seq<Image>)
    | TextBubble(text: string)

  datatype Avatar = CustomAvatar(element: Element) | DefaultUserIcon

  datatype View = View(body: Body, avatar: Avatar)

  /**
   * `attachments.map(...)` from position `from` on; `preview` stands for
   * `URL.createObjectURL`, an opaque value per file.
   */
  function Images(attachments: seq<File>, preview: File -> string, from: nat): (r: seq<Image>)
    requires from <= |attachments|
    ensures |r| == |attachments| - from
    ensures forall k :: 0 <= k < |r| ==>
      r[k] == Image(from + k, preview(attachments[from + k]), attachments[from + k].name)
    decreases |attachments| - from
  {
    if from == |attachments| then []
    else
      [Image(from, preview(attachments[from]), attachments[from].name)]
        + Images(attachments, preview, from + 1)
  }

  /** The grid holds exactly one image per attachment, in attachment order. */
  predicate GridOf(images: seq<Image>, attachments: seq<File>, preview: File -> string) {
    && |images| == |attachments|
    && forall k :: 0 <= k < |images| ==>
         images[k] == Image(k, preview(attachments[k]), attachments[k].name)
  }

  /** `RenderedMessage`: custom component, else attachment grid, else text. */
  function RenderedMessage(message: string, attachments: Option<seq<File>>, components: Components,
                           preview: File -> string): (r: Body)
    ensures components.userChatMessage.Some? ==>
      r == CustomBody(components.userChatMessage.value(message))
    ensures components.userChatMessage.None? && HasFiles(attachments) ==>
      r.AttachmentGrid? && GridOf(r.images, attachments.value, preview)
    ensures components.userChatMessage.None? && !HasFiles(attachments) ==>
      r == TextBubble(message)
  {
    if components.userChatMessage.Some? then
      CustomBody(components.userChatMessage.value(message))
    else if HasFiles(attachments) then
      AttachmentGrid(Images(attachments.value, preview, 0))
    else
      TextBubble(message)
  }

  /** The avatar beside the bubble. */
  function UserAvatar(components: Components): (r: Avatar)
    ensures r.CustomAvatar? <==> components.userAvatar.Some?
    ensures r.CustomAvatar? ==> r.element == components.userAvatar.value
  {
    match components.userAvatar
    case Some(e) => CustomAvatar(e)
    case None => DefaultUserIcon
  }

  function Render(message: string, attachments: Option<seq<File>>, components: Components,
                  preview: File -> string): (r: View)
    ensures r.body == RenderedMessage(message, attachments, components, preview)
    ensures r.avatar == UserAvatar(components)
  {
    View(RenderedMessage(message, attachments, components, preview), UserAvatar(components))
  }

  /** With a custom component the attachments have no influence on the bubble. */
  lemma CustomIgnoresAttachments(message: string, a: Option<seq<File>>, b: Option<seq<File>>,
                                 components: Components, preview: File -> string)
    requires components.userChatMessage.Some?
    ensures RenderedMessage(message, a, components, preview)
         == RenderedMessage(message, b, components, preview)
  {
  }

  /** The text appears in the bubble exactly when neither a custom component nor an attachment takes its place. */
  lemma TextShownIff(message: string, attachments: Option<seq<File>>, components: Components,
                     preview: File -> string)
    ensures RenderedMessage(message, attachments, components, preview) == TextBubble(message)
        <==> components.userChatMessage.None? && !HasFiles(attachments)
  {
  }
}
