/** Role-tagged chat messages, as the chat-completion API receives them. */
module Messages {

  datatype Role = System | User | Assistant

  /** One element of a message's `content` list. */
  datatype ContentPart =
    | TextPart(text: string)       // {"type": "text", "text": ...}
    | ImageUrlPart(url: string)    // {"type": "image_url", "image_url": {"url": ...}}

  /** A message body: either a plain string or a list of typed parts. */
  datatype Content = PlainText(text: string) | Parts(parts: seq<ContentPart>)

  datatype Message = Message(role: Role, content: Content)

  /** A message whose body is a list holding exactly one text part. */
  function TextMessage(role: Role, text: string): (m: Message)
    ensures m.role == role && HasNoImage(m)
    ensures m.content.Parts? && |m.content.parts| == 1 && m.content.parts[0] == TextPart(text)
  {
    Message(role, Parts([TextPart(text)]))
  }

  predicate HasNoImage(m: Message)
  {
    m.content.Parts? ==> forall i :: 0 <= i < |m.content.parts| ==> m.content.parts[i].TextPart?
  }

  /** The invariant every prompt sequence keeps: it opens with an image-free system message. */
  predicate WellFormedPrompt(p: seq<Message>)
  {
    |p| > 0 && p[0].role == System && HasNoImage(p[0])
  }
}
