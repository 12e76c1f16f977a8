/** The conversation's data model: roles, content parts and messages (types.ts). */
module Types {

  /** An optional field of a record: absent (`None`) or present. */
  datatype Option<+T> = None | Some(value: T)

  /** Who wrote a message. */
  datatype Role = User | Model

  /** An inline image: its MIME type and its base64 payload. */
  datatype InlineData = InlineData(mimeType: string, data: string)

  /** One content part; both fields are optional, independently of each other. */
  datatype MessagePart = MessagePart(text: Option<string>, inlineData: Option<InlineData>)

  /** A creation time; the model treats it as an opaque value supplied by the caller. */
  type Timestamp = nat

  datatype Message = Message(id: string, role: Role, parts: seq<MessagePart>, timestamp: Timestamp)

  /** A part holding only a text fragment. */
  function TextPart(t: string): MessagePart
  {
    MessagePart(Some(t), None)
  }

  /** A part holding only an inline image. */
  function ImagePart(d: InlineData): MessagePart
  {
    MessagePart(None, Some(d))
  }

  /** The part carries exactly one of its two fields (the shape of every part the app builds). */
  predicate SingleField(p: MessagePart)
  {
    p.text.Some? != p.inlineData.Some?
  }

  /** No message of `s` has identifier `id`. */
  predicate NoMessageHasId(s: seq<Message>, id: string)
  {
    forall i :: 0 <= i < |s| ==> s[i].id != id
  }
}
