/**
 * The conversation store and its send cycle (App.tsx): the four pieces of
 * state the component holds, the pure list transforms it applies to the
 * message list, a specification of the list after a whole send, and the
 * component itself as a class whose methods perform the same steps in the
 * same order as `handleSend` and `clearChat`.
 */
module App {
  import opened Types
  import opened JsStrings
  import opened GeminiService

  /** The welcome message shown when the app starts. */
  const InitialWelcomeText: string :=
    "# خوش آمدید به دستیار هوشمند مدارات الکتریکی! ⚡\nمن آماده\U{200C}ام تا به شما در حل پیچیده\U{200C}ترین مسائل مدارهای الکتریکی (DC، AC، گذرا و فازور) کمک کنم.\n\nشما می\U{200C}توانید:\n- **متن مسئله** را بنویسید.\n- **تصویر مدار** را آپلود کنید.\n\nمنتظر اولین سوال شما هستم."

  /** The (shorter) welcome message that replaces the conversation on clear. */
  const ClearedWelcomeText: string :=
    "# خوش آمدید به دستیار هوشمند مدارات الکتریکی! ⚡\nمن آماده\U{200C}ام تا به شما در حل پیچیده\U{200C}ترین مسائل مدارهای الکتریکی کمک کنم."

  /** The fixed apology appended when the request or the stream fails. */
  const ApologyText: string := "❌ متاسفانه خطایی در ارتباط با سرور رخ داد. لطفا دوباره تلاش کنید."

  const WelcomeId: string := "welcome"
  const ErrorIdPrefix: string := "error-"

  /** The identifiers and clock readings one send consumes, supplied by the caller. */
  datatype SendStamps = SendStamps(
    userId: string, modelId: string, errorStamp: string,
    userTime: Timestamp, modelTime: Timestamp, errorTime: Timestamp)

  /** The send gate: some non-blank text or a staged image. */
  predicate CanSend(input: string, image: Option<InlineData>)
    ensures CanSend(input, image) <==> !IsBlank(input) || image.Some?
  {
    Trim(input) != "" || image.Some?
  }

  /** The parts of the user message: the staged image first, then the untrimmed input. */
  function UserParts(input: string, image: Option<InlineData>): (ps: seq<MessagePart>)
    ensures CanSend(input, image) <==> 1 <= |ps|
    ensures |ps| == (if image.Some? then 1 else 0) + (if Trim(input) != "" then 1 else 0)
    ensures image.Some? ==> ps[0] == ImagePart(image.value)
    ensures image.None? && |ps| > 0 ==> ps[0] == TextPart(input)
    ensures Trim(input) != "" <==> |ps| > 0 && ps[|ps| - 1] == TextPart(input)
    ensures forall j :: 0 <= j < |ps| ==> SingleField(ps[j])
  {
    (if image.Some? then [ImagePart(image.value)] else []) + (if Trim(input) != "" then [TextPart(input)] else [])
  }

  function UserMessage(id: string, input: string, image: Option<InlineData>, now: Timestamp): Message
  {
    Message(id, User, UserParts(input, image), now)
  }

  /** The model message appended before any fragment arrives. */
  function Placeholder(id: string, now: Timestamp): Message
  {
    Message(id, Model, [TextPart("")], now)
  }

  /** The message appended on failure; its id is the stamp behind a fixed prefix. */
  function ErrorMessage(stamp: string, now: Timestamp): (m: Message)
    ensures ErrorIdPrefix <= m.id && m.id[|ErrorIdPrefix|..] == stamp
    ensures m.role == Model && m.parts == [TextPart(ApologyText)] && m.timestamp == now
  {
    Message(ErrorIdPrefix + stamp, Model, [TextPart(ApologyText)], now)
  }

  /** The conversation after a confirmed clear. */
  function ClearedConversation(now: Timestamp): seq<Message>
  {
    [Message(WelcomeId, Model, [TextPart(ClearedWelcomeText)], now)]
  }

  /** Position by position, the two lists hold messages with the same id, role and timestamp. */
  predicate SameIdentities(a: seq<Message>, b: seq<Message>)
  {
    |a| == |b| &&
    forall i :: 0 <= i < |a| ==> a[i].id == b[i].id && a[i].role == b[i].role && a[i].timestamp == b[i].timestamp
  }

  /**
   * The replace-by-id update: every message whose id is `id` gets `parts`,
   * every other message is kept; nothing moves.
   */
  function ReplaceById(s: seq<Message>, id: string, parts: seq<MessagePart>): (r: seq<Message>)
    ensures |r| == |s| && SameIdentities(s, r)
    ensures forall i :: 0 <= i < |s| && s[i].id == id ==> r[i].parts == parts
    ensures forall i :: 0 <= i < |s| && s[i].id != id ==> r[i] == s[i]
    ensures NoMessageHasId(s, id) ==> r == s
  {
    if s == [] then []
    else [if s[0].id == id then s[0].(parts := parts) else s[0]] + ReplaceById(s[1..], id, parts)
  }

  /** A second replacement of the same id supersedes the first. */
  lemma ReplaceByIdOverwrites(s: seq<Message>, id: string, p: seq<MessagePart>, q: seq<MessagePart>)
    ensures ReplaceById(ReplaceById(s, id, p), id, q) == ReplaceById(s, id, q)
  {
    var l, r := ReplaceById(ReplaceById(s, id, p), id, q), ReplaceById(s, id, q);
    forall i | 0 <= i < |s|
      ensures l[i] == r[i]
    {
    }
  }

  /** The list after the fragments `chunks` have been folded into the placeholder `id`. */
  function AfterStream(base: seq<Message>, id: string, chunks: seq<string>): (r: seq<Message>)
    ensures SameIdentities(base, r)
    ensures chunks != [] ==> forall i :: 0 <= i < |base| && base[i].id == id ==> r[i].parts == [TextPart(Concat(chunks))]
    ensures forall i :: 0 <= i < |base| && base[i].id != id ==> r[i] == base[i]
    ensures chunks == [] || NoMessageHasId(base, id) ==> r == base
  {
    if chunks == [] then base else ReplaceById(base, id, [TextPart(Concat(chunks))])
  }

  /** Folding one more fragment is one more replacement, by the accumulated text so far. */
  lemma AfterStreamStep(base: seq<Message>, id: string, chunks: seq<string>, i: nat)
    requires i < |chunks|
    ensures Concat(chunks[..i + 1]) == Concat(chunks[..i]) + chunks[i]
    ensures AfterStream(base, id, chunks[..i + 1])
         == ReplaceById(AfterStream(base, id, chunks[..i]), id, [TextPart(Concat(chunks[..i]) + chunks[i])])
  {
    assert chunks[..i + 1][..i] == chunks[..i];
    if i > 0 {
      ReplaceByIdOverwrites(base, id, [TextPart(Concat(chunks[..i]))], [TextPart(Concat(chunks[..i + 1]))]);
    }
  }

  /**
   * The message list once a send has run to the end: unchanged when the gate
   * is closed; otherwise the user message and the placeholder are appended,
   * the delivered fragments are folded in, and an error message follows if
   * the stream raised.
   */
  function SendOutcome(msgs: seq<Message>, input: string, image: Option<InlineData>,
                       stamps: SendStamps, stream: Stream): (r: seq<Message>)
    ensures !CanSend(input, image) ==> r == msgs
    ensures |r| == |msgs| + (if CanSend(input, image) then 2 + (if Failed(stream) then 1 else 0) else 0)
    ensures CanSend(input, image) && Failed(stream) ==> r[|r| - 1] == ErrorMessage(stamps.errorStamp, stamps.errorTime)
  {
    if !CanSend(input, image) then msgs
    else
      var base := msgs + [UserMessage(stamps.userId, input, image, stamps.userTime),
                          Placeholder(stamps.modelId, stamps.modelTime)];
      var streamed := AfterStream(base, stamps.modelId, Delivered(stream));
      if Failed(stream) then streamed + [ErrorMessage(stamps.errorStamp, stamps.errorTime)] else streamed
  }

  /**
   * With a placeholder id no earlier message uses, after any run of fragments
   * the earlier messages are untouched and the placeholder's single text part
   * is their concatenation.
   */
  lemma AfterStreamFresh(prefix: seq<Message>, id: string, now: Timestamp, chunks: seq<string>)
    requires NoMessageHasId(prefix, id)
    ensures AfterStream(prefix + [Placeholder(id, now)], id, chunks)
         == prefix + [Message(id, Model, [TextPart(Concat(chunks))], now)]
  {
    var base := prefix + [Placeholder(id, now)];
    var expected := prefix + [Message(id, Model, [TextPart(Concat(chunks))], now)];
    if chunks == [] {
      assert Concat(chunks) == "";
    } else {
      var r := ReplaceById(base, id, [TextPart(Concat(chunks))]);
      forall i | 0 <= i < |base|
        ensures r[i] == expected[i]
      {
        if i < |prefix| {
          assert base[i] == prefix[i];
        }
      }
    }
  }

  /**
   * A send with fresh ids: the list grows by the user message, the
   * placeholder holding the concatenation of the delivered fragments, and,
   * when the stream raised, exactly one error message; earlier messages are
   * untouched, and so is the partial placeholder on failure.
   */
  lemma SendOutcomeFresh(msgs: seq<Message>, input: string, image: Option<InlineData>,
                         stamps: SendStamps, stream: Stream)
    requires CanSend(input, image)
    requires NoMessageHasId(msgs, stamps.modelId) && stamps.userId != stamps.modelId
    ensures SendOutcome(msgs, input, image, stamps, stream)
         == msgs + [UserMessage(stamps.userId, input, image, stamps.userTime),
                    Message(stamps.modelId, Model, [TextPart(Concat(Delivered(stream)))], stamps.modelTime)]
                 + (if Failed(stream) then [ErrorMessage(stamps.errorStamp, stamps.errorTime)] else [])
  {
    var prefix := msgs + [UserMessage(stamps.userId, input, image, stamps.userTime)];
    assert msgs + [UserMessage(stamps.userId, input, image, stamps.userTime),
                   Placeholder(stamps.modelId, stamps.modelTime)]
        == prefix + [Placeholder(stamps.modelId, stamps.modelTime)];
    AfterStreamFresh(prefix, stamps.modelId, stamps.modelTime, Delivered(stream));
  }

  /**
   * Whatever the ids, a send only appends: the list does not shrink, and
   * every earlier message keeps its id, role and timestamp.
   */
  lemma SendOnlyAppends(msgs: seq<Message>, input: string, image: Option<InlineData>,
                        stamps: SendStamps, stream: Stream)
    ensures var out := SendOutcome(msgs, input, image, stamps, stream);
      |msgs| <= |out| && SameIdentities(msgs, out[..|msgs|])
  {
    var out := SendOutcome(msgs, input, image, stamps, stream);
    if CanSend(input, image) {
      var base := msgs + [UserMessage(stamps.userId, input, image, stamps.userTime),
                          Placeholder(stamps.modelId, stamps.modelTime)];
      var streamed := AfterStream(base, stamps.modelId, Delivered(stream));
      assert SameIdentities(base, streamed);
      forall i | 0 <= i < |msgs|
        ensures out[i].id == msgs[i].id && out[i].role == msgs[i].role && out[i].timestamp == msgs[i].timestamp
      {
        assert base[i] == msgs[i];
        assert out[i] == streamed[i];
      }
    }
  }

  /** The wire parts of the user message: the staged image, then the input text. */
  function UserWireParts(input: string, image: Option<InlineData>): seq<WirePart>
  {
    (if image.Some? then [WireInline(image.value)] else []) + (if Trim(input) != "" then [WireText(input)] else [])
  }

  /** The user message's parts reach the wire unchanged: the image as inline data, the input as text. */
  lemma UserPartsOnWire(input: string, image: Option<InlineData>)
    ensures ToWireParts(UserParts(input, image)) == UserWireParts(input, image)
  {
    var ps, ws := UserParts(input, image), UserWireParts(input, image);
    if Trim(input) != "" {
      assert input != "";
    }
    assert |ToWireParts(ps)| == |ws|;
    forall j | 0 <= j < |ws|
      ensures ToWireParts(ps)[j] == ws[j]
    {
    }
  }

  /**
   * The request carries the previous conversation followed by one user turn
   * whose parts are the staged image, then the input text.
   */
  lemma UserTurnOnWire(msgs: seq<Message>, id: string, input: string, image: Option<InlineData>, now: Timestamp)
    ensures ToWireContents(msgs + [UserMessage(id, input, image, now)])
         == ToWireContents(msgs) + [WireContent("user", UserWireParts(input, image))]
  {
    var m := UserMessage(id, input, image, now);
    ToWireContentsAppend(msgs, [m]);
    UserPartsOnWire(input, image);
    assert ToWireContents([m])[0] == WireContent("user", UserWireParts(input, image));
  }

  /** A fragment arriving after a clear finds no placeholder and changes nothing. */
  lemma StaleChunkAfterClear(now: Timestamp, modelId: string, parts: seq<MessagePart>)
    requires modelId != WelcomeId
    ensures ReplaceById(ClearedConversation(now), modelId, parts) == ClearedConversation(now)
  {
  }

  /** The component's state: the four state hooks of App.tsx. */
  class ChatApp {
    var messages: seq<Message>
    var input: string
    var isLoading: bool
    var selectedImage: Option<InlineData>

    /** The initial state: the welcome message, nothing typed, nothing staged, idle. */
    constructor (now: Timestamp)
      ensures messages == [Message(WelcomeId, Model, [TextPart(InitialWelcomeText)], now)]
      ensures input == "" && !isLoading && selectedImage == None
    {
      messages := [Message(WelcomeId, Model, [TextPart(InitialWelcomeText)], now)];
      input := "";
      isLoading := false;
      selectedImage := None;
    }

    /** The send button is enabled: not loading, and the gate is open. */
    predicate SendEnabled()
      reads this
      ensures SendEnabled() <==> !isLoading && (!IsBlank(input) || selectedImage.Some?)
    {
      !isLoading && CanSend(input, selectedImage)
    }

    /** The textarea's change handler. */
    method SetInput(text: string)
      modifies this`input
      ensures input == text
    {
      input := text;
    }

    /** The image the file reader delivered becomes the staged image. */
    method StageImage(image: InlineData)
      modifies this`selectedImage
      ensures selectedImage == Some(image)
    {
      selectedImage := Some(image);
    }

    /** The remove button on the image preview. */
    method RemoveImage()
      modifies this`selectedImage
      ensures selectedImage == None
    {
      selectedImage := None;
    }

    /** Builds the user message's parts by pushing the image, then the text. */
    method BuildUserParts() returns (userParts: seq<MessagePart>)
      ensures userParts == UserParts(input, selectedImage)
    {
      userParts := [];
      if selectedImage.Some? {
        userParts := userParts + [ImagePart(selectedImage.value)];
      }
      if Trim(input) != "" {
        userParts := userParts + [TextPart(input)];
      }
    }

    /**
     * The synchronous phase of a send: closed gate, no change at all;
     * otherwise the user message is appended, the input and the staged image
     * are cleared and the app is loading (so the send button is disabled).
     */
    method BeginSend(userId: string, now: Timestamp) returns (sent: bool, newMessages: seq<Message>)
      modifies this
      ensures sent == CanSend(old(input), old(selectedImage))
      ensures !sent ==> (messages == old(messages) && input == old(input)
                         && isLoading == old(isLoading) && selectedImage == old(selectedImage))
      ensures sent ==> newMessages == old(messages) + [UserMessage(userId, old(input), old(selectedImage), now)]
      ensures sent ==> messages == newMessages && input == "" && selectedImage == None && isLoading
      ensures sent ==> !SendEnabled()
    {
      if !CanSend(input, selectedImage) {
        sent, newMessages := false, messages;
        return;
      }
      var userParts := BuildUserParts();
      var userMsg := Message(userId, User, userParts, now);
      newMessages := messages + [userMsg];
      messages := newMessages;
      input := "";
      selectedImage := None;
      isLoading := true;
      sent := true;
    }

    /** Appends the empty model placeholder. */
    method AppendPlaceholder(modelId: string, now: Timestamp)
      modifies this`messages
      ensures messages == old(messages) + [Placeholder(modelId, now)]
    {
      messages := messages + [Placeholder(modelId, now)];
    }

    /** Folds one fragment: extends the accumulator and publishes it to every message with id `modelId`. */
    method FoldChunk(modelId: string, accumulated: string, chunk: string) returns (newAccumulated: string)
      modifies this`messages
      ensures newAccumulated == accumulated + chunk
      ensures messages == ReplaceById(old(messages), modelId, [TextPart(newAccumulated)])
    {
      newAccumulated := accumulated + chunk;
      messages := ReplaceById(messages, modelId, [TextPart(newAccumulated)]);
    }

    /**
     * The for-await loop: folds the fragments in order into the placeholder
     * `modelId` until the stream ends or raises; reports whether it raised.
     */
    method ConsumeStream(modelId: string, stream: Stream) returns (failed: bool)
      modifies this`messages
      ensures failed == Failed(stream)
      ensures messages == AfterStream(old(messages), modelId, Delivered(stream))
    {
      ghost var base := messages;
      var accumulatedText := "";
      var i := 0;
      while i < |stream.chunks| && stream.failAt != Some(i)
        invariant 0 <= i <= |stream.chunks|
        invariant stream.failAt.Some? && stream.failAt.value < |stream.chunks| ==> i <= stream.failAt.value
        invariant accumulatedText == Concat(stream.chunks[..i])
        invariant messages == AfterStream(base, modelId, stream.chunks[..i])
      {
        AfterStreamStep(base, modelId, stream.chunks, i);
        accumulatedText := FoldChunk(modelId, accumulatedText, stream.chunks[i]);
        i := i + 1;
      }
      assert stream.chunks[..i] == Delivered(stream);
      failed := stream.failAt.Some?;
    }

    /** The catch branch: appends one error message, leaving every earlier message as it is. */
    method AppendError(errorStamp: string, now: Timestamp)
      modifies this`messages
      ensures messages == old(messages) + [ErrorMessage(errorStamp, now)]
    {
      messages := messages + [ErrorMessage(errorStamp, now)];
    }

    /** The finally branch. */
    method FinishLoading()
      modifies this`isLoading
      ensures !isLoading
    {
      isLoading := false;
    }

    /**
     * A whole send, run to the end: returns the request's `contents` when
     * the gate was open, and leaves the message list as `SendOutcome` says.
     */
    method HandleSend(stamps: SendStamps, stream: Stream) returns (request: Option<seq<WireContent>>)
      modifies this
      ensures request.Some? == CanSend(old(input), old(selectedImage))
      ensures messages == SendOutcome(old(messages), old(input), old(selectedImage), stamps, stream)
      ensures request.None? ==> (input == old(input) && isLoading == old(isLoading)
                                 && selectedImage == old(selectedImage))
      ensures request.Some? ==> input == "" && selectedImage == None && !isLoading
      ensures request.Some? ==> request.value == ToWireContents(
                old(messages) + [UserMessage(stamps.userId, old(input), old(selectedImage), stamps.userTime)])
    {
      ghost var userMsg := UserMessage(stamps.userId, input, selectedImage, stamps.userTime);
      ghost var base := messages + [userMsg, Placeholder(stamps.modelId, stamps.modelTime)];
      var sent, newMessages := BeginSend(stamps.userId, stamps.userTime);
      if !sent {
        return None;
      }
      request := Some(ToWireContents(newMessages));
      AppendPlaceholder(stamps.modelId, stamps.modelTime);
      assert messages == base;
      var failed := ConsumeStream(stamps.modelId, stream);
      assert messages == AfterStream(base, stamps.modelId, Delivered(stream));
      if failed {
        AppendError(stamps.errorStamp, stamps.errorTime);
      }
      FinishLoading();
    }

    /** Clear chat: on confirmation the conversation becomes the single welcome message. */
    method ClearChat(confirmed: bool, now: Timestamp)
      modifies this`messages
      ensures messages == if confirmed then ClearedConversation(now) else old(messages)
    {
      if confirmed {
        messages := ClearedConversation(now);
      }
    }
  }
}
