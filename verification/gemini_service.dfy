/**
 * The service boundary (services/geminiService.ts): the conversion of the
 * conversation into the request's role/parts records, and the strings the
 * stream generator yields. The client, the request configuration and the
 * network call itself are outside the model; a response arrives here as a
 * finite sequence of chunks.
 */
module GeminiService {
  import opened Types
  import opened JsStrings

  /** A request part: exactly one of a text field or an inline-data field. */
  datatype WirePart = WireText(text: string) | WireInline(inlineData: InlineData)

  /** One request turn: the role string and its parts. */
  datatype WireContent = WireContent(role: string, parts: seq<WirePart>)

  /** JavaScript truthiness of an optional string: present and non-empty. */
  predicate Truthy(t: Option<string>)
  {
    t.Some? && t.value != ""
  }

  /** The role string sent upstream. */
  function WireRole(r: Role): (s: string)
    ensures s == "user" <==> r == User
    ensures s == "user" || s == "model"
  {
    if r == User then "user" else "model"
  }

  /** Reads a role string back; inverse of `WireRole` on the two strings it produces. */
  function RoleFromWire(s: string): (r: Role)
    ensures s == "user" || s == "model" ==> WireRole(r) == s
  {
    if s == "user" then User else Model
  }

  /** One part on the wire: a truthy text first, then inline data, else an empty text. */
  function ToWirePart(p: MessagePart): WirePart
  {
    if Truthy(p.text) then WireText(p.text.value)
    else if p.inlineData.Some? then WireInline(p.inlineData.value)
    else WireText("")
  }

  /** The parts of one message on the wire, element by element and in order. */
  function ToWireParts(ps: seq<MessagePart>): (ws: seq<WirePart>)
    ensures |ws| == |ps|
    ensures forall j :: 0 <= j < |ps| && Truthy(ps[j].text) ==> ws[j] == WireText(ps[j].text.value)
    ensures forall j :: 0 <= j < |ps| && !Truthy(ps[j].text) && ps[j].inlineData.Some? ==>
              ws[j] == WireInline(ps[j].inlineData.value)
    ensures forall j :: 0 <= j < |ps| && !Truthy(ps[j].text) && ps[j].inlineData.None? ==>
              ws[j] == WireText("")
  {
    if ps == [] then [] else [ToWirePart(ps[0])] + ToWireParts(ps[1..])
  }

  /** One message on the wire: its id and timestamp are not sent. */
  function ToWireContent(m: Message): WireContent
  {
    WireContent(WireRole(m.role), ToWireParts(m.parts))
  }

  /** The request's `contents`: one record per message, in order. */
  function ToWireContents(ms: seq<Message>): (cs: seq<WireContent>)
    ensures |cs| == |ms|
    ensures forall i :: 0 <= i < |ms| ==> cs[i].role == WireRole(ms[i].role)
    ensures forall i :: 0 <= i < |ms| ==> cs[i].parts == ToWireParts(ms[i].parts)
  {
    if ms == [] then [] else [ToWireContent(ms[0])] + ToWireContents(ms[1..])
  }

  /** Reads a request part back into a message part. */
  function FromWirePart(w: WirePart): (p: MessagePart)
    ensures SingleField(p)
    ensures ToWirePart(p) == w
  {
    match w
    case WireText(t) => TextPart(t)
    case WireInline(d) => ImagePart(d)
  }

  /** Reads the parts of one request turn back, element by element. */
  function FromWireParts(ws: seq<WirePart>): (ps: seq<MessagePart>)
    ensures |ps| == |ws|
    ensures forall j :: 0 <= j < |ws| ==> ps[j] == FromWirePart(ws[j])
    ensures ToWireParts(ps) == ws
  {
    if ws == [] then [] else [FromWirePart(ws[0])] + FromWireParts(ws[1..])
  }

  /** A part survives the trip to the wire and back exactly when it carries one field. */
  lemma WirePartRoundTrip(p: MessagePart)
    ensures FromWirePart(ToWirePart(p)) == p <==> SingleField(p)
  {
  }

  /** The parts of a message survive the round trip exactly when each carries one field. */
  lemma {:induction false} WirePartsRoundTrip(ps: seq<MessagePart>)
    ensures FromWireParts(ToWireParts(ps)) == ps <==> forall j :: 0 <= j < |ps| ==> SingleField(ps[j])
  {
    var back := FromWireParts(ToWireParts(ps));
    forall j | 0 <= j < |ps|
      ensures back[j] == FromWirePart(ToWirePart(ps[j]))
    {
    }
    forall j | 0 <= j < |ps|
      ensures back[j] == ps[j] <==> SingleField(ps[j])
    {
      WirePartRoundTrip(ps[j]);
    }
  }

  /**
   * Sending a conversation and reading it back preserves every message's role,
   * its texts and its images (MIME type and payload unchanged), provided each
   * part carries one field.
   */
  lemma WireRoundTrip(ms: seq<Message>)
    requires forall i, j :: 0 <= i < |ms| && 0 <= j < |ms[i].parts| ==> SingleField(ms[i].parts[j])
    ensures var cs := ToWireContents(ms);
      forall i :: 0 <= i < |ms| ==>
        RoleFromWire(cs[i].role) == ms[i].role && FromWireParts(cs[i].parts) == ms[i].parts
  {
    forall i | 0 <= i < |ms|
      ensures FromWireParts(ToWireParts(ms[i].parts)) == ms[i].parts
    {
      WirePartsRoundTrip(ms[i].parts);
    }
  }

  /** Converting a conversation is converting its two halves and joining them. */
  lemma {:induction false} ToWireContentsAppend(a: seq<Message>, b: seq<Message>)
    ensures ToWireContents(a + b) == ToWireContents(a) + ToWireContents(b)
  {
    var l, r := ToWireContents(a + b), ToWireContents(a) + ToWireContents(b);
    forall i | 0 <= i < |a + b|
      ensures l[i] == r[i]
    {
      if i < |a| {
        assert (a + b)[i] == a[i];
      } else {
        assert (a + b)[i] == b[i - |a|];
      }
    }
  }

  /** One response chunk; its text may be absent. */
  datatype ResponseChunk = ResponseChunk(text: Option<string>)

  /** The string yielded for one chunk: its text, or the empty string when absent. */
  function ChunkText(c: ResponseChunk): string
  {
    if c.text.Some? then c.text.value else ""
  }

  /** What the generator yields: one string per response chunk, in order. */
  function YieldedTexts(response: seq<ResponseChunk>): (ys: seq<string>)
    ensures |ys| == |response|
    ensures forall i :: 0 <= i < |response| && response[i].text.Some? ==> ys[i] == response[i].text.value
    ensures forall i :: 0 <= i < |response| && response[i].text.None? ==> ys[i] == ""
  {
    if response == [] then [] else [ChunkText(response[0])] + YieldedTexts(response[1..])
  }

  /** The yielded strings of two runs of chunks are those of each run, joined. */
  lemma YieldedTextsAppend(a: seq<ResponseChunk>, b: seq<ResponseChunk>)
    ensures YieldedTexts(a + b) == YieldedTexts(a) + YieldedTexts(b)
  {
    var l, r := YieldedTexts(a + b), YieldedTexts(a) + YieldedTexts(b);
    forall i | 0 <= i < |a + b|
      ensures l[i] == r[i]
    {
      if i < |a| {
        assert (a + b)[i] == a[i];
      } else {
        assert (a + b)[i] == b[i - |a|];
      }
    }
  }

  /**
   * A chunk with absent or empty text leaves the accumulated text as it would
   * be without that chunk.
   */
  lemma EmptyChunkInvisible(before: seq<ResponseChunk>, c: ResponseChunk, after: seq<ResponseChunk>)
    requires !Truthy(c.text)
    ensures Concat(YieldedTexts(before + [c] + after)) == Concat(YieldedTexts(before + after))
  {
    var yb, ya := YieldedTexts(before), YieldedTexts(after);
    YieldedTextsAppend(before, [c]);
    YieldedTextsAppend(before + [c], after);
    YieldedTextsAppend(before, after);
    var empty: seq<string> := [""];
    assert YieldedTexts([c]) == empty;
    assert Concat(empty) == "" by {
      assert empty[..0] == [];
    }
    calc {
      Concat(YieldedTexts(before + [c] + after));
      Concat(yb + empty + ya);
      { ConcatAppend(yb + empty, ya); }
      Concat(yb + empty) + Concat(ya);
      { ConcatAppend(yb, empty); }
      Concat(yb) + Concat(ya);
      { ConcatAppend(yb, ya); }
      Concat(YieldedTexts(before + after));
    }
  }

  /**
   * The fragments the app consumes: `chunks` in order, except that when
   * `failAt` is `Some(k)` the stream raises when asked for chunk `k` (or, if
   * `k` is past the last chunk, after the last chunk instead of ending).
   */
  datatype Stream = Stream(chunks: seq<string>, failAt: Option<nat>)

  /** The stream the generator produces for a response that fails as `failAt` says. */
  function SendMessageStream(response: seq<ResponseChunk>, failAt: Option<nat>): (s: Stream)
    ensures |s.chunks| == |response| && s.failAt == failAt
    ensures forall i :: 0 <= i < |response| ==> s.chunks[i] == ChunkText(response[i])
  {
    Stream(YieldedTexts(response), failAt)
  }

  /** The fragments delivered before the stream ends or raises. */
  function Delivered(s: Stream): (d: seq<string>)
    ensures d <= s.chunks
    ensures s.failAt.None? ==> d == s.chunks
    ensures s.failAt.Some? && s.failAt.value < |s.chunks| ==> |d| == s.failAt.value
    ensures s.failAt.Some? && s.failAt.value >= |s.chunks| ==> d == s.chunks
  {
    if s.failAt.Some? && s.failAt.value < |s.chunks| then s.chunks[..s.failAt.value] else s.chunks
  }

  /** The stream raises instead of ending normally. */
  predicate Failed(s: Stream)
  {
    s.failAt.Some?
  }
}
