/**
 * What the chat panel shows for one message and for each of its attachments,
 * reduced to the choices the markup makes: which of the four attachment
 * elements appears, which tint it gets, and whether the bubble is styled as
 * the session's own message or as the other party's.
 */
module Renderer {
  import opened ChatTypes

  /** The element an attachment is shown as: an inline picture, a player, or a named download link. */
  datatype Variant = Image | Audio | Video | Download

  /** The attachment tint, chosen from the session role alone. */
  datatype Tint = SenderTint | ReceiverTint

  /** Bubble styling and alignment: the session's own message, or the other party's. */
  datatype Bubble = Own | Other

  datatype RenderedFile = RenderedFile(variant: Variant, tint: Tint, file: File)

  datatype RenderedMessage = RenderedMessage(bubble: Bubble, content: string, attachments: seq<RenderedFile>)

  /**
   * The first element of `mimeType.split('/')`: everything before the first
   * slash, or the whole string when it has none.
   */
  function MajorType(mimeType: string): (major: string)
    ensures major <= mimeType
    ensures '/' !in major
    ensures major == mimeType || mimeType[|major|] == '/'
  {
    if mimeType == [] || mimeType[0] == '/' then []
    else [mimeType[0]] + MajorType(mimeType[1..])
  }

  /** The major type of `p/rest` is `p` whenever `p` holds no slash, whatever `rest` is. */
  lemma {:induction false} MajorTypeBeforeSlash(p: string, rest: string)
    requires '/' !in p
    ensures MajorType(p + "/" + rest) == p
  {
    if p != [] {
      assert (p + "/" + rest)[1..] == p[1..] + "/" + rest;
      MajorTypeBeforeSlash(p[1..], rest);
    }
  }

  /** A type string with no slash is its own major type. */
  lemma {:induction false} MajorTypeWithoutSlash(s: string)
    requires '/' !in s
    ensures MajorType(s) == s
  {
    if s != [] {
      MajorTypeWithoutSlash(s[1..]);
    }
  }

  /**
   * The elements the attachment markup emits: four independent conditions on
   * the major type, one per element, emitted in order.
   */
  function ShownVariants(major: string): (shown: seq<Variant>)
    ensures |shown| == 1
  {
    (if major == "image" then [Image] else []) +
    (if major == "audio" then [Audio] else []) +
    (if major == "video" then [Video] else []) +
    (if major != "image" && major != "audio" && major != "video" then [Download] else [])
  }

  /** Reference classification: one decision per major type, everything unknown falls back to a download link. */
  function Classify(mimeType: string): (v: Variant)
    ensures v == Image <==> MajorType(mimeType) == "image"
    ensures v == Audio <==> MajorType(mimeType) == "audio"
    ensures v == Video <==> MajorType(mimeType) == "video"
  {
    match MajorType(mimeType)
    case "image" => Image
    case "audio" => Audio
    case "video" => Video
    case _ => Download
  }

  /** The four conditions are total and exclusive: exactly one element is emitted, the one Classify picks. */
  lemma ExactlyOneVariantShown(mimeType: string)
    ensures ShownVariants(MajorType(mimeType)) == [Classify(mimeType)]
  {
  }

  /** The generic link is the fallback for an empty and for a slash-less unknown type. */
  lemma ClassifyFallbackExamples()
    ensures Classify("") == Download
    ensures Classify("xyz") == Download
  {
    MajorTypeWithoutSlash("xyz");
  }

  /** A type string is classified by its major part alone: `image/png` is shown as a picture. */
  lemma ClassifyImagePng()
    ensures Classify("image/png") == Image
  {
    var p, rest := "image", "png";
    MajorTypeBeforeSlash(p, rest);
    assert p + "/" + rest == "image/png";
  }

  /** The attachment tint: blue for a session whose role is sender, grey otherwise. */
  function TintFor(userType: Role): Tint {
    if userType == Sender then SenderTint else ReceiverTint
  }

  function RenderFile(file: File, userType: Role): RenderedFile {
    RenderedFile(Classify(file.mimeType), TintFor(userType), file)
  }

  /**
   * One message: the bubble is the session's own exactly when the message's
   * sender equals the session role; every attachment is rendered, in order,
   * with the session role.
   */
  function RenderMessage(message: Message, userType: Role): (r: RenderedMessage)
    ensures r.bubble == Own <==> message.sender == userType
    ensures r.content == message.content
    ensures |r.attachments| == |message.files|
    ensures forall i :: 0 <= i < |message.files| ==>
              r.attachments[i].file == message.files[i] &&
              r.attachments[i].variant == Classify(message.files[i].mimeType)
  {
    RenderedMessage(
      if message.sender == userType then Own else Other,
      message.content,
      seq(|message.files|, i requires 0 <= i < |message.files| => RenderFile(message.files[i], userType)))
  }

  /**
   * Attachment styling ignores who sent the message: changing the message's
   * sender leaves every rendered attachment as it was, and each one carries
   * the session role's tint.
   */
  lemma AttachmentsIgnoreSender(message: Message, userType: Role, otherSender: Role)
    ensures RenderMessage(message.(sender := otherSender), userType).attachments
         == RenderMessage(message, userType).attachments
    ensures forall f :: f in RenderMessage(message, userType).attachments ==> f.tint == TintFor(userType)
  {
  }
}
