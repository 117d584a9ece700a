/**
 * The parts of an incoming WhatsApp web message (a Baileys `WAMessage`) that
 * the bot reads: the key, the content payload and the sender fields.
 */
module Wire {
  import opened Wrappers
  import opened JsString

  /** The answer of the library's `getContentType` for a payload. */
  datatype ContentKind = Conversation | ExtendedText | Image | Video | Document | OtherKind

  /**
   * A message payload (`msg.message`).  Each text-carrying field is `None` when
   * the payload does not have it; `ephemeral` is the `ephemeralMessage`
   * wrapper a disappearing message arrives in.
   */
  datatype Payload = Payload(
    kind: ContentKind,
    conversation: Option<string>,
    extendedText: Option<string>,
    imageCaption: Option<string>,
    videoCaption: Option<string>,
    documentCaption: Option<string>,
    ephemeral: Option<Ephemeral>)

  /** `ephemeralMessage`: an object whose own `message` field may be missing. */
  datatype Ephemeral = Ephemeral(message: Option<Payload>)

  /** `msg.key`. */
  datatype MsgKey = MsgKey(remoteJid: string, fromMe: bool, id: string)

  /** The fields of one message as the handlers see them at a given moment. */
  datatype MessageView = MessageView(
    key: MsgKey,
    message: Option<Payload>,
    participant: Option<string>,
    pushName: Option<string>)

  /** Ids of protocol-internal stubs: they start with `BAE5` and are exactly 16 long. */
  predicate IsStubId(id: string)
    ensures IsStubId(id) <==>
      |id| == 16 && id[0] == 'B' && id[1] == 'A' && id[2] == 'E' && id[3] == '5'
  {
    StartsWith(id, "BAE5") && |id| == 16
  }

  /** JavaScript truthiness of an optional string: present and non-empty. */
  predicate Truthy(s: Option<string>) {
    s.Some? && s.value != ""
  }

  /** Template-literal rendering of an optional string: `undefined` when absent. */
  function Render(s: Option<string>): string {
    s.GetOr("undefined")
  }
}
