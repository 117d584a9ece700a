/**
 * The `messages.upsert` listener: it takes the first message of a `notify`
 * batch, unwraps a disappearing-message wrapper in place, drops self,
 * status and stub messages, and hands the rest to the message handler.
 */
module Inbound {
  import opened Wrappers
  import opened JsString
  import opened Wire
  import Handler

  const NOTIFY := "notify"
  const STATUS_BROADCAST := "status@broadcast"

  /** Why the listener returned before calling the handler. */
  datatype DropReason = NotNotify | NoPayload | FromSelf | StatusBroadcast | StubId

  /** What the listener does with one upsert event. */
  datatype UpsertResult = Dropped(reason: DropReason) | Processed(outcome: Handler.Outcome)

  /** The filter's decision on the (already unwrapped) first message. */
  datatype Verdict = Ignore(reason: DropReason) | Forward(msg: MessageView)

  /**
   * `msg.message = msg.message.ephemeralMessage.message` when the wrapper is
   * there: exactly one level comes off (the inner payload keeps any wrapper of
   * its own, and may itself be missing); any other payload is left as it is.
   */
  function Unwrap(p: Payload): (r: Option<Payload>)
    ensures p.ephemeral.None? ==> r == Some(p)
    ensures p.ephemeral.Some? ==> r == p.ephemeral.value.message
  {
    if p.ephemeral.Some? then p.ephemeral.value.message else Some(p)
  }

  /** Exactly one level: a doubly wrapped payload still carries its inner wrapper after one unwrap. */
  lemma UnwrapOneLevel(inner: Payload)
    requires inner.ephemeral.Some?
    ensures var outer := inner.(ephemeral := Some(Ephemeral(Some(inner))));
      Unwrap(outer) == Some(inner) && Unwrap(outer).value.ephemeral.Some?
  {
  }

  /**
   * The listener's filter over an event of kind `kind` carrying `batch`.
   * Only `notify` events are looked at and only their first message; a
   * missing first message or payload, a message from the bot itself, a status
   * broadcast and a stub id all stop it.  Otherwise it forwards the first
   * message with its payload unwrapped.
   */
  function Filter(kind: string, batch: seq<MessageView>): (r: Verdict)
    ensures r.Forward? <==>
      kind == NOTIFY && |batch| > 0 && batch[0].message.Some?
      && !batch[0].key.fromMe && batch[0].key.remoteJid != STATUS_BROADCAST
      && !IsStubId(batch[0].key.id)
    ensures r.Forward? ==> r.msg == batch[0].(message := Unwrap(batch[0].message.value))
    ensures kind != NOTIFY ==> r == Ignore(NotNotify)
  {
    if kind != NOTIFY then Ignore(NotNotify)
    else if |batch| == 0 || batch[0].message.None? then Ignore(NoPayload)
    else
      var msg := batch[0].(message := Unwrap(batch[0].message.value));
      if msg.key.fromMe then Ignore(FromSelf)
      else if msg.key.remoteJid == STATUS_BROADCAST then Ignore(StatusBroadcast)
      else if IsStubId(msg.key.id) then Ignore(StubId)
      else Forward(msg)
  }

  /** Everything after the first message of a batch is ignored. */
  lemma OnlyFirstMessage(kind: string, batch: seq<MessageView>)
    requires |batch| > 0
    ensures Filter(kind, batch) == Filter(kind, batch[..1])
  {
  }

  /**
   * The whole listener: the filter, then the handler on the forwarded
   * message.  Whatever the handler does, including an exception it catches,
   * comes back as a value: nothing escapes the listener.
   */
  function Upsert(kind: string, batch: seq<MessageView>, cfg: Handler.Config,
                  senderUser: Option<string>, clock: string): (r: UpsertResult)
    ensures r.Processed? <==> Filter(kind, batch).Forward?
    ensures r.Processed? ==> !r.outcome.SkippedStub?
    ensures r.Processed? ==> r.outcome == Handler.Handle(Filter(kind, batch).msg, cfg, senderUser, clock)
    ensures r.Dropped? ==> r == Dropped(Filter(kind, batch).reason)
  {
    match Filter(kind, batch)
    case Ignore(why) => Dropped(why)
    case Forward(msg) => Processed(Handler.Handle(msg, cfg, senderUser, clock))
  }

  /**
   * A forwarded message gets exactly one reply iff its body is a command and
   * the socket has a user; status broadcasts, the bot's own messages and
   * stubs never get one.
   */
  lemma ReplyOnlyForAdmittedCommands(kind: string, batch: seq<MessageView>, cfg: Handler.Config,
                                     senderUser: Option<string>, clock: string)
    ensures var r := Upsert(kind, batch, cfg, senderUser, clock);
      (r.Processed? && r.outcome.Handled? && r.outcome.reply.Some?) <==>
        (Filter(kind, batch).Forward? && cfg.botUserId.Some?
         && Handler.IsCmd(Handler.Body(Filter(kind, batch).msg.message), Handler.Prefix(cfg)))
    ensures var r := Upsert(kind, batch, cfg, senderUser, clock);
      (|batch| > 0 && (batch[0].key.fromMe || batch[0].key.remoteJid == STATUS_BROADCAST || IsStubId(batch[0].key.id)))
      ==> r.Dropped?
  {
  }

  /** A received message, whose payload the listener may replace in place. */
  class WebMessage {
    const key: MsgKey
    const participant: Option<string>
    const pushName: Option<string>
    var message: Option<Payload>

    constructor (key: MsgKey, message: Option<Payload>, participant: Option<string>, pushName: Option<string>)
      ensures View() == MessageView(key, message, participant, pushName)
    {
      this.key := key;
      this.message := message;
      this.participant := participant;
      this.pushName := pushName;
    }

    function View(): MessageView
      reads this
    {
      MessageView(key, message, participant, pushName)
    }
  }

  /** The values of a batch of message objects. */
  function Views(batch: seq<WebMessage>): (r: seq<MessageView>)
    reads set m | m in batch
    ensures |r| == |batch|
    ensures forall i :: 0 <= i < |batch| ==> r[i] == batch[i].View()
  {
    seq(|batch|, i reads set m | m in batch requires 0 <= i < |batch| => batch[i].View())
  }

  /**
   * The listener as it runs: it may rewrite the first message's payload, and
   * only that.  The rewrite happens before the self, status and stub checks,
   * so a message that is then dropped stays unwrapped too.
   */
  method OnUpsert(kind: string, batch: seq<WebMessage>, cfg: Handler.Config,
                  senderUser: Option<string>, clock: string) returns (r: UpsertResult)
    modifies if |batch| > 0 then {batch[0]} else {}
    ensures r == Upsert(kind, old(Views(batch)), cfg, senderUser, clock)
    ensures |batch| > 0 && kind == NOTIFY && old(batch[0].message).Some? ==>
      batch[0].message == Unwrap(old(batch[0].message).value)
    ensures |batch| > 0 && (kind != NOTIFY || old(batch[0].message).None?) ==>
      batch[0].message == old(batch[0].message)
  {
    ghost var before := Views(batch);
    if kind != NOTIFY {
      return Dropped(NotNotify);
    }
    if |batch| == 0 {
      return Dropped(NoPayload);
    }
    var msg := batch[0];
    if msg.message.None? {
      return Dropped(NoPayload);
    }
    if msg.message.value.ephemeral.Some? {
      msg.message := msg.message.value.ephemeral.value.message;
    }
    assert msg.View() == before[0].(message := Unwrap(before[0].message.value));
    if msg.key.fromMe {
      return Dropped(FromSelf);
    }
    if msg.key.remoteJid == STATUS_BROADCAST {
      return Dropped(StatusBroadcast);
    }
    if IsStubId(msg.key.id) {
      return Dropped(StubId);
    }
    r := Processed(Handler.Handle(msg.View(), cfg, senderUser, clock));
  }
}
