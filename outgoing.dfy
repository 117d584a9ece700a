/**
 * `patchMessageBeforeSending`: an outgoing message that holds buttons, a
 * template or a list is wrapped in a view-once message whose inner message
 * carries device-list context, because such messages are not delivered
 * otherwise; every other message goes out unchanged.
 */
module Outgoing {

  /** A JSON-like JavaScript value. */
  datatype JsValue =
    | Undefined
    | Null
    | Bool(b: bool)
    | Num(n: int)
    | Str(s: string)
    | Arr(items: seq<JsValue>)
    | Obj(fields: map<string, JsValue>)

  /** An outgoing message object: its own fields. */
  type Message = map<string, JsValue>

  const BUTTONS := "buttonsMessage"
  const TEMPLATE := "templateMessage"
  const LIST := "listMessage"
  const VIEW_ONCE := "viewOnceMessage"
  const INNER := "message"
  const CONTEXT_INFO := "messageContextInfo"

  /** JavaScript truthiness. */
  predicate Truthy(v: JsValue) {
    match v
    case Undefined => false
    case Null => false
    case Bool(b) => b
    case Num(n) => n != 0
    case Str(s) => s != ""
    case Arr(_) => true
    case Obj(_) => true
  }

  /** `m[k]`: `undefined` for a field the object does not have. */
  function Field(m: Message, k: string): JsValue {
    if k in m then m[k] else Undefined
  }

  /** The fields whose presence makes a message need the patch. */
  const PATCH_FIELDS: set<string> := {BUTTONS, TEMPLATE, LIST}

  /**
   * `!!(message.buttonsMessage || message.templateMessage || message.listMessage)`:
   * the message has one of the three fields with a truthy value (a missing
   * field reads as `undefined`, which is falsy).
   */
  predicate RequiresPatch(m: Message)
    ensures RequiresPatch(m) <==> exists k :: k in PATCH_FIELDS && k in m && Truthy(m[k])
  {
    Truthy(Field(m, BUTTONS)) || Truthy(Field(m, TEMPLATE)) || Truthy(Field(m, LIST))
  }

  /** `{ deviceListMetadataVersion: 2, deviceListMetadata: {} }`. */
  function ContextInfo(): JsValue {
    Obj(map["deviceListMetadataVersion" := Num(2), "deviceListMetadata" := Obj(map[])])
  }

  /**
   * The inner message `{ messageContextInfo: ..., ...message }`: the spread
   * comes last, so a field the message has itself wins over the context info.
   */
  function Inner(m: Message): (r: Message)
    ensures r.Keys == m.Keys + {CONTEXT_INFO}
    ensures forall k :: k in m ==> r[k] == m[k]
    ensures CONTEXT_INFO !in m ==> r[CONTEXT_INFO] == ContextInfo()
  {
    map[CONTEXT_INFO := ContextInfo()] + m
  }

  /**
   * The patch.  A message needing it becomes a one-field object whose view-once
   * message holds every field of the original, unchanged, plus the context
   * info unless the original had its own; any other message is returned as is.
   */
  function Patch(m: Message): (r: Message)
    ensures !RequiresPatch(m) ==> r == m
    ensures RequiresPatch(m) ==>
      r.Keys == {VIEW_ONCE} && r[VIEW_ONCE].Obj? && r[VIEW_ONCE].fields.Keys == {INNER}
      && r[VIEW_ONCE].fields[INNER] == Obj(Inner(m))
  {
    if RequiresPatch(m) then map[VIEW_ONCE := Obj(map[INNER := Obj(Inner(m))])] else m
  }

  /** What the receiver unwraps: the inner message, or the message itself when it was not wrapped. */
  function Delivered(r: Message): Message {
    if VIEW_ONCE in r && r[VIEW_ONCE].Obj? && INNER in r[VIEW_ONCE].fields && r[VIEW_ONCE].fields[INNER].Obj?
    then r[VIEW_ONCE].fields[INNER].fields
    else r
  }

  /**
   * Nothing of the original is lost: whether patched or not, what is
   * delivered holds every field of the message with its own value, and a
   * patched message gains only the context info.
   */
  lemma PatchKeepsMessage(m: Message)
    requires VIEW_ONCE !in m || RequiresPatch(m)
    ensures var d := Delivered(Patch(m));
      m.Keys <= d.Keys && (forall k :: k in m ==> d[k] == m[k])
      && d.Keys - m.Keys <= {CONTEXT_INFO}
  {
  }

  /** Patching twice is patching once: the wrapper holds no buttons, template or list. */
  lemma PatchIdempotent(m: Message)
    ensures Patch(Patch(m)) == Patch(m)
  {
    if RequiresPatch(m) {
      var r := Patch(m);
      assert BUTTONS !in r && TEMPLATE !in r && LIST !in r;
      assert !RequiresPatch(r);
    }
  }
}
