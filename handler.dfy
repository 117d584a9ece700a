/**
 * The exported message handler: from one admitted message it extracts the
 * body, parses the command, picks the sender, formats the console line and
 * chooses the single reply.  Sending and logging are returned as values.
 */
module Handler {
  import opened Wrappers
  import opened JsString
  import opened Wire
  import LogFormat

  /**
   * What the handler reads from its surroundings: the `prefa` variable (when
   * defined), the global `prefix` setting (when set), and the id of the
   * socket's own user (`None` while the socket has no `user`).
   */
  datatype Config = Config(prefa: Option<string>, globalPrefix: Option<string>, botUserId: Option<string>)

  /** The console line, without its colours and clock. */
  datatype LogLine = LogLine(isGroup: bool, cmd: string, from: string, name: string, preview: string)

  /** One `sendMessage(chat, { text }, { quoted })` call. */
  datatype Reply = Reply(chat: string, text: string, quoted: MsgKey)

  /**
   * What one call of the handler does: nothing for a stub id, nothing but an
   * error log when an exception is caught, or a console line (when the
   * message has a payload) and at most one reply.
   */
  datatype Outcome =
    | SkippedStub
    | Failed
    | Handled(log: Option<LogLine>, reply: Option<Reply>)

  const PING_REPLY := "Pong!"
  const TIME_REPLY_HEAD := "Current time: "
  const GROUP_SUFFIX := "@g.us"

  /** The text field the content kind designates, if the kind carries text at all. */
  function KindField(p: Payload): Option<string> {
    match p.kind
    case Conversation => p.conversation
    case ExtendedText => p.extendedText
    case Image => p.imageCaption
    case Video => p.videoCaption
    case Document => p.documentCaption
    case OtherKind => None
  }

  /**
   * The body: the chain of conditional expressions that tries each content
   * kind in turn.  It is the text of the one field the kind designates, or ""
   * when there is no payload, the kind carries no text, or that field is
   * missing or empty; no other field can ever supply it.
   */
  function Body(m: Option<Payload>): (r: string)
    ensures r != "" ==> m.Some? && KindField(m.value) == Some(r)
    ensures m.Some? && Truthy(KindField(m.value)) ==> r == KindField(m.value).value
  {
    if m.None? then ""
    else
      var p := m.value;
      if p.kind == Conversation && Truthy(p.conversation) then p.conversation.value
      else if p.kind == ExtendedText && Truthy(p.extendedText) then p.extendedText.value
      else if p.kind == Image && Truthy(p.imageCaption) then p.imageCaption.value
      else if p.kind == Video && Truthy(p.videoCaption) then p.videoCaption.value
      else if p.kind == Document && Truthy(p.documentCaption) then p.documentCaption.value
      else ""
  }

  /**
   * `typeof prefa !== 'undefined' ? prefa : global.prefix || '.'`: `prefa`
   * wins whenever it is defined, even as ""; otherwise a non-empty global
   * prefix; otherwise ".".  Without `prefa` the prefix is never empty.
   */
  function Prefix(cfg: Config): (r: string)
    ensures cfg.prefa.Some? ==> r == cfg.prefa.value
    ensures cfg.prefa.None? && Truthy(cfg.globalPrefix) ==> r == cfg.globalPrefix.value
    ensures cfg.prefa.None? && !Truthy(cfg.globalPrefix) ==> r == "."
    ensures cfg.prefa.None? ==> r != ""
  {
    if cfg.prefa.Some? then cfg.prefa.value
    else if Truthy(cfg.globalPrefix) then cfg.globalPrefix.value
    else "."
  }

  /**
   * `body.startsWith(prefix)`: the body repeats the prefix character for
   * character, with no case folding.
   */
  predicate IsCmd(body: string, prefix: string)
    ensures IsCmd(body, prefix) <==> |prefix| <= |body| && forall i :: 0 <= i < |prefix| ==> body[i] == prefix[i]
  {
    StartsWith(body, prefix)
  }

  /**
   * `body.slice(prefix.length).trim().split(' ').shift().toLowerCase()` for a
   * command, "" otherwise.  The result is lower-case and holds no space.
   */
  function Command(body: string, prefix: string): (r: string)
    ensures !IsCmd(body, prefix) ==> r == ""
    ensures ' ' !in r
    ensures ToLower(r) == r
  {
    if IsCmd(body, prefix) then
      var w := SplitOn(Trim(body[|prefix|..]), ' ')[0];
      ToLowerFacts(w);
      ToLower(w)
    else ""
  }

  /**
   * The command word, independently of how it is computed: for a command it
   * is the lower-cased longest space-free prefix of what follows the prefix
   * once trimmed (tabs and newlines do not end it).  A body equal to the
   * prefix gives the empty command.
   */
  lemma CommandIsFirstWord(body: string, prefix: string)
    requires IsCmd(body, prefix)
    ensures var rest := Trim(body[|prefix|..]); var c := Command(body, prefix);
      StartsWith(ToLower(rest), c) && (|c| == |rest| || rest[|c|] == ' ')
    ensures body == prefix ==> Command(body, prefix) == ""
  {
    var rest := Trim(body[|prefix|..]);
    var w := SplitOn(rest, ' ')[0];
    SplitOnFirst(rest, ' ');
    assert ToLower(rest)[..|w|] == ToLower(w);
    if body == prefix {
      assert body[|prefix|..] == [];
    }
  }

  /**
   * `body.trim().split(/ +/).slice(1)`, computed for every body: every token
   * after the first space-separated one (the prefix and command are not
   * stripped first).  The arguments are non-empty words without spaces that
   * together hold exactly the non-space characters after the first word.
   */
  function Args(body: string): (r: seq<string>)
    ensures forall i :: 0 <= i < |r| ==> r[i] != [] && ' ' !in r[i]
    ensures Trim(body) == [] ==> r == []
    ensures var all := SplitSpaceRuns(Trim(body)); Concat(all) == all[0] + Concat(r)
  {
    var t := Trim(body);
    var all := SplitSpaceRuns(t);
    SplitSpaceRunsContents(t);
    SplitSpaceRunsNonEmpty(t);
    SplitSpaceRunsLast(t);
    assert Concat(all) == all[0] + Concat(all[1..]);
    all[1..]
  }

  /**
   * What the arguments are, independently of how they are split: with the
   * space runs of the trimmed body collapsed, the text is one space-free
   * token followed by a space and the arguments joined by single spaces, or,
   * when there are no arguments, a single space-free token.
   */
  lemma ArgsAreLaterTokens(body: string)
    ensures var c := CollapseSpaces(Trim(body)); var r := Args(body);
      (r == [] ==> ' ' !in c)
      && (r != [] ==> var j := " " + Join(r, ' ');
            EndsWith(c, j) && ' ' !in c[..|c| - |j|])
  {
    var t := Trim(body);
    var all := SplitSpaceRuns(t);
    SplitSpaceRunsJoin(t);
    SplitSpaceRunsContents(t);
    var c := CollapseSpaces(t);
    if |all| > 1 {
      var j := " " + Join(all[1..], ' ');
      assert c == all[0] + j;
      assert c[..|c| - |j|] == all[0];
      assert c[|c| - |j|..] == j;
    }
  }

  /** `from.endsWith('@g.us')`. */
  predicate IsGroup(chat: string)
    ensures IsGroup(chat) <==>
      |chat| >= 5 && forall i :: 0 <= i < 5 ==> chat[|chat| - 5 + i] == GROUP_SUFFIX[i]
  {
    EndsWith(chat, GROUP_SUFFIX)
  }

  /**
   * The sender: the message's own `participant` field in a group chat (which
   * may be missing), the chat id in a private chat.  A private sender is
   * therefore never a group id.
   */
  function Sender(msg: MessageView): (r: Option<string>)
    ensures IsGroup(msg.key.remoteJid) ==> r == msg.participant
    ensures !IsGroup(msg.key.remoteJid) ==> r == Some(msg.key.remoteJid) && !IsGroup(r.value)
  {
    if IsGroup(msg.key.remoteJid) then msg.participant else Some(msg.key.remoteJid)
  }

  /**
   * `String(senderJid.user || senderJid.id || sender)`, where `senderUser` is
   * the user part the JID library decoded from the sender (if any).
   */
  function SenderNumber(senderUser: Option<string>, sender: Option<string>): (r: string)
    ensures Truthy(senderUser) ==> r == senderUser.value
    ensures !Truthy(senderUser) && sender.Some? ==> r == sender.value
    ensures !Truthy(senderUser) && sender.None? ==> r == "undefined"
  {
    if Truthy(senderUser) then senderUser.value else Render(sender)
  }

  /**
   * `msg.pushName || senderJid.user || senderJid.id || sender`, rendered into
   * the line: the push name when there is one, and otherwise the very text
   * shown as the sender number before masking.
   */
  function SenderName(msg: MessageView, senderUser: Option<string>, sender: Option<string>): (r: string)
    ensures Truthy(msg.pushName) ==> r == msg.pushName.value
    ensures !Truthy(msg.pushName) ==> r == SenderNumber(senderUser, sender)
  {
    if Truthy(msg.pushName) then msg.pushName.value
    else if Truthy(senderUser) then senderUser.value
    else Render(sender)
  }

  /**
   * The `switch` on the command: "ping" gets "Pong!", "time" gets the clock,
   * and every other command, the empty one included, gets the unknown-command
   * text naming the command and the help command under the configured prefix.
   */
  function ReplyText(command: string, prefix: string, clock: string): (r: string)
    ensures command == "ping" ==> r == PING_REPLY
    ensures command == "time" ==> r == TIME_REPLY_HEAD + clock
    ensures command != "ping" && command != "time" ==>
      r == "Unknown command: " + command + "\nUse " + prefix + "help for available commands"
  {
    match command
    case "ping" => PING_REPLY
    case "time" => TIME_REPLY_HEAD + clock
    case _ => "Unknown command: " + command + "\nUse " + prefix + "help for available commands"
  }

  /**
   * The whole handler for one message.  `senderUser` is the decoded user part
   * of the sender and `clock` the formatted Asia/Jakarta time, both supplied
   * from outside.  A stub id is skipped; a socket without a user makes the
   * `frb.user.id` lookup throw, which the handler's own `catch` absorbs before
   * anything is logged or sent; otherwise the line is logged when there is a
   * payload and exactly one reply, to the chat and quoting the message, is
   * sent iff the body is a command.
   */
  function Handle(msg: MessageView, cfg: Config, senderUser: Option<string>, clock: string): (r: Outcome)
    ensures r.SkippedStub? <==> IsStubId(msg.key.id)
    ensures r.Failed? <==> !IsStubId(msg.key.id) && cfg.botUserId.None?
    ensures r.Handled? ==> (r.log.Some? <==> msg.message.Some?)
    ensures r.Handled? ==> (r.reply.Some? <==> IsCmd(Body(msg.message), Prefix(cfg)))
    ensures r.Handled? && r.reply.Some? ==>
      r.reply.value.chat == msg.key.remoteJid && r.reply.value.quoted == msg.key
      && r.reply.value.text == ReplyText(Command(Body(msg.message), Prefix(cfg)), Prefix(cfg), clock)
    ensures r.Handled? && r.log.Some? ==>
      var body := Body(msg.message);
      var prefix := Prefix(cfg);
      r.log.value == LogLine(IsGroup(msg.key.remoteJid),
                             if IsCmd(body, prefix) then Command(body, prefix) else "-",
                             LogFormat.MaskNumber(SenderNumber(senderUser, Sender(msg))),
                             SenderName(msg, senderUser, Sender(msg)),
                             LogFormat.Preview(body))
  {
    if IsStubId(msg.key.id) then SkippedStub
    else
      var body := Body(msg.message);
      var prefix := Prefix(cfg);
      var isCmd := IsCmd(body, prefix);
      var command := Command(body, prefix);
      var from := msg.key.remoteJid;
      var sender := Sender(msg);
      if cfg.botUserId.None? then Failed
      else
        var log :=
          if msg.message.Some? then
            Some(LogLine(IsGroup(from), if isCmd then command else "-",
                         LogFormat.MaskNumber(SenderNumber(senderUser, sender)),
                         SenderName(msg, senderUser, sender), LogFormat.Preview(body)))
          else None;
        var reply := if isCmd then Some(Reply(from, ReplyText(command, prefix, clock), msg.key)) else None;
        Handled(log, reply)
  }

  /** A body typed with upper-case letters selects the same reply: the command is case-insensitive. */
  lemma CommandIgnoresCase(body: string, prefix: string)
    requires IsCmd(body, prefix)
    requires ToLower(prefix) == prefix
    ensures Command(ToLower(body), prefix) == Command(body, prefix)
  {
    var b := ToLower(body);
    assert b[..|prefix|] == ToLower(body[..|prefix|]);
    var rest, lrest := body[|prefix|..], b[|prefix|..];
    assert lrest == ToLower(rest);
    TrimLower(rest);
    SplitLower(Trim(rest));
    ToLowerFacts(SplitOn(Trim(rest), ' ')[0]);
  }

  lemma TrimLower(s: string)
    ensures Trim(ToLower(s)) == ToLower(Trim(s))
  {
    TrimStartLower(s);
    TrimEndLower(TrimStart(s));
  }

  lemma LowerKeepsWhite(c: char)
    ensures IsWhite(LowerChar(c)) <==> IsWhite(c)
  {
  }

  lemma {:induction false} TrimStartLower(s: string)
    ensures TrimStart(ToLower(s)) == ToLower(TrimStart(s))
  {
    if s != [] {
      assert ToLower(s)[1..] == ToLower(s[1..]);
      LowerKeepsWhite(s[0]);
      if IsWhite(s[0]) { TrimStartLower(s[1..]); }
    }
  }

  lemma {:induction false} TrimEndLower(s: string)
    ensures TrimEnd(ToLower(s)) == ToLower(TrimEnd(s))
  {
    if s != [] {
      assert ToLower(s)[..|s| - 1] == ToLower(s[..|s| - 1]);
      LowerKeepsWhite(s[|s| - 1]);
      if IsWhite(s[|s| - 1]) { TrimEndLower(s[..|s| - 1]); }
    }
  }

  /** Lower-casing the text lower-cases the first piece of the split on ' '. */
  lemma {:induction false} SplitLower(s: string)
    ensures ToLower(SplitOn(ToLower(s), ' ')[0]) == ToLower(SplitOn(s, ' ')[0])
    ensures SplitOn(ToLower(s), ' ')[0] == ToLower(SplitOn(s, ' ')[0])
  {
    if s != [] {
      assert ToLower(s)[1..] == ToLower(s[1..]);
      SplitLower(s[1..]);
      ToLowerFacts(SplitOn(s[1..], ' ')[0]);
      assert ToLower([s[0]] + SplitOn(s[1..], ' ')[0]) == [LowerChar(s[0])] + ToLower(SplitOn(s[1..], ' ')[0]);
    }
  }
}
