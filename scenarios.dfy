/**
 * Worked examples of the handler on concrete bodies under the default
 * prefix ".", and the general facts about words they rest on.
 *
 * The examples take the body and prefix as parameters pinned by `requires`
 * (`body == ".ping" && prefix == "."`) rather than writing the literals into
 * the conclusion: that keeps literal strings away from the recursive string
 * functions, which the verifier would otherwise unfold character by character.
 */
module Scenarios {
  import opened Wrappers
  import opened JsString
  import opened Wire
  import opened Handler

  /** A word: non-empty, no space, and no whitespace at either end. */
  predicate IsWord(w: string) {
    w != [] && ' ' !in w && !IsWhite(w[0]) && !IsWhite(w[|w| - 1])
  }

  /** The command of `prefix + word + " ..."` is the word, lower-cased. */
  lemma CommandOfFirstWord(prefix: string, w: string, tail: string)
    requires IsWord(w)
    requires tail == [] || (tail[0] == ' ' && !IsWhite(tail[|tail| - 1]))
    ensures Command(prefix + w + tail, prefix) == ToLower(w)
  {
    var body := prefix + w + tail;
    assert body[..|prefix|] == prefix;
    var rest := body[|prefix|..];
    assert rest == w + tail;
    TrimUntouched(rest);
    assert rest[..|w|] == w;
    SplitOnFirstUnique(rest, ' ', w);
  }

  /** Three space-separated words split into those three words. */
  lemma SplitThreeWords(a: string, b: string, c: string)
    requires IsWord(a) && IsWord(b) && IsWord(c)
    ensures SplitSpaceRuns(a + " " + b + " " + c) == [a, b, c]
  {
    SplitSpaceRunsWord(c);
    SplitSpaceRunsCons(b, c);
    assert a + " " + b + " " + c == a + " " + (b + " " + c);
    SplitSpaceRunsCons(a, b + " " + c);
  }

  /** Three space-separated words are left alone by trimming. */
  lemma TrimThreeWords(a: string, b: string, c: string)
    requires IsWord(a) && IsWord(b) && IsWord(c)
    ensures Trim(a + " " + b + " " + c) == a + " " + b + " " + c
  {
    var s := a + " " + b + " " + c;
    assert s[0] == a[0] && s[|s| - 1] == c[|c| - 1];
    TrimUntouched(s);
  }

  /** The arguments of three space-separated words are the last two. */
  lemma ArgsOfThreeWords(a: string, b: string, c: string)
    requires IsWord(a) && IsWord(b) && IsWord(c)
    ensures Args(a + " " + b + " " + c) == [b, c]
  {
    TrimThreeWords(a, b, c);
    SplitThreeWords(a, b, c);
  }

  /** A single word has no arguments. */
  lemma ArgsOfOneWord(a: string)
    requires IsWord(a)
    ensures Args(a) == []
  {
    TrimUntouched(a);
    SplitSpaceRunsWord(a);
  }

  /** The command of `prefix + " " + word` is the word after the space, lower-cased. */
  lemma CommandAfterSpace(prefix: string, w: string)
    requires IsWord(w)
    ensures Command(prefix + " " + w, prefix) == ToLower(w)
  {
    var body := prefix + " " + w;
    assert body[..|prefix|] == prefix;
    var rest := body[|prefix|..];
    assert rest == " " + w && rest[1..] == w;
    assert TrimStart(rest) == TrimStart(w);
    TrimUntouched(w);
    SplitOnWord(w, ' ');
  }

  /** The arguments of two space-separated words are the second one. */
  lemma ArgsOfTwoWords(a: string, b: string)
    requires IsWord(a) && IsWord(b)
    ensures Args(a + " " + b) == [b]
  {
    var s := a + " " + b;
    assert s[0] == a[0] && s[|s| - 1] == b[|b| - 1];
    TrimUntouched(s);
    SplitSpaceRunsWord(b);
    SplitSpaceRunsCons(a, b);
  }

  /** "ping" and ".ping" are words, and "ping" is already lower-case. */
  lemma PingWords()
    ensures IsWord("ping") && ToLower("ping") == "ping" && IsWord(".ping")
  {
  }

  /** "PING" is a word that lower-cases to "ping". */
  lemma UpperPingWord()
    ensures IsWord("PING") && ToLower("PING") == "ping"
  {
  }

  /** "time" and "foo" are words and already lower-case. */
  lemma TimeFooWords()
    ensures IsWord("time") && ToLower("time") == "time"
    ensures IsWord("foo") && ToLower("foo") == "foo"
  {
  }

  /** ".ping" under the default prefix: the command "ping", no arguments, and the reply "Pong!". */
  lemma PingScenario(body: string, prefix: string, clock: string)
    requires body == ".ping" && prefix == "."
    ensures Command(body, prefix) == "ping" && Args(body) == []
    ensures ReplyText(Command(body, prefix), prefix, clock) == PING_REPLY
  {
    PingWords();
    assert body == prefix + "ping" + "";
    CommandOfFirstWord(prefix, "ping", "");
    ArgsOfOneWord(body);
  }

  /**
   * A conversation message ".ping" under the default prefix, on a socket with
   * a user, gets exactly the reply "Pong!", sent to its chat and quoting it.
   */
  lemma PingHandledScenario(msg: MessageView, cfg: Config, senderUser: Option<string>, clock: string)
    requires msg.message.Some? && msg.message.value.kind == Conversation
    requires msg.message.value.conversation == Some(".ping")
    requires cfg.prefa.None? && !Truthy(cfg.globalPrefix) && cfg.botUserId.Some?
    requires !IsStubId(msg.key.id)
    ensures Handle(msg, cfg, senderUser, clock).Handled?
    ensures Handle(msg, cfg, senderUser, clock).reply == Some(Reply(msg.key.remoteJid, PING_REPLY, msg.key))
  {
    var body := Body(msg.message);
    assert body == ".ping";
    PingScenario(body, Prefix(cfg), clock);
  }

  /** ".PING" is the same command: the command word is lower-cased. */
  lemma UpperCasePingScenario(body: string, prefix: string)
    requires body == ".PING" && prefix == "."
    ensures Command(body, prefix) == "ping"
  {
    UpperPingWord();
    assert body == prefix + "PING" + "";
    CommandOfFirstWord(prefix, "PING", "");
  }

  /** ".time extra args": the command "time". */
  lemma TimeCommandScenario(body: string, prefix: string)
    requires body == ".time extra args" && prefix == "."
    ensures Command(body, prefix) == "time"
  {
    TimeFooWords();
    assert body == prefix + "time" + " extra args";
    CommandOfFirstWord(prefix, "time", " extra args");
  }

  /** ".time extra args": the arguments "extra" and "args". */
  lemma TimeArgsScenario(body: string)
    requires body == ".time extra args"
    ensures Args(body) == ["extra", "args"]
  {
    assert body == ".time" + " " + "extra" + " " + "args";
    ArgsOfThreeWords(".time", "extra", "args");
  }

  /**
   * `prefix + " " + word`, as in ". ping": the arguments are taken from the
   * whole body, so the word is the only argument as well as the command.
   */
  lemma SpacedPrefixScenario(prefix: string, w: string)
    requires IsWord(prefix) && IsWord(w)
    ensures Args(prefix + " " + w) == [w]
    ensures Command(prefix + " " + w, prefix) == ToLower(w)
  {
    ArgsOfTwoWords(prefix, w);
    CommandAfterSpace(prefix, w);
  }

  /** ".foo" is parsed as the command "foo". */
  lemma UnknownCommandScenario(body: string, prefix: string)
    requires body == ".foo" && prefix == "."
    ensures Command(body, prefix) == "foo"
  {
    TimeFooWords();
    assert body == prefix + "foo" + "";
    CommandOfFirstWord(prefix, "foo", "");
  }

  /** An empty body has no arguments and is no command under a non-empty prefix. */
  lemma EmptyBodyScenario(prefix: string)
    requires prefix != ""
    ensures Args("") == [] && !IsCmd("", prefix) && Command("", prefix) == ""
  {
  }
}
