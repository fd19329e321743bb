/**
 * The Telegram front end of the chat script (tests/telegram_bot_test.py):
 * rendering a whole log as text, splitting long replies into Telegram-sized
 * chunks, the per-chat state cache, and the "重置 / 刷新 / 重写消息" edits and
 * ordinary turns that `handle_text` applies to the message list and the log.
 */
module ChatBot {
  import opened Wrappers
  import opened Text
  import opened ChatLog

  const TELEGRAM_MAX := 3900

  // ---------------------------------------------------------------- rendering a log

  const HEADER := "=== 该文件全部聊天记录 ==="
  const EMPTY := "(空)"
  const FOOTER := "========================="

  /** `f"{obj.get(key, default)}"`. */
  function Display(f: Field, default: string): string {
    match f
    case Absent => default
    case Str(s) => s
    case Other(r) => r
  }

  /** The prefix `format_full_chat` puts before a record's content, by its role. */
  function RolePrefix(role: Field): (p: string)
    ensures role == Str("meta") ==> p == "[meta] "
    ensures role == Str("error") ==> p == "[error] "
    ensures role == Str("system") ==> p == "system> "
    ensures role == Str("user") ==> p == "you> "
    ensures role == Str("assistant") ==> p == "grok> "
    ensures role !in {Str("meta"), Str("error"), Str("system"), Str("user"), Str("assistant")} ==>
              p == Display(role, "unknown") + "> "
  {
    if role == Str("meta") || role == Str("error") then "[" + role.s + "] "
    else if role == Str("system") then "system> "
    else if role == Str("user") then "you> "
    else if role == Str("assistant") then "grok> "
    else Display(role, "unknown") + "> "
  }

  /** The line one record renders as. */
  function ChatLine(obj: Record): string {
    RolePrefix(obj.role) + Display(obj.content, "")
  }

  /** One rendered line per record, in log order. */
  function Rendered(lines: seq<Record>): (r: seq<string>)
    ensures |r| == |lines| && forall k :: 0 <= k < |lines| ==> r[k] == ChatLine(lines[k])
  {
    seq(|lines|, k requires 0 <= k < |lines| => ChatLine(lines[k]))
  }

  /** The lines of `format_full_chat`, header and footer included. */
  function ChatLines(lines: seq<Record>): (out: seq<string>)
    ensures |out| == |lines| + 2 + (if lines == [] then 1 else 0)
    ensures out[0] == HEADER && out[|out| - 1] == FOOTER
  {
    [HEADER] + (if lines == [] then [EMPTY] else Rendered(lines)) + [FOOTER]
  }

  /** `format_full_chat(lines)`. */
  function FormatFullChat(lines: seq<Record>): (r: string)
    ensures |r| >= |HEADER| && r[..|HEADER|] == HEADER
    ensures |r| >= |FOOTER| && r[|r| - |FOOTER|..] == FOOTER
  {
    var parts := ChatLines(lines);
    JoinEnds(parts, "\n");
    Join(parts, "\n")
  }

  /** Each part after the first, preceded by the separator. */
  function Separated(parts: seq<string>, sep: string): (r: seq<string>)
    requires |parts| > 0
    ensures |r| == |parts| - 1
    ensures forall k :: 0 <= k < |r| ==> r[k] == sep + parts[k + 1]
  {
    seq(|parts| - 1, k requires 0 <= k < |parts| - 1 => sep + parts[k + 1])
  }

  /** `sep.join(parts)` is the first part followed by every other part with the separator in front. */
  lemma {:induction false} JoinIsConcat(parts: seq<string>, sep: string)
    requires |parts| > 0
    ensures Join(parts, sep) == parts[0] + Concat(Separated(parts, sep))
    decreases |parts|
  {
    if |parts| == 1 {
      assert Separated(parts, sep) == [];
    } else {
      var rest := parts[1..];
      JoinIsConcat(rest, sep);
      assert Join(parts, sep) == parts[0] + sep + Join(rest, sep);
      assert Separated(parts, sep) == [sep + rest[0]] + Separated(rest, sep);
      ConcatCons(sep + rest[0], Separated(rest, sep));
    }
  }

  /** An empty log renders as exactly the header, "(空)" and the footer. */
  lemma EmptyChat()
    ensures FormatFullChat([]) == HEADER + "\n" + EMPTY + "\n" + FOOTER
  {
    var parts := ChatLines([]);
    assert parts == [HEADER, EMPTY, FOOTER];
    assert parts[1..][1..] == [FOOTER];
  }

  /** Each string with the separator in front. */
  function Prefixed(r: seq<string>, sep: string): (out: seq<string>)
    ensures |out| == |r| && forall k :: 0 <= k < |r| ==> out[k] == sep + r[k]
  {
    seq(|r|, k requires 0 <= k < |r| => sep + r[k])
  }

  /** Joining a framed list: the head, each string with the separator in front, then the separator and the foot. */
  lemma JoinFramed(head: string, r: seq<string>, foot: string, sep: string)
    ensures Join([head] + r + [foot], sep) == head + Concat(Prefixed(r, sep)) + (sep + foot)
  {
    var parts := [head] + r + [foot];
    var out := Separated(parts, sep);
    var pre := Prefixed(r, sep);
    forall k | 0 <= k < |r| ensures out[k] == pre[k] {
      assert parts[k + 1] == r[k];
    }
    assert out[|r|] == sep + foot;
    assert out == pre + [sep + foot];
    JoinIsConcat(parts, sep);
    ConcatAppend(pre, [sep + foot]);
    ConcatOne(sep + foot);
  }

  /**
   * A non-empty log renders as the header, then one line per record in log
   * order, each on its own line, then the footer.
   */
  lemma ChatRendering(lines: seq<Record>)
    requires lines != []
    ensures FormatFullChat(lines) == HEADER + Concat(Prefixed(Rendered(lines), "\n")) + ("\n" + FOOTER)
  {
    assert ChatLines(lines) == [HEADER] + Rendered(lines) + [FOOTER];
    JoinFramed(HEADER, Rendered(lines), FOOTER, "\n");
  }

  // ---------------------------------------------------------------- splitting text into lines

  /** The line boundaries of Python's `str.splitlines`. */
  predicate IsLineBreak(c: char) {
    c == '\n' || c == '\r' || c == '\U{B}' || c == '\U{C}' || c == '\U{1C}' || c == '\U{1D}' || c == '\U{1E}'
    || c == '\U{85}' || c == '\U{2028}' || c == '\U{2029}'
  }

  /** The index of the first line boundary at or after `k`, or `|s|`. */
  function FirstBreak(s: string, k: nat): (b: nat)
    requires k <= |s|
    ensures k <= b <= |s|
    ensures b < |s| ==> IsLineBreak(s[b])
    ensures forall j :: k <= j < b ==> !IsLineBreak(s[j])
    decreases |s| - k
  {
    if k == |s| || IsLineBreak(s[k]) then k else FirstBreak(s, k + 1)
  }

  /**
   * A piece of `splitlines(keepends=True)`: non-empty, with no line boundary
   * before its ending, which is one boundary character, "\r\n", or nothing
   * (the text's last line may lack an ending).
   */
  predicate IsLine(l: string) {
    && l != ""
    && ((forall j :: 0 <= j < |l| - 1 ==> !IsLineBreak(l[j]))
        || (|l| >= 2 && l[|l| - 2] == '\r' && l[|l| - 1] == '\n' && forall j :: 0 <= j < |l| - 2 ==> !IsLineBreak(l[j])))
  }

  /** The length of the first line of `s`, its line ending ("\r\n" counts as one) included. */
  function LineLength(s: string): (n: nat)
    requires |s| > 0
    ensures 1 <= n <= |s|
    ensures IsLine(s[..n])
    ensures n < |s| ==> IsLineBreak(s[n - 1])
    ensures n < |s| && s[n - 1] == '\r' ==> s[n] != '\n'
  {
    var b := FirstBreak(s, 0);
    if b == |s| then |s|
    else if s[b] == '\r' && b + 1 < |s| && s[b + 1] == '\n' then b + 2
    else b + 1
  }

  /** `s.splitlines(keepends=True)`. */
  function SplitLines(s: string): (lines: seq<string>)
    ensures forall k :: 0 <= k < |lines| ==> lines[k] != ""
    decreases |s|
  {
    if s == [] then []
    else
      var n := LineLength(s);
      [s[..n]] + SplitLines(s[n..])
  }

  /**
   * Every piece `SplitLines` cuts is one line; every piece but the last ends
   * at a line boundary, and a "\r" ending is never followed by a piece that
   * starts with "\n" (that pair is one boundary).
   */
  predicate WellCut(lines: seq<string>) {
    && (forall k :: 0 <= k < |lines| ==> IsLine(lines[k]))
    && (forall k :: 0 <= k < |lines| - 1 ==> IsLineBreak(lines[k][|lines[k]| - 1]))
    && (forall k :: 0 <= k < |lines| - 1 && lines[k][|lines[k]| - 1] == '\r' ==> lines[k + 1][0] != '\n')
  }

  lemma {:induction false} SplitLinesWellCut(s: string)
    ensures WellCut(SplitLines(s))
    decreases |s|
  {
    if s != [] {
      var n := LineLength(s);
      var head, rest := s[..n], s[n..];
      var tail := SplitLines(rest);
      assert SplitLines(s) == [head] + tail;
      SplitLinesWellCut(rest);
      assert tail != [] ==> tail[0][0] == s[n];
      var lines := [head] + tail;
      assert forall k :: 1 <= k < |lines| ==> lines[k] == tail[k - 1];
    }
  }

  /** Putting a string in front of the parts puts it in front of their concatenation. */
  lemma ConcatCons(head: string, tail: seq<string>)
    ensures Concat([head] + tail) == head + Concat(tail)
  {
    ConcatAppend([head], tail);
    ConcatOne(head);
  }

  /** Keeping the line endings, the lines put back together give the text. */
  lemma {:induction false} SplitLinesConcat(s: string)
    ensures Concat(SplitLines(s)) == s
    decreases |s|
  {
    if s != [] {
      var n := LineLength(s);
      var head, rest := s[..n], s[n..];
      var tail := SplitLines(rest);
      assert SplitLines(s) == [head] + tail;
      SplitLinesConcat(rest);
      ConcatCons(head, tail);
      assert head + rest == s;
    }
  }

  /** No line boundary from `k` on: the first boundary is the end of the text. */
  lemma {:induction false} NoBreakFrom(s: string, k: nat)
    requires k <= |s| && forall j :: k <= j < |s| ==> !IsLineBreak(s[j])
    ensures FirstBreak(s, k) == |s|
    decreases |s| - k
  {
    if k < |s| {
      NoBreakFrom(s, k + 1);
    }
  }

  /** A text without line boundaries is a single line. */
  lemma OneLine(s: string)
    requires s != [] && forall j :: 0 <= j < |s| ==> !IsLineBreak(s[j])
    ensures SplitLines(s) == [s]
  {
    NoBreakFrom(s, 0);
    assert LineLength(s) == |s|;
    assert s[|s|..] == [] && s[..|s|] == s;
  }

  // ---------------------------------------------------------------- chunking long text

  /**
   * One iteration of the loop of `send_long_text`, on the chunks sent so far
   * and the buffer. As written, the buffer is flushed whenever the next line
   * would overflow it, even when it is empty; `skipEmpty` flushes only a
   * non-empty one.
   */
  function FoldStep(acc: (seq<string>, string), ln: string, skipEmpty: bool): (seq<string>, string) {
    if |acc.1| + |ln| > TELEGRAM_MAX && (acc.1 != "" || !skipEmpty) then (acc.0 + [acc.1], ln)
    else (acc.0, acc.1 + ln)
  }

  /** The loop over all the lines. */
  function Fold(lines: seq<string>, skipEmpty: bool): (seq<string>, string)
    decreases |lines|
  {
    if lines == [] then ([], "")
    else FoldStep(Fold(lines[..|lines| - 1], skipEmpty), lines[|lines| - 1], skipEmpty)
  }

  /** The chunks sent: those of the loop, then the buffer if it is not empty. */
  function Chunks(lines: seq<string>, skipEmpty: bool): seq<string> {
    var acc := Fold(lines, skipEmpty);
    if acc.1 != "" then acc.0 + [acc.1] else acc.0
  }

  /**
   * `send_long_text(update, text)`: the texts passed to `reply_text`, in
   * order; nothing when the update has no message.
   */
  method SendLongText(text: string, hasMessage: bool) returns (sent: seq<string>)
    ensures sent == if hasMessage then Chunks(SplitLines(text), false) else []
  {
    if !hasMessage {
      return [];
    }
    var lines := SplitLines(text);
    var buf := "";
    sent := [];
    for i := 0 to |lines|
      invariant (sent, buf) == Fold(lines[..i], false)
    {
      assert lines[..i + 1][..i] == lines[..i];
      var ln := lines[i];
      if |buf| + |ln| > TELEGRAM_MAX {
        sent := sent + [buf];
        buf := "";
      }
      buf := buf + ln;
      assert buf == FoldStep(Fold(lines[..i], false), ln, false).1;
    }
    assert lines[..|lines|] == lines;
    if buf != "" {
      sent := sent + [buf];
    }
  }

  /** A sequence of one string concatenates to that string. */
  lemma ConcatOne(s: string)
    ensures Concat([s]) == s
  {
    assert [s][..0] == [];
  }

  /** Nothing is lost or duplicated: the chunks put back together give the lines put together. */
  lemma {:induction false} FoldConcat(lines: seq<string>, skipEmpty: bool)
    ensures Concat(Fold(lines, skipEmpty).0) + Fold(lines, skipEmpty).1 == Concat(lines)
    decreases |lines|
  {
    if lines != [] {
      var init := lines[..|lines| - 1];
      FoldConcat(init, skipEmpty);
      var acc := Fold(init, skipEmpty);
      var ln := lines[|lines| - 1];
      assert lines == init + [ln];
      ConcatAppend(init, [ln]);
      ConcatAppend(acc.0, [acc.1]);
      ConcatOne(ln);
      ConcatOne(acc.1);
    }
  }

  /** The chunks put back together give the text, and an empty text sends nothing. */
  lemma ChunksConcat(text: string, skipEmpty: bool)
    ensures Concat(Chunks(SplitLines(text), skipEmpty)) == text
    ensures text == "" ==> Chunks(SplitLines(text), skipEmpty) == []
  {
    var lines := SplitLines(text);
    FoldConcat(lines, skipEmpty);
    SplitLinesConcat(text);
    var acc := Fold(lines, skipEmpty);
    if acc.1 != "" {
      ConcatAppend(acc.0, [acc.1]);
      ConcatOne(acc.1);
    }
  }

  /** A chunk fits in one message unless it is a single line that is longer by itself. */
  predicate Fits(c: string, lines: seq<string>) {
    |c| <= TELEGRAM_MAX || c in lines
  }

  lemma {:induction false} FoldFits(lines: seq<string>, skipEmpty: bool)
    ensures forall c :: c in Fold(lines, skipEmpty).0 ==> Fits(c, lines)
    ensures Fits(Fold(lines, skipEmpty).1, lines)
    decreases |lines|
  {
    if lines != [] {
      var init := lines[..|lines| - 1];
      var ln := lines[|lines| - 1];
      FoldFits(init, skipEmpty);
      assert forall c :: c in init ==> c in lines;
      assert ln in lines;
      assert "" + ln == ln;
    }
  }

  /** Every chunk is at most 3900 characters long, unless it is one line that is longer by itself. */
  lemma ChunksFit(text: string, skipEmpty: bool)
    ensures forall c :: c in Chunks(SplitLines(text), skipEmpty) ==>
              |c| <= TELEGRAM_MAX || (c in SplitLines(text) && |c| > TELEGRAM_MAX)
  {
    FoldFits(SplitLines(text), skipEmpty);
  }

  /** With empty buffers never flushed, no chunk is empty. */
  lemma {:induction false} FoldNonEmpty(lines: seq<string>)
    requires forall k :: 0 <= k < |lines| ==> lines[k] != ""
    ensures forall c :: c in Fold(lines, true).0 ==> c != ""
    decreases |lines|
  {
    if lines != [] {
      FoldNonEmpty(lines[..|lines| - 1]);
    }
  }

  /** The corrected chunking sends no empty message. */
  lemma FixedChunksNonEmpty(text: string)
    ensures forall c :: c in Chunks(SplitLines(text), true) ==> c != ""
  {
    FoldNonEmpty(SplitLines(text));
  }

  /**
   * As written, a text made of one line longer than 3900 characters makes
   * `send_long_text` send an empty message first; the corrected chunking
   * sends the line alone.
   */
  lemma EmptyChunkSent(text: string)
    requires |text| > TELEGRAM_MAX && forall j :: 0 <= j < |text| ==> !IsLineBreak(text[j])
    ensures Chunks(SplitLines(text), false) == ["", text]
    ensures Chunks(SplitLines(text), true) == [text]
  {
    OneLine(text);
    assert [text][..0] == [];
    assert "" + text == text;
    var start := Fold([], false);
    assert start == ([], "");
    assert Fold([text], false) == FoldStep(start, text, false);
    assert Fold([text], true) == FoldStep(Fold([], true), text, true);
  }

  /** The input that shows it: 3901 times 'a'. */
  lemma EmptyChunkExample()
    ensures var text := seq(TELEGRAM_MAX + 1, _ => 'a');
            Chunks(SplitLines(text), false)[0] == ""
  {
    var text := seq(TELEGRAM_MAX + 1, _ => 'a');
    EmptyChunkSent(text);
  }

  // ---------------------------------------------------------------- the message-list edits

  /** `ChatState`: the chat's log file, its system prompt and the message list sent to the model. */
  datatype ChatState = ChatState(logFile: string, systemPrompt: string, messages: seq<ChatMessage>)

  /** What one `llm.invoke(messages)` does: it raises (with the "[ERROR] …" text built from it) or answers. */
  datatype Llm = Fails(error: string) | Answers(text: string)

  const RESET := "重置"
  const REGENERATE := "刷新"
  const REWRITE := "重写消息"

  const RESET_DONE := "(已清空该会话文件的所有聊天记录与上下文)"
  const NOTHING_TO_REGENERATE := "(当前没有可刷新的上一条回复)"
  const NOT_ASSISTANT := "(上一条不是 assistant 回复，无法刷新)"
  const REWRITE_DONE := "(已删除上一轮对话，你可以重新输入这一轮内容)"
  const NOTHING_TO_REWRITE := "(没有可删除的上一轮对话)"
  const REGENERATED := "regenerate_last_assistant"

  /** Whether "刷新" has an assistant message to regenerate. */
  predicate CanRegenerate(msgs: seq<ChatMessage>) {
    |msgs| >= 3 && msgs[|msgs| - 1].AI?
  }

  /** "刷新" on the message list: drop the last assistant message and, if the model answers, put the new one in its place. */
  function Regenerate(msgs: seq<ChatMessage>, llm: Llm): (r: seq<ChatMessage>)
    ensures !CanRegenerate(msgs) ==> r == msgs
    ensures CanRegenerate(msgs) && llm.Answers? ==>
              |r| == |msgs| && r[..|r| - 1] == msgs[..|msgs| - 1] && r[|r| - 1] == AI(llm.text)
    ensures CanRegenerate(msgs) && llm.Fails? ==> r == msgs[..|msgs| - 1]
  {
    if !CanRegenerate(msgs) then msgs
    else
      var popped := msgs[..|msgs| - 1];
      match llm
      case Fails(_) => popped
      case Answers(t) => popped + [AI(t)]
  }

  /** Pops the last message if it is of the wanted kind and at least two messages are there. */
  function PopIf(msgs: seq<ChatMessage>, ai: bool): (r: seq<ChatMessage>)
    ensures r == msgs || (|msgs| >= 2 && r == msgs[..|msgs| - 1])
    ensures |msgs| >= 2 && ai && msgs[|msgs| - 1].AI? ==> r == msgs[..|msgs| - 1]
    ensures |msgs| >= 2 && !ai && msgs[|msgs| - 1].Human? ==> r == msgs[..|msgs| - 1]
    ensures |msgs| < 2 || (ai && !msgs[|msgs| - 1].AI?) || (!ai && !msgs[|msgs| - 1].Human?) ==> r == msgs
  {
    if |msgs| >= 2 && (if ai then msgs[|msgs| - 1].AI? else msgs[|msgs| - 1].Human?) then msgs[..|msgs| - 1]
    else msgs
  }

  /** "重写消息" on the message list: a trailing assistant message, then a trailing user message, are popped. */
  function Rewrite(msgs: seq<ChatMessage>): (r: seq<ChatMessage>)
    ensures |r| <= |msgs| <= |r| + 2 && r == msgs[..|r|]
    ensures |msgs| >= 1 ==> |r| >= 1 && r[0] == msgs[0]
    ensures |msgs| >= 3 && msgs[|msgs| - 1].AI? && msgs[|msgs| - 2].Human? ==> r == msgs[..|msgs| - 2]
    ensures |msgs| >= 2 && !msgs[|msgs| - 1].AI? && !msgs[|msgs| - 1].Human? ==> r == msgs
    ensures |msgs| >= 2 && msgs[|msgs| - 1].Human? ==> r == msgs[..|msgs| - 1]
    ensures |msgs| >= 2 && msgs[|msgs| - 1].AI? && !(|msgs| >= 3 && msgs[|msgs| - 2].Human?) ==>
              r == msgs[..|msgs| - 1]
    ensures |msgs| < 2 ==> r == msgs
  {
    PopIf(PopIf(msgs, true), false)
  }

  /** An ordinary turn on the message list: the user's message, then the answer if the model gives one. */
  function Converse(msgs: seq<ChatMessage>, userIn: string, llm: Llm): (r: seq<ChatMessage>)
    ensures |r| == |msgs| + (if llm.Answers? then 2 else 1)
    ensures r[..|msgs|] == msgs && r[|msgs|] == Human(userIn)
    ensures llm.Answers? ==> r[|msgs| + 1] == AI(llm.text)
  {
    var asked := msgs + [Human(userIn)];
    match llm
    case Fails(_) => asked
    case Answers(t) => asked + [AI(t)]
  }

  /** What `handle_text` makes of a stripped, non-empty input. */
  datatype Command = ResetCmd | RegenerateCmd | RewriteCmd | Say(text: string)

  function CommandOf(userIn: string): (c: Command)
    ensures c.Say? <==> userIn != RESET && userIn != REGENERATE && userIn != REWRITE
    ensures c.Say? ==> c.text == userIn
  {
    if userIn == RESET then ResetCmd
    else if userIn == REGENERATE then RegenerateCmd
    else if userIn == REWRITE then RewriteCmd
    else Say(userIn)
  }

  /** The message list after `handle_text`. */
  function EditMessages(st: ChatState, cmd: Command, llm: Llm): seq<ChatMessage> {
    match cmd
    case ResetCmd => [System(st.systemPrompt)]
    case RegenerateCmd => Regenerate(st.messages, llm)
    case RewriteCmd => Rewrite(st.messages)
    case Say(userIn) => Converse(st.messages, userIn, llm)
  }

  // ---------------------------------------------------------------- the log-file effects

  /** `append_log(fp, role, content)` on the records of `fp`. */
  function Appended(lines: seq<Record>, role: string, content: string, now: string): (r: seq<Record>)
    ensures |r| == |lines| + 1 && r[..|lines|] == lines
    ensures r[|lines|] == Record(Str(now), Str(role), Str(content))
  {
    lines + [Record(Str(now), Str(role), Str(content))]
  }

  /** `write_session_header(fp, system_prompt)`: the meta record, then the system record. */
  function WithHeader(lines: seq<Record>, meta: string, systemPrompt: string, now: string): seq<Record> {
    Appended(Appended(lines, "meta", meta, now), "system", systemPrompt, now)
  }

  /** The reply to a model call: the answer, or the error text. */
  function LlmReply(llm: Llm): string {
    match llm
    case Fails(err) => err
    case Answers(t) => t
  }

  /** "刷新" on the log: None when refused, else the error record, or the replaced reply and a meta record. */
  function RegenerateLog(msgs: seq<ChatMessage>, lines: seq<Record>, llm: Llm, now: string): Option<seq<Record>> {
    if !CanRegenerate(msgs) then None
    else match llm
      case Fails(err) => Some(Appended(lines, "error", err, now))
      case Answers(t) => Some(Appended(ReplacedLog(lines, t, now), "meta", REGENERATED, now))
  }

  function RegenerateReply(msgs: seq<ChatMessage>, llm: Llm): string {
    if |msgs| < 3 then NOTHING_TO_REGENERATE
    else if !msgs[|msgs| - 1].AI? then NOT_ASSISTANT
    else LlmReply(llm)
  }

  /** "重写消息" on the log: the last turn removed, or None when it has no user record. */
  function RewriteLog(lines: seq<Record>): Option<seq<Record>> {
    match TurnToDrop(lines)
    case None => None
    case Some(drop) => Some(Without(lines, drop))
  }

  function RewriteReply(msgs: seq<ChatMessage>, lines: seq<Record>): string {
    if Rewrite(msgs) != msgs || TurnToDrop(lines).Some? then REWRITE_DONE else NOTHING_TO_REWRITE
  }

  /** An ordinary turn on the log: the user record, then the assistant or the error record. */
  function TalkLog(lines: seq<Record>, userIn: string, llm: Llm, now: string): seq<Record> {
    Appended(Appended(lines, "user", userIn, now), if llm.Answers? then "assistant" else "error", LlmReply(llm), now)
  }

  /**
   * The records `handle_text` leaves in the chat's log file, or None when it
   * does not write it (the refusals of "刷新", and "重写消息" when the log
   * has no user record).
   */
  function EditLog(st: ChatState, lines: seq<Record>, cmd: Command, llm: Llm, now: string, meta: string)
    : Option<seq<Record>>
  {
    match cmd
    case ResetCmd => Some(WithHeader([], meta, st.systemPrompt, now))
    case RegenerateCmd => RegenerateLog(st.messages, lines, llm, now)
    case RewriteCmd => RewriteLog(lines)
    case Say(userIn) => Some(TalkLog(lines, userIn, llm, now))
  }

  /** The reply `handle_text` sends. */
  function EditReply(st: ChatState, lines: seq<Record>, cmd: Command, llm: Llm): string {
    match cmd
    case ResetCmd => RESET_DONE
    case RegenerateCmd => RegenerateReply(st.messages, llm)
    case RewriteCmd => RewriteReply(st.messages, lines)
    case Say(_) => LlmReply(llm)
  }

  /** The files after writing `written` (if anything) to `fp`. */
  function Written(files: map<string, seq<Record>>, fp: string, written: Option<seq<Record>>)
    : (r: map<string, seq<Record>>)
    ensures written.None? ==> r == files
    ensures written.Some? ==> fp in r && r[fp] == written.value
    ensures forall n :: n != fp ==> (n in r <==> n in files) && (n in files ==> r[n] == files[n])
  {
    if written.Some? then files[fp := written.value] else files
  }

  /** The messages say what the log says: the system prompt, then the turns recorded in the log. */
  predicate InStep(st: ChatState, lines: seq<Record>) {
    st.messages == RebuildMessages(lines, st.systemPrompt)
  }

  /** The turn one appended record adds: a user or an assistant message, or nothing. */
  lemma AppendedTurn(lines: seq<Record>, role: string, content: string, now: string)
    ensures Turns(Appended(lines, role, content, now))
         == Turns(lines) + (if role == "user" then [Human(content)] else if role == "assistant" then [AI(content)] else [])
  {
    assert Appended(lines, role, content, now)[..|lines|] == lines;
  }

  /** A session header adds no turn. */
  lemma HeaderNoTurns(lines: seq<Record>, meta: string, systemPrompt: string, now: string)
    ensures Turns(WithHeader(lines, meta, systemPrompt, now)) == Turns(lines)
  {
    AppendedTurn(lines, "meta", meta, now);
    AppendedTurn(Appended(lines, "meta", meta, now), "system", systemPrompt, now);
  }

  /** "重置" leaves the messages and the log in step. */
  lemma ResetInStep(st: ChatState, lines: seq<Record>, llm: Llm, now: string, meta: string)
    ensures var out := EditLog(st, lines, ResetCmd, llm, now, meta);
            out.Some? && InStep(st.(messages := EditMessages(st, ResetCmd, llm)), out.value)
  {
    HeaderNoTurns([], meta, st.systemPrompt, now);
  }

  /** An ordinary turn keeps the messages and the log in step when they were in step. */
  lemma ConverseInStep(st: ChatState, lines: seq<Record>, userIn: string, llm: Llm, now: string, meta: string)
    requires InStep(st, lines)
    ensures var out := EditLog(st, lines, Say(userIn), llm, now, meta);
            out.Some? && InStep(st.(messages := EditMessages(st, Say(userIn), llm)), out.value)
  {
    var asked := Appended(lines, "user", userIn, now);
    AppendedTurn(lines, "user", userIn, now);
    AppendedTurn(asked, if llm.Answers? then "assistant" else "error", LlmReply(llm), now);
  }

  /**
   * A failed "刷新" is the one edit that puts them out of step: the assistant
   * message is gone from the list but its record stays in the log.
   */
  lemma FailedRegenerateOutOfStep(st: ChatState, lines: seq<Record>, err: string, now: string, meta: string)
    requires InStep(st, lines) && CanRegenerate(st.messages)
    ensures var out := EditLog(st, lines, RegenerateCmd, Fails(err), now, meta);
            out.Some? && !InStep(st.(messages := EditMessages(st, RegenerateCmd, Fails(err))), out.value)
  {
    var out := Appended(lines, "error", err, now);
    TurnsIgnore(lines, Record(Str(now), Str("error"), Str(err)));
    assert |RebuildMessages(out, st.systemPrompt)| == |st.messages|;
  }

  // ---------------------------------------------------------------- opening a chat

  /** The records of `fp`, none if it does not exist (`read_log_lines`). */
  function LogOf(files: map<string, seq<Record>>, fp: string): seq<Record> {
    if fp in files then files[fp] else []
  }

  /** The session file `get_or_init_state` resumes: the last of `list_session_files()`, if any. */
  function Latest(listing: seq<string>): Option<string> {
    var existing := SortByNumber(SessionNames(listing));
    if existing == [] then None else Some(existing[|existing| - 1])
  }

  /**
   * The state `get_or_init_state` creates for a chat it has not seen, and the
   * files after it: the highest-numbered session file of the directory
   * `listing`, resumed (a header is written if it holds no record), or a new
   * file with a header when there is none.
   */
  function InitState(files: map<string, seq<Record>>, listing: seq<string>, meta: string, now: string)
    : (ChatState, map<string, seq<Record>>)
  {
    match Latest(listing)
    case Some(fp) =>
      var lines := LogOf(files, fp);
      if lines == [] then
        (ChatState(fp, SYSTEM_DEFAULT, RebuildMessages([], SYSTEM_DEFAULT)),
         files[fp := WithHeader([], meta, SYSTEM_DEFAULT, now)])
      else
        var prompt := SystemPromptOf(lines);
        (ChatState(fp, prompt, RebuildMessages(lines, prompt)), files)
    case None =>
      var fp := NextName(listing);
      (ChatState(fp, SYSTEM_DEFAULT, [System(SYSTEM_DEFAULT)]),
       files[fp := WithHeader(LogOf(files, fp), meta, SYSTEM_DEFAULT, now)])
  }

  /**
   * A new chat resumes the highest-numbered session file, or starts a fresh
   * file ("1.jsonl" in an empty directory) when there is none.
   */
  lemma InitStateFile(files: map<string, seq<Record>>, listing: seq<string>, meta: string, now: string)
    ensures var fp := InitState(files, listing, meta, now).0.logFile;
            && IsSessionName(fp)
            && (SessionNames(listing) != [] ==>
                  fp in listing && forall x :: x in listing && IsSessionName(x) ==> Number(x) <= Number(fp))
            && (SessionNames(listing) == [] ==> fp == "1.jsonl")
  {
    InitStateLogFile(files, listing, meta, now);
    if SessionNames(listing) != [] {
      HighestLast(listing);
    } else {
      NextNameFresh(listing);
    }
  }

  lemma InitStateLogFile(files: map<string, seq<Record>>, listing: seq<string>, meta: string, now: string)
    ensures InitState(files, listing, meta, now).0.logFile
            == if Latest(listing).Some? then Latest(listing).value else NextName(listing)
  {
  }

  /** Either way, the new chat's messages are what its log rebuilds to. */
  lemma InitStateInStep(files: map<string, seq<Record>>, listing: seq<string>, meta: string, now: string)
    requires forall n :: n in files ==> n in listing
    ensures var r := InitState(files, listing, meta, now);
            r.0.logFile in r.1 && InStep(r.0, r.1[r.0.logFile])
  {
    HeaderNoTurns([], meta, SYSTEM_DEFAULT, now);
    if Latest(listing).None? {
      NextNameFresh(listing);
    }
  }

  /**
   * What `get_or_init_state` hands back, with the log files after it: the
   * cached state of a known chat, or a new one built from the data directory.
   */
  function Fetched(chats: map<int, ChatState>, files: map<string, seq<Record>>, chatId: int,
                   listing: seq<string>, meta: string, now: string)
    : (ChatState, map<string, seq<Record>>)
  {
    if chatId in chats then (chats[chatId], files) else InitState(files, listing, meta, now)
  }

  /** Caching a chat's state and then replacing it is the same as caching the replacement. */
  lemma RecachedState(chats: map<int, ChatState>, chatId: int, st: ChatState, st': ChatState)
    ensures chats[chatId := st][chatId := st'] == chats[chatId := st']
  {
  }

  /** The chat states (`STATE`) and the log files of the data directory. */
  class Bot {
    /** `STATE`: the cached state of each chat. */
    var chats: map<int, ChatState>
    /** The log files of the data directory, by name, as the records they hold. */
    var files: map<string, seq<Record>>
    /** The content of the "meta" record `write_session_header` writes. */
    const meta: string

    constructor (files: map<string, seq<Record>>, meta: string)
      ensures this.chats == map[] && this.files == files && this.meta == meta
    {
      this.chats := map[];
      this.files := files;
      this.meta := meta;
    }

    function Log(fp: string): seq<Record>
      reads this
    {
      LogOf(files, fp)
    }

    /** `append_log(fp, role, content)`; `now` is the clock value. */
    method AppendLog(fp: string, role: string, content: string, now: string)
      modifies this
      ensures files == old(files)[fp := Appended(old(Log(fp)), role, content, now)]
      ensures chats == old(chats)
    {
      files := files[fp := Appended(Log(fp), role, content, now)];
    }

    /** `write_session_header(fp, system_prompt)`. */
    method WriteSessionHeader(fp: string, systemPrompt: string, now: string)
      modifies this
      ensures files == old(files)[fp := WithHeader(old(Log(fp)), meta, systemPrompt, now)]
      ensures chats == old(chats)
    {
      AppendLog(fp, "meta", meta, now);
      AppendLog(fp, "system", systemPrompt, now);
    }

    /** The part of `get_or_init_state` that runs for a chat not seen before. */
    method NewState(listing: seq<string>, now: string) returns (st: ChatState)
      modifies this
      ensures (st, files) == InitState(old(files), listing, meta, now)
      ensures chats == old(chats)
    {
      var existing := ListSessionFiles(listing);
      if existing != [] {
        var fp := existing[|existing| - 1];
        var lines := Log(fp);
        var systemPrompt := SYSTEM_DEFAULT;
        if lines != [] {
          systemPrompt := ExtractSystemPrompt(lines);
        } else {
          WriteSessionHeader(fp, systemPrompt, now);
        }
        st := ChatState(fp, systemPrompt, RebuildMessages(lines, systemPrompt));
      } else {
        var fp := NextSessionFile(listing);
        WriteSessionHeader(fp, SYSTEM_DEFAULT, now);
        st := ChatState(fp, SYSTEM_DEFAULT, [System(SYSTEM_DEFAULT)]);
      }
    }

    /**
     * `get_or_init_state(chat_id)`: the cached state, or a new one that is
     * cached from then on; `listing` is the directory listing and `now` the clock.
     */
    method GetOrInitState(chatId: int, listing: seq<string>, now: string) returns (st: ChatState)
      modifies this
      ensures chats == old(chats)[chatId := st]
      ensures (st, files) == Fetched(old(chats), old(files), chatId, listing, meta, now)
    {
      if chatId in chats {
        return chats[chatId];
      }
      st := NewState(listing, now);
      chats := chats[chatId := st];
    }

    /** "重置": the log is emptied and given a new header; the messages start over. */
    method Reset(chatId: int, now: string)
      requires chatId in chats
      modifies this
      ensures var st := old(chats[chatId]);
              && chats == old(chats)[chatId := st.(messages := [System(st.systemPrompt)])]
              && files == old(files)[st.logFile := WithHeader([], meta, st.systemPrompt, now)]
    {
      var st := chats[chatId];
      files := files[st.logFile := []];
      WriteSessionHeader(st.logFile, st.systemPrompt, now);
      chats := chats[chatId := st.(messages := [System(st.systemPrompt)])];
    }

    /** "刷新". */
    method RegenerateLast(chatId: int, llm: Llm, now: string) returns (reply: string)
      requires chatId in chats
      modifies this
      ensures var st := old(chats[chatId]);
              && chats == old(chats)[chatId := st.(messages := Regenerate(st.messages, llm))]
              && files == Written(old(files), st.logFile, RegenerateLog(st.messages, old(Log(st.logFile)), llm, now))
              && reply == RegenerateReply(st.messages, llm)
    {
      var st := chats[chatId];
      var fp := st.logFile;
      if |st.messages| < 3 {
        return NOTHING_TO_REGENERATE;
      }
      if !st.messages[|st.messages| - 1].AI? {
        return NOT_ASSISTANT;
      }
      var messages := st.messages[..|st.messages| - 1];
      chats := chats[chatId := st.(messages := messages)];
      ghost var lines := Log(fp);
      match llm {
        case Fails(err) =>
          AppendLog(fp, "error", err, now);
          assert RegenerateLog(st.messages, lines, llm, now) == Some(Appended(lines, "error", err, now));
          return err;
        case Answers(t) =>
          chats := chats[chatId := st.(messages := messages + [AI(t)])];
          var replaced := ReplaceLastAssistant(Log(fp), t, now);
          files := files[fp := replaced];
          AppendLog(fp, "meta", REGENERATED, now);
          assert RegenerateLog(st.messages, lines, llm, now) == Some(Appended(replaced, "meta", REGENERATED, now));
          return t;
      }
    }

    /** "重写消息". */
    method RewriteLast(chatId: int) returns (reply: string)
      requires chatId in chats
      modifies this
      ensures var st := old(chats[chatId]);
              && chats == old(chats)[chatId := st.(messages := Rewrite(st.messages))]
              && files == Written(old(files), st.logFile, RewriteLog(old(Log(st.logFile))))
              && reply == RewriteReply(st.messages, old(Log(st.logFile)))
    {
      var st := chats[chatId];
      var messages := st.messages;
      var removedMem := false;
      if |messages| >= 2 && messages[|messages| - 1].AI? {
        messages := messages[..|messages| - 1];
        removedMem := true;
      }
      if |messages| >= 2 && messages[|messages| - 1].Human? {
        messages := messages[..|messages| - 1];
        removedMem := true;
      }
      assert removedMem <==> messages != st.messages;
      chats := chats[chatId := st.(messages := messages)];
      var removedFile, out := DeleteLastTurn(Log(st.logFile));
      if removedFile {
        files := files[st.logFile := out];
      }
      reply := if removedMem || removedFile then REWRITE_DONE else NOTHING_TO_REWRITE;
    }

    /** An ordinary turn: the user's message is recorded, then the answer or the error. */
    method Talk(chatId: int, userIn: string, llm: Llm, now: string) returns (reply: string)
      requires chatId in chats
      modifies this
      ensures var st := old(chats[chatId]);
              && chats == old(chats)[chatId := st.(messages := Converse(st.messages, userIn, llm))]
              && files == old(files)[st.logFile := TalkLog(old(Log(st.logFile)), userIn, llm, now)]
              && reply == LlmReply(llm)
    {
      var st := chats[chatId];
      chats := chats[chatId := st.(messages := st.messages + [Human(userIn)])];
      AppendLog(st.logFile, "user", userIn, now);
      match llm {
        case Fails(err) =>
          AppendLog(st.logFile, "error", err, now);
          return err;
        case Answers(t) =>
          assert st.messages + [Human(userIn), AI(t)] == Converse(st.messages, userIn, llm);
          chats := chats[chatId := st.(messages := st.messages + [Human(userIn), AI(t)])];
          AppendLog(st.logFile, "assistant", t, now);
          return t;
      }
    }

    /** The body of `handle_text` once the chat's state exists and the input is stripped and non-empty. */
    method Respond(chatId: int, userIn: string, llm: Llm, now: string) returns (reply: string)
      requires chatId in chats
      modifies this
      ensures var st := old(chats[chatId]);
              && chats == old(chats)[chatId := st.(messages := EditMessages(st, CommandOf(userIn), llm))]
              && files == Written(old(files), st.logFile, EditLog(st, old(Log(st.logFile)), CommandOf(userIn), llm, now, meta))
              && reply == EditReply(st, old(Log(st.logFile)), CommandOf(userIn), llm)
    {
      match CommandOf(userIn) {
        case ResetCmd =>
          Reset(chatId, now);
          reply := RESET_DONE;
        case RegenerateCmd =>
          reply := RegenerateLast(chatId, llm, now);
        case RewriteCmd =>
          reply := RewriteLast(chatId);
        case Say(_) =>
          reply := Talk(chatId, userIn, llm, now);
      }
    }

    /**
     * `handle_text(update, context)`: nothing for a message without text;
     * otherwise the chat's state is fetched or created, and a stripped input
     * that is not blank is answered.
     */
    method HandleText(chatId: int, text: Option<string>, listing: seq<string>, llm: Llm, now: string)
      returns (reply: Option<string>)
      modifies this
      ensures text.None? || text == Some("") ==> chats == old(chats) && files == old(files) && reply.None?
      ensures text.Some? && text.value != "" ==> chatId in chats
      ensures reply.Some? <==> text.Some? && Strip(text.value) != ""
      ensures forall c :: c != chatId ==> (c in chats <==> c in old(chats))
      ensures forall c :: c != chatId && c in chats ==> chats[c] == old(chats)[c]
      ensures text.Some? && text.value != "" && Strip(text.value) == "" ==>
                var f := Fetched(old(chats), old(files), chatId, listing, meta, now);
                chats == old(chats)[chatId := f.0] && files == f.1
      ensures text.Some? && Strip(text.value) != "" ==>
                var f := Fetched(old(chats), old(files), chatId, listing, meta, now);
                chats == old(chats)[chatId := f.0.(messages := EditMessages(f.0, CommandOf(Strip(text.value)), llm))]
      ensures text.Some? && Strip(text.value) != "" ==>
                var f := Fetched(old(chats), old(files), chatId, listing, meta, now);
                var lines := LogOf(f.1, f.0.logFile);
                && files == Written(f.1, f.0.logFile, EditLog(f.0, lines, CommandOf(Strip(text.value)), llm, now, meta))
                && reply == Some(EditReply(f.0, lines, CommandOf(Strip(text.value)), llm))
    {
      if text.None? || text.value == "" {
        return None;
      }
      var st := GetOrInitState(chatId, listing, now);
      ghost var files0 := files;
      assert (st, files0) == Fetched(old(chats), old(files), chatId, listing, meta, now);
      var userIn := Strip(text.value);
      if userIn == "" {
        return None;
      }
      var r := Respond(chatId, userIn, llm, now);
      RecachedState(old(chats), chatId, st, st.(messages := EditMessages(st, CommandOf(userIn), llm)));
      reply := Some(r);
    }
  }
}
