/**
 * The chat-log operations of the console chat script (tests/grok_talking.py):
 * a log is the sequence of JSON records read from a session file, one per
 * line; the operations find, replace and delete records, recover the system
 * prompt, rebuild the message list for the model, and number session files.
 */
module ChatLog {
  import opened Wrappers
  import opened Text

  /** A field of a JSON record: missing, a string, or any other JSON value, kept as the text `str()` gives for it. */
  datatype Field = Absent | Str(s: string) | Other(repr: string)

  /** A log record: its "ts_utc", "role" and "content" fields (other keys are not modelled). */
  datatype Record = Record(ts: Field, role: Field, content: Field)

  const SYSTEM_DEFAULT := "You are Grok. Answer clearly and helpfully. If you need more details, ask concise questions."

  /** Which records a backward search looks for. */
  datatype Pick =
    | Role(name: string)   // `obj.get("role") == name`
    | SystemText           // a "system" record whose content is a string

  predicate Picks(p: Pick, r: Record) {
    match p
    case Role(name) => r.role == Str(name)
    case SystemText => r.role == Str("system") && r.content.Str?
  }

  /** The index of the last record that `p` picks, if any. */
  function LastMatch(lines: seq<Record>, p: Pick): (r: Option<nat>)
    ensures r.Some? ==> r.value < |lines| && Picks(p, lines[r.value])
    ensures r.Some? ==> forall k :: r.value < k < |lines| ==> !Picks(p, lines[k])
    ensures r.None? ==> forall k :: 0 <= k < |lines| ==> !Picks(p, lines[k])
    decreases |lines|
  {
    if lines == [] then None
    else if Picks(p, lines[|lines| - 1]) then Some(|lines| - 1)
    else LastMatch(lines[..|lines| - 1], p)
  }

  /** A picked record with no picked record after it is the last match. */
  lemma LastMatchIs(lines: seq<Record>, p: Pick, i: nat)
    requires i < |lines| && Picks(p, lines[i])
    requires forall k :: i < k < |lines| ==> !Picks(p, lines[k])
    ensures LastMatch(lines, p) == Some(i)
  {
  }

  /** Appending a record moves the last match to it exactly when it is picked. */
  lemma LastMatchSnoc(lines: seq<Record>, x: Record, p: Pick)
    ensures LastMatch(lines + [x], p) == if Picks(p, x) then Some(|lines|) else LastMatch(lines, p)
  {
    assert (lines + [x])[..|lines|] == lines;
  }

  // ---------------------------------------------------------------- system prompt

  /** The prompt of the last "system" record with string content, or the default. */
  function SystemPromptOf(lines: seq<Record>): (prompt: string)
    ensures LastMatch(lines, SystemText).None? ==> prompt == SYSTEM_DEFAULT
    ensures LastMatch(lines, SystemText).Some? ==>
              Str(prompt) == lines[LastMatch(lines, SystemText).value].content
  {
    match LastMatch(lines, SystemText)
    case None => SYSTEM_DEFAULT
    case Some(i) => lines[i].content.s
  }

  /** `extract_system_prompt(lines)`: a forward scan that keeps the latest system prompt. */
  method ExtractSystemPrompt(lines: seq<Record>) returns (prompt: string)
    ensures prompt == SystemPromptOf(lines)
  {
    prompt := SYSTEM_DEFAULT;
    var i := 0;
    while i < |lines|
      invariant 0 <= i <= |lines|
      invariant prompt == SystemPromptOf(lines[..i])
    {
      var obj := lines[i];
      LastMatchSnoc(lines[..i], obj, SystemText);
      assert lines[..i + 1] == lines[..i] + [obj];
      if obj.role == Str("system") && obj.content.Str? {
        prompt := obj.content.s;
      }
      i := i + 1;
    }
    assert lines[..i] == lines;
  }

  // ---------------------------------------------------------------- rebuilding messages

  /** The chat-model messages: `SystemMessage`, `HumanMessage`, `AIMessage`. */
  datatype ChatMessage = System(text: string) | Human(text: string) | AI(text: string)

  /** The user and assistant records with string content, as messages, in log order. */
  function Turns(lines: seq<Record>): (msgs: seq<ChatMessage>)
    ensures |msgs| <= |lines|
    ensures forall m :: m in msgs ==> m.Human? || m.AI?
    decreases |lines|
  {
    if lines == [] then []
    else
      var obj := lines[|lines| - 1];
      var rest := Turns(lines[..|lines| - 1]);
      if !obj.content.Str? then rest
      else if obj.role == Str("user") then rest + [Human(obj.content.s)]
      else if obj.role == Str("assistant") then rest + [AI(obj.content.s)]
      else rest
  }

  /** `rebuild_messages_from_logs(lines, system_prompt)`. */
  function RebuildMessages(lines: seq<Record>, systemPrompt: string): (msgs: seq<ChatMessage>)
    ensures |msgs| >= 1 && msgs[0] == System(systemPrompt)
    ensures forall k :: 1 <= k < |msgs| ==> msgs[k].Human? || msgs[k].AI?
  {
    [System(systemPrompt)] + Turns(lines)
  }

  /** Rebuilding is compositional: the turns of a longer log extend those of its prefix. */
  lemma {:induction false} TurnsAppend(a: seq<Record>, b: seq<Record>)
    ensures Turns(a + b) == Turns(a) + Turns(b)
    decreases |b|
  {
    if b == [] {
      assert a + b == a;
    } else {
      var b' := b[..|b| - 1];
      assert (a + b)[..|a + b| - 1] == a + b';
      TurnsAppend(a, b');
    }
  }

  /**
   * What one record adds, whatever its timestamp: a user record with string
   * content adds a human message, an assistant record with string content
   * an AI message, and any other record nothing.
   */
  lemma TurnsSnoc(lines: seq<Record>, x: Record)
    ensures Turns(lines + [x])
         == Turns(lines) + (if x.content.Str? && x.role == Str("user") then [Human(x.content.s)]
                            else if x.content.Str? && x.role == Str("assistant") then [AI(x.content.s)]
                            else [])
  {
    assert (lines + [x])[..|lines|] == lines;
  }

  /** A record of another role, or with non-string content, adds no message. */
  lemma TurnsIgnore(lines: seq<Record>, x: Record)
    requires !x.content.Str? || (x.role != Str("user") && x.role != Str("assistant"))
    ensures Turns(lines + [x]) == Turns(lines)
  {
    assert (lines + [x])[..|lines|] == lines;
  }

  // ---------------------------------------------------------------- replacing the last reply

  /** The record `append_log(fp, "assistant", content)` writes. */
  function AssistantRecord(now: string, content: string): Record {
    Record(Str(now), Str("assistant"), Str(content))
  }

  /** The log after `replace_last_assistant_log`: the last assistant record rewritten, or a new one appended. */
  function ReplacedLog(lines: seq<Record>, newContent: string, now: string): (out: seq<Record>)
    ensures LastMatch(lines, Role("assistant")).Some? ==>
              var i := LastMatch(lines, Role("assistant")).value;
              && |out| == |lines|
              && out[i] == lines[i].(ts := Str(now), content := Str(newContent))
              && forall k :: 0 <= k < |lines| && k != i ==> out[k] == lines[k]
    ensures LastMatch(lines, Role("assistant")).None? ==> out == lines + [AssistantRecord(now, newContent)]
  {
    match LastMatch(lines, Role("assistant"))
    case Some(i) => lines[i := lines[i].(ts := Str(now), content := Str(newContent))]
    case None => lines + [AssistantRecord(now, newContent)]
  }

  /**
   * `replace_last_assistant_log(fp, new_content)`, on the records read from
   * the file; `out` is what the file holds afterwards and `now` the clock value.
   */
  method ReplaceLastAssistant(lines: seq<Record>, newContent: string, now: string) returns (out: seq<Record>)
    ensures out == ReplacedLog(lines, newContent, now)
  {
    var i := |lines|;
    while i > 0
      invariant 0 <= i <= |lines|
      invariant forall k :: i <= k < |lines| ==> !Picks(Role("assistant"), lines[k])
    {
      i := i - 1;
      if lines[i].role == Str("assistant") {
        LastMatchIs(lines, Role("assistant"), i);
        out := lines[i := lines[i].(ts := Str(now), content := Str(newContent))];
        return;
      }
    }
    out := lines + [AssistantRecord(now, newContent)];
  }

  /** Replacing the last reply changes what the model is shown only in that reply. */
  lemma ReplaceKeepsOtherTurns(lines: seq<Record>, newContent: string, now: string)
    requires LastMatch(lines, Role("assistant")).Some?
    ensures var i := LastMatch(lines, Role("assistant")).value;
            Turns(ReplacedLog(lines, newContent, now))
              == Turns(lines[..i]) + [AI(newContent)] + Turns(lines[i + 1..])
  {
    var i := LastMatch(lines, Role("assistant")).value;
    var out := ReplacedLog(lines, newContent, now);
    assert out == out[..i] + [out[i]] + out[i + 1..];
    assert out[..i] == lines[..i];
    assert out[i + 1..] == lines[i + 1..];
    TurnsAppend(out[..i] + [out[i]], out[i + 1..]);
    TurnsAppend(out[..i], [out[i]]);
    assert Turns([out[i]]) == [AI(newContent)] by {
      assert [out[i]][..0] == [];
    }
  }

  // ---------------------------------------------------------------- deleting the last turn

  /** `[ln for k, ln in enumerate(lines) if k not in drop]`. */
  function Without(lines: seq<Record>, drop: set<int>): (out: seq<Record>)
    ensures |out| <= |lines|
    decreases |lines|
  {
    if lines == [] then []
    else
      var rest := Without(lines[..|lines| - 1], drop);
      if |lines| - 1 in drop then rest else rest + [lines[|lines| - 1]]
  }

  /** Only the indices inside the log matter. */
  lemma {:induction false} WithoutSame(lines: seq<Record>, d1: set<int>, d2: set<int>)
    requires forall k :: 0 <= k < |lines| ==> (k in d1 <==> k in d2)
    ensures Without(lines, d1) == Without(lines, d2)
    decreases |lines|
  {
    if lines != [] {
      WithoutSame(lines[..|lines| - 1], d1, d2);
    }
  }

  /** Dropping no index inside the log keeps it whole. */
  lemma {:induction false} WithoutNone(lines: seq<Record>, drop: set<int>)
    requires forall k :: 0 <= k < |lines| ==> k !in drop
    ensures Without(lines, drop) == lines
    decreases |lines|
  {
    if lines != [] {
      WithoutNone(lines[..|lines| - 1], drop);
    }
  }

  /** Dropping one index removes exactly that record. */
  lemma {:induction false} WithoutOne(lines: seq<Record>, u: nat)
    requires u < |lines|
    ensures Without(lines, {u}) == lines[..u] + lines[u + 1..]
    ensures |Without(lines, {u})| == |lines| - 1
    decreases |lines|
  {
    var init := lines[..|lines| - 1];
    if u == |lines| - 1 {
      WithoutNone(init, {u});
      assert init == lines[..u];
    } else {
      WithoutOne(init, u);
      assert init[..u] == lines[..u];
      assert init[u + 1..] + [lines[|lines| - 1]] == lines[u + 1..];
    }
  }

  /** Dropping two indices removes exactly those two records, keeping the rest in order. */
  lemma {:induction false} WithoutTwo(lines: seq<Record>, u: nat, a: nat)
    requires u < a < |lines|
    ensures Without(lines, {u, a}) == lines[..u] + lines[u + 1..a] + lines[a + 1..]
    ensures |Without(lines, {u, a})| == |lines| - 2
    decreases |lines|
  {
    var init := lines[..|lines| - 1];
    if a == |lines| - 1 {
      WithoutSame(init, {u, a}, {u});
      WithoutOne(init, u);
      assert init[..u] == lines[..u];
      assert init[u + 1..] == lines[u + 1..a];
      assert lines[a + 1..] == [];
    } else {
      WithoutTwo(init, u, a);
      assert init[..u] == lines[..u];
      assert init[u + 1..a] == lines[u + 1..a];
      assert init[a + 1..] + [lines[|lines| - 1]] == lines[a + 1..];
    }
  }

  /**
   * The positions `delete_last_turn_from_log` removes: the last "user"
   * record and, if there is one after it, the last "assistant" record.
   */
  function TurnToDrop(lines: seq<Record>): (drop: Option<set<int>>)
    ensures drop.None? <==> LastMatch(lines, Role("user")).None?
  {
    match LastMatch(lines, Role("user"))
    case None => None
    case Some(u) =>
      match LastMatch(lines, Role("assistant"))
      case Some(a) => if a > u then Some({u, a}) else Some({u})
      case None => Some({u})
  }

  /**
   * `delete_last_turn_from_log(fp)`, on the records read from the file:
   * whether a turn was deleted, and what the file holds afterwards.
   */
  method DeleteLastTurn(lines: seq<Record>) returns (removed: bool, out: seq<Record>)
    ensures removed <==> TurnToDrop(lines).Some?
    ensures !removed ==> out == lines
    ensures removed ==> out == Without(lines, TurnToDrop(lines).value)
  {
    if |lines| == 0 {
      return false, lines;
    }
    var u := |lines|;
    var found := false;
    while u > 0 && !found
      invariant 0 <= u <= |lines|
      invariant found ==> u < |lines| && lines[u].role == Str("user")
      invariant forall k :: (if found then u + 1 else u) <= k < |lines| ==> !Picks(Role("user"), lines[k])
    {
      u := u - 1;
      found := lines[u].role == Str("user");
    }
    if !found {
      return false, lines;
    }
    LastMatchIs(lines, Role("user"), u);

    var drop: set<int> := {u};
    var j := |lines|;
    while j > u + 1
      invariant u < j <= |lines|
      invariant forall k :: j <= k < |lines| ==> !Picks(Role("assistant"), lines[k])
    {
      j := j - 1;
      if lines[j].role == Str("assistant") {
        LastMatchIs(lines, Role("assistant"), j);
        drop := {u, j};
        break;
      }
    }
    if drop == {u} {
      var last := LastMatch(lines, Role("assistant"));
      assert last.None? || last.value <= u;
    }

    out := KeepOthers(lines, drop);
    return true, out;
  }

  /** The records whose positions are not in `drop`, in order. */
  method KeepOthers(lines: seq<Record>, drop: set<int>) returns (out: seq<Record>)
    ensures out == Without(lines, drop)
  {
    out := [];
    var k := 0;
    while k < |lines|
      invariant 0 <= k <= |lines|
      invariant out == Without(lines[..k], drop)
    {
      assert lines[..k + 1][..k] == lines[..k];
      if k !in drop {
        out := out + [lines[k]];
      }
      k := k + 1;
    }
    assert lines[..k] == lines;
  }

  /**
   * A deletion removes the last user record, and the last assistant record
   * when it comes after it; everything else stays, in order, so the log
   * shrinks by one or two records.
   */
  lemma DeletedTurnShape(lines: seq<Record>)
    requires TurnToDrop(lines).Some?
    ensures var u := LastMatch(lines, Role("user")).value;
            var a := LastMatch(lines, Role("assistant"));
            var out := Without(lines, TurnToDrop(lines).value);
            && (a.Some? && a.value > u ==> out == lines[..u] + lines[u + 1..a.value] + lines[a.value + 1..])
            && (a.None? || a.value < u ==> out == lines[..u] + lines[u + 1..])
            && |lines| - 2 <= |out| <= |lines| - 1
  {
    var u := LastMatch(lines, Role("user")).value;
    var a := LastMatch(lines, Role("assistant"));
    if a.Some? && a.value > u {
      assert TurnToDrop(lines).value == {u, a.value};
      WithoutTwo(lines, u, a.value);
    } else {
      assert TurnToDrop(lines).value == {u};
      WithoutOne(lines, u);
    }
  }

  // ---------------------------------------------------------------- session files

  const SUFFIX := ".jsonl"

  /** `re.fullmatch(r"(\d+)\.jsonl", name)` with ASCII digits. */
  predicate IsSessionName(name: string) {
    |name| > |SUFFIX| && name[|name| - |SUFFIX|..] == SUFFIX && AllDigits(name[..|name| - |SUFFIX|])
  }

  /** `int(m.group(1))`: the number a session file name carries. */
  function Number(name: string): nat
    requires IsSessionName(name)
  {
    DigitsValue(name[..|name| - |SUFFIX|])
  }

  /** The session file names among `names`, in the order the directory listing gave them. */
  function SessionNames(names: seq<string>): (r: seq<string>)
    ensures forall x :: x in r <==> x in names && IsSessionName(x)
    decreases |names|
  {
    if names == [] then []
    else
      var rest := SessionNames(names[..|names| - 1]);
      var last := names[|names| - 1];
      assert forall x :: x in names <==> x in names[..|names| - 1] || x == last;
      if IsSessionName(last) then rest + [last] else rest
  }

  predicate AllSessionNames(s: seq<string>) {
    forall k :: 0 <= k < |s| ==> IsSessionName(s[k])
  }

  predicate SortedByNumber(s: seq<string>)
    requires AllSessionNames(s)
  {
    forall j, k :: 0 <= j < k < |s| ==> Number(s[j]) <= Number(s[k])
  }

  /** Inserts `x` after every name whose number is at most its own. */
  function InsertByNumber(s: seq<string>, x: string): (r: seq<string>)
    requires AllSessionNames(s) && IsSessionName(x)
    ensures AllSessionNames(r)
    ensures multiset(r) == multiset(s) + multiset{x}
    ensures forall k :: 0 <= k < |r| ==> r[k] == x || r[k] in s
    decreases |s|
  {
    if s == [] then [x]
    else if Number(s[|s| - 1]) <= Number(x) then s + [x]
    else
      var r := InsertByNumber(s[..|s| - 1], x) + [s[|s| - 1]];
      assert s == s[..|s| - 1] + [s[|s| - 1]];
      r
  }

  /** `files.sort(key=lambda x: x[0])`, as a stable insertion sort. */
  function SortByNumber(s: seq<string>): (r: seq<string>)
    requires AllSessionNames(s)
    ensures AllSessionNames(r)
    ensures multiset(r) == multiset(s)
    decreases |s|
  {
    if s == [] then []
    else
      assert s == s[..|s| - 1] + [s[|s| - 1]];
      InsertByNumber(SortByNumber(s[..|s| - 1]), s[|s| - 1])
  }

  /** Every number in the list, and the inserted one, is at most `bound`: so is every number after insertion. */
  lemma InsertBounded(s: seq<string>, x: string, bound: nat)
    requires AllSessionNames(s) && IsSessionName(x) && Number(x) <= bound
    requires forall k :: 0 <= k < |s| ==> Number(s[k]) <= bound
    ensures var r := InsertByNumber(s, x);
            forall k :: 0 <= k < |r| ==> Number(r[k]) <= bound
  {
    var r := InsertByNumber(s, x);
    forall k | 0 <= k < |r|
      ensures Number(r[k]) <= bound
    {
      if r[k] != x {
        var j :| 0 <= j < |s| && s[j] == r[k];
      }
    }
  }

  /** A sorted list followed by a name numbered at least as high as all of it is sorted. */
  lemma SortedSnoc(r: seq<string>, last: string)
    requires AllSessionNames(r) && IsSessionName(last) && SortedByNumber(r)
    requires forall k :: 0 <= k < |r| ==> Number(r[k]) <= Number(last)
    ensures AllSessionNames(r + [last]) && SortedByNumber(r + [last])
  {
    var out := r + [last];
    forall j, k | 0 <= j < k < |out|
      ensures Number(out[j]) <= Number(out[k])
    {
      assert out[j] == r[j];
      if k < |r| {
        assert out[k] == r[k];
      }
    }
  }

  /** Inserting into a sorted list keeps it sorted. */
  lemma {:induction false} InsertSorted(s: seq<string>, x: string)
    requires AllSessionNames(s) && IsSessionName(x) && SortedByNumber(s)
    ensures SortedByNumber(InsertByNumber(s, x))
    decreases |s|
  {
    if s == [] {
    } else if Number(s[|s| - 1]) <= Number(x) {
      SortedSnoc(s, x);
    } else {
      var init, last := s[..|s| - 1], s[|s| - 1];
      InsertSorted(init, x);
      InsertBounded(init, x, Number(last));
      SortedSnoc(InsertByNumber(init, x), last);
    }
  }

  /** The insertion sort sorts. */
  lemma {:induction false} SortSorted(s: seq<string>)
    requires AllSessionNames(s)
    ensures SortedByNumber(SortByNumber(s))
    decreases |s|
  {
    if s != [] {
      SortSorted(s[..|s| - 1]);
      InsertSorted(SortByNumber(s[..|s| - 1]), s[|s| - 1]);
    }
  }

  /**
   * `list_session_files()`, over the names the directory listing returned:
   * the session files, by ascending number.
   */
  method ListSessionFiles(names: seq<string>) returns (r: seq<string>)
    ensures r == SortByNumber(SessionNames(names))
    ensures AllSessionNames(r) && SortedByNumber(r)
    ensures multiset(r) == multiset(SessionNames(names))
    ensures forall x :: x in r <==> x in names && IsSessionName(x)
  {
    var files: seq<string> := [];
    var i := 0;
    while i < |names|
      invariant 0 <= i <= |names|
      invariant files == SessionNames(names[..i])
    {
      assert names[..i + 1][..i] == names[..i];
      if IsSessionName(names[i]) {
        files := files + [names[i]];
      }
      i := i + 1;
    }
    assert names[..i] == names;
    r := SortByNumber(files);
    SortSorted(files);
    SortMembers(files);
  }

  /** The name `f"{n}.jsonl"`, which carries the number `n`. */
  function SessionName(n: nat): (name: string)
    ensures IsSessionName(name) && Number(name) == n
  {
    var name := NatToString(n) + SUFFIX;
    assert name[..|name| - |SUFFIX|] == NatToString(n);
    assert name[|name| - |SUFFIX|..] == SUFFIX;
    NatToStringValue(n);
    name
  }

  /** The name `next_session_file()` picks, given the sorted session files. */
  function NextName(names: seq<string>): string {
    NextAfter(SortByNumber(SessionNames(names)))
  }

  /** The name after the last of a sorted listing, or the first name for an empty one. */
  function NextAfter(files: seq<string>): string
    requires AllSessionNames(files)
  {
    if files == [] then SessionName(1) else SessionName(Number(files[|files| - 1]) + 1)
  }

  /** `str(1) + ".jsonl"`. */
  lemma FirstName()
    ensures SessionName(1) == "1.jsonl"
  {
    assert NatToString(1) == "1";
  }

  /** Sorting keeps exactly the names it was given. */
  lemma SortMembers(s: seq<string>)
    requires AllSessionNames(s)
    ensures forall x :: x in SortByNumber(s) <==> x in s
  {
    var r := SortByNumber(s);
    forall x
      ensures x in r <==> x in s
    {
      assert x in r <==> x in multiset(r);
      assert x in s <==> x in multiset(s);
    }
  }

  /** In a listing sorted by number, no name carries a higher number than the last. */
  lemma LastIsHighest(files: seq<string>)
    requires AllSessionNames(files) && SortedByNumber(files) && files != []
    ensures forall x :: x in files ==> Number(x) <= Number(files[|files| - 1])
  {
    forall x | x in files
      ensures Number(x) <= Number(files[|files| - 1])
    {
      var k :| 0 <= k < |files| && files[k] == x;
      if k < |files| - 1 {
        assert Number(files[k]) <= Number(files[|files| - 1]);
      }
    }
  }

  /** The last of the sorted session files carries the highest number of the listing. */
  lemma HighestLast(names: seq<string>)
    requires SessionNames(names) != []
    ensures var files := SortByNumber(SessionNames(names));
            && files != [] && files[|files| - 1] in names && IsSessionName(files[|files| - 1])
            && forall x :: x in names && IsSessionName(x) ==> Number(x) <= Number(files[|files| - 1])
  {
    var s := SessionNames(names);
    var files := SortByNumber(s);
    SortSorted(s);
    SortMembers(s);
    assert s[0] in files;
    LastIsHighest(files);
    assert files[|files| - 1] in s;
  }

  /**
   * The next name is "1.jsonl" when there is no session file yet, else one
   * past the highest number; so it never names an existing file.
   */
  lemma NextNameFresh(names: seq<string>)
    ensures IsSessionName(NextName(names)) && NextName(names) !in names
    ensures SessionNames(names) == [] ==> NextName(names) == "1.jsonl"
    ensures forall x :: x in names && IsSessionName(x) ==> Number(x) < Number(NextName(names))
  {
    if SessionNames(names) == [] {
      FirstName();
    } else {
      HighestLast(names);
    }
  }

  /** `next_session_file()`, over the names the directory listing returned. */
  method NextSessionFile(names: seq<string>) returns (next: string)
    ensures next == NextName(names)
  {
    var existing := ListSessionFiles(names);
    if |existing| == 0 {
      next := SessionName(1);
    } else {
      next := SessionName(Number(existing[|existing| - 1]) + 1);
    }
  }
}
