/**
 * The onboarding conversation (flows/onboarding.py): /start, then a choice of
 * mode, then a confirmation whose commit claims an idempotency key, logs one
 * event, creates the user's profile if it is missing and clears the session.
 *
 * The pure functions `EntryStartStep`, `ChooseModeStep`, `ConfirmStep` and
 * `CancelStep` say what each handler does to the three stores (as values);
 * the methods `EntryStart`, `ChooseMode`, `Confirm` and `Cancel` do it to the
 * store objects step by step, as the handlers do, and are proved to agree.
 */
module Onboarding {
  import opened Wrappers
  import opened Text
  import opened Sessions
  import opened Dao
  import opened Users
  import opened Registry

  /** The conversation states: `S.CHOOSE_MODE`, `S.CONFIRM` and `ConversationHandler.END`. */
  datatype S = CHOOSE_MODE | CONFIRM | END

  /** The parts of a Telegram user the flow reads. */
  datatype TgUser = TgUser(id: int, username: Option<string>, firstName: Option<string>)

  /** An incoming message; `text` is None for a message without text. */
  datatype Message = Message(text: Option<string>)

  /** `update.effective_user` and `update.message`, either of which may be missing. */
  datatype Update = Update(user: Option<TgUser>, message: Option<Message>)

  /** What `agent.run({"mode": mode})` does: it raises, or returns a dict whose "reply" entry is read. */
  datatype AgentRun = Raises | Returns(reply: Option<string>)

  const CANCEL := "取消"
  const NEW_USER := "新用户模式"
  const MIGRATE := "老用户迁移"
  const SUBMIT := "确认提交"
  const MODE_KEY := "mode"
  const SUBMIT_EVENT := "onboarding_submit"
  const AGENT_NAME := "onboarding"

  const PROMPT_MODE := "请选择模式："
  const PROMPT_OPTION := "请选择键盘上的选项。"
  const PROMPT_BUTTON := "请选择键盘上的按钮。"
  const ALREADY_DONE := "这个提交已处理过。"
  const DONE := "✅ 已完成设置。"
  const CANCELLED := "已取消。"

  /** The values `choose_mode` accepts and stores under "mode". */
  predicate IsMode(text: string) {
    text == NEW_USER || text == MIGRATE
  }

  /** The session value read back under "mode": absent (None) or a stored choice. */
  predicate StoredMode(mode: Option<string>) {
    mode.None? || IsMode(mode.value)
  }

  /** `(msg.text or "").strip()`. */
  function InputText(msg: Message): string {
    match msg.text
    case None => ""
    case Some(t) => Strip(t)
  }

  /** `f"{mode}"` for a value that is None or a string. */
  function ModeRepr(mode: Option<string>): string {
    match mode
    case None => "None"
    case Some(m) => m
  }

  /** The idempotency key `f"onboarding_submit:{user.id}:{mode}"`. */
  function IdemKey(userId: int, mode: Option<string>): (k: string)
    ensures |k| > |"onboarding_submit:"| && k[..|"onboarding_submit:"|] == "onboarding_submit:"
  {
    "onboarding_submit:" + IntToString(userId) + ":" + ModeRepr(mode)
  }

  /** The event payload `f"mode={mode}"`. */
  function Payload(mode: Option<string>): string {
    "mode=" + ModeRepr(mode)
  }

  /** The final reply: the fixed text, plus the agent's reply when that is a non-empty string. */
  function DoneReply(agentReply: Option<string>): (r: string)
    ensures |r| >= |DONE| && r[..|DONE|] == DONE
    ensures agentReply.None? || agentReply == Some("") ==> r == DONE
    ensures agentReply.Some? && agentReply.value != "" ==> r[|DONE|..] == "\n\n" + agentReply.value
  {
    if agentReply.Some? && agentReply.value != "" then DONE + "\n\n" + agentReply.value else DONE
  }

  /**
   * The agent's reply as `confirm` obtains it: None when there is no
   * registry, no "onboarding" agent or `run` raises; every failure is swallowed.
   */
  function AgentReply(found: bool, run: AgentRun): (r: Option<string>)
    ensures r.Some? ==> found && run == Returns(r)
    ensures found && run.Returns? ==> r == run.reply
  {
    if found && run.Returns? then run.reply else None
  }

  /** The three stores the flow touches, as values; `saved` is what the profile file last received. */
  datatype World = World(
    sessions: map<int, Session<Option<string>>>,
    tables: Tables,
    profiles: map<int, UserProfile>,
    saved: Option<map<string, UserProfile>>)

  /** The outcome of one handler call: the stores afterwards, the next state and the reply sent, if any. */
  datatype Turn = Turn(world: World, next: S, reply: Option<string>)

  /** `cancel`: replies if there is a message, clears the session if there is a user, and ends. */
  function CancelStep(w: World, upd: Update): (r: Turn)
    ensures r.next == END
    ensures r.world.tables == w.tables && r.world.profiles == w.profiles && r.world.saved == w.saved
    ensures upd.user.Some? ==> upd.user.value.id !in r.world.sessions
    ensures upd.user.None? ==> r.world.sessions == w.sessions
    ensures forall u :: u in r.world.sessions <==> u in w.sessions && (upd.user.None? || u != upd.user.value.id)
    ensures forall u :: u in r.world.sessions ==> r.world.sessions[u] == w.sessions[u]
    ensures r.reply.Some? <==> upd.message.Some?
  {
    var sessions := if upd.user.Some? then Apply(w.sessions, Sessions.Op.Clear(upd.user.value.id)) else w.sessions;
    Turn(w.(sessions := sessions), END, if upd.message.Some? then Some(CANCELLED) else None)
  }

  /** `entry_start`: clears the session of the user and asks for a mode. */
  function EntryStartStep(w: World, upd: Update): (r: Turn)
    ensures upd.user.None? || upd.message.None? ==> r == Turn(w, END, None)
    ensures upd.user.Some? && upd.message.Some? ==>
              && r.next == CHOOSE_MODE
              && r.world == w.(sessions := w.sessions - {upd.user.value.id})
  {
    if upd.user.None? || upd.message.None? then Turn(w, END, None)
    else Turn(w.(sessions := Apply(w.sessions, Sessions.Op.Clear(upd.user.value.id))), CHOOSE_MODE, Some(PROMPT_MODE))
  }

  /** `choose_mode`: cancel, re-prompt on an unknown choice, or store the mode and ask to confirm. */
  function ChooseModeStep(w: World, upd: Update): (r: Turn)
    ensures upd.user.None? || upd.message.None? ==> r == Turn(w, END, None)
    ensures r.next != END ==> upd.user.Some? && upd.message.Some? && InputText(upd.message.value) != CANCEL
    ensures r.next == END ==> r.world.tables == w.tables && r.world.profiles == w.profiles
    ensures r.next == CHOOSE_MODE ==> r.world == w && !IsMode(InputText(upd.message.value))
    ensures upd.user.Some? && upd.message.Some? && InputText(upd.message.value) == CANCEL ==>
              r == CancelStep(w, upd)
    ensures upd.user.Some? && upd.message.Some? && InputText(upd.message.value) != CANCEL
            && !IsMode(InputText(upd.message.value)) ==>
              r == Turn(w, CHOOSE_MODE, Some(PROMPT_OPTION))
    ensures upd.user.Some? && upd.message.Some? && IsMode(InputText(upd.message.value)) ==> r.next == CONFIRM
    ensures r.next == CONFIRM ==>
              && IsMode(InputText(upd.message.value))
              && r.world == w.(sessions := r.world.sessions)
              && ValueOf(r.world.sessions, upd.user.value.id, MODE_KEY, None) == Some(InputText(upd.message.value))
              && forall u, k :: u != upd.user.value.id || k != MODE_KEY ==>
                   ValueOf(r.world.sessions, u, k, None) == ValueOf(w.sessions, u, k, None)
  {
    if upd.user.None? || upd.message.None? then Turn(w, END, None)
    else
      var text := InputText(upd.message.value);
      if text == CANCEL then CancelStep(w, upd)
      else if !IsMode(text) then Turn(w, CHOOSE_MODE, Some(PROMPT_OPTION))
      else
        var sessions := Apply(w.sessions, Sessions.Op.SetValue(upd.user.value.id, MODE_KEY, Some(text)));
        SetValueReads(w.sessions, upd.user.value.id, MODE_KEY, Some(text), None);
        Turn(w.(sessions := sessions), CONFIRM, Some("你选择了：" + text + "\n\n确认提交？"))
  }

  /** The mode `confirm` reads for `user` before submitting. */
  function ModeOf(w: World, user: TgUser): Option<string> {
    ValueOf(w.sessions, user.id, MODE_KEY, None)
  }

  /** The profile `confirm` stores: the cached one if there is one, else one built from the Telegram user. */
  function ProfileFor(profiles: map<int, UserProfile>, user: TgUser): (p: UserProfile)
    ensures p.userId == user.id || (user.id in profiles && p == profiles[user.id])
    ensures user.id in profiles ==> p == profiles[user.id]
  {
    if user.id in profiles then profiles[user.id] else UserProfile(user.id, user.username, user.firstName)
  }

  /**
   * `confirm` for the submit text: read the mode, claim the key; if it was
   * already claimed, only the session is cleared; otherwise log the event,
   * store the profile, and clear the session.
   */
  function Submit(w: World, user: TgUser, agentReply: Option<string>): Turn {
    var mode := ModeOf(w, user);
    var afterRead := Apply(w.sessions, Sessions.Op.GetValue(user.id, MODE_KEY));
    var (claimed, ack) := Step(w.tables, Acquire(IdemKey(user.id, mode)));
    if !ack.ok then
      Turn(w.(sessions := Apply(afterRead, Sessions.Op.Clear(user.id)), tables := claimed), END, Some(ALREADY_DONE))
    else
      Record(w.(sessions := afterRead, tables := claimed), user, mode, agentReply)
  }

  /** The rest of a first submit: log the event, store the profile, clear the session, reply. */
  function Record(w: World, user: TgUser, mode: Option<string>, agentReply: Option<string>): Turn {
    var logged := Step(w.tables, Log(Event(user.id, SUBMIT_EVENT, Some(Payload(mode))))).0;
    var p := ProfileFor(w.profiles, user);
    var profiles := w.profiles[p.userId := p];
    Turn(World(Apply(w.sessions, Sessions.Op.Clear(user.id)), logged, profiles, Some(Encode(profiles))),
         END, Some(DoneReply(agentReply)))
  }

  /** `confirm`: cancel, re-prompt on anything but the submit text, or submit. */
  function ConfirmStep(w: World, upd: Update, agentReply: Option<string>): (r: Turn)
    ensures upd.user.None? || upd.message.None? ==> r == Turn(w, END, None)
    ensures r.next != CHOOSE_MODE
    ensures r.next == CONFIRM ==> r.world == w && r.reply == Some(PROMPT_BUTTON)
    ensures upd.user.Some? && upd.message.Some? && InputText(upd.message.value) != CANCEL
            && InputText(upd.message.value) != SUBMIT ==>
              r == Turn(w, CONFIRM, Some(PROMPT_BUTTON))
    ensures upd.user.Some? && upd.message.Some? && InputText(upd.message.value) == CANCEL ==>
              r == CancelStep(w, upd)
    ensures upd.user.Some? && upd.message.Some? && InputText(upd.message.value) == SUBMIT ==>
              r == Submit(w, upd.user.value, agentReply)
  {
    if upd.user.None? || upd.message.None? then Turn(w, END, None)
    else
      var text := InputText(upd.message.value);
      if text == CANCEL then CancelStep(w, upd)
      else if text != SUBMIT then Turn(w, CONFIRM, Some(PROMPT_BUTTON))
      else Submit(w, upd.user.value, agentReply)
  }

  /** A submit whose key was already claimed changes nothing but the session, and answers that it was processed. */
  lemma SubmitAlreadyClaimed(w: World, user: TgUser, agentReply: Option<string>)
    requires IdemKey(user.id, ModeOf(w, user)) in w.tables.keys
    ensures var r := Submit(w, user, agentReply);
            && r.world == w.(sessions := w.sessions - {user.id})
            && r.next == END && r.reply == Some(ALREADY_DONE)
  {
  }

  /**
   * A first submit claims the key, logs exactly one "onboarding_submit" event
   * with payload "mode=<mode>", stores a profile for the user without
   * overwriting an existing one, saves the cache, and clears the session.
   * A cached profile is re-stored under its own `user_id`, which is the key it
   * was found under whenever the cache files every profile by its id.
   */
  lemma SubmitFirstClaim(w: World, user: TgUser, agentReply: Option<string>)
    requires IdemKey(user.id, ModeOf(w, user)) !in w.tables.keys
    ensures var r := Submit(w, user, agentReply);
            && r.world.tables.keys == w.tables.keys + {IdemKey(user.id, ModeOf(w, user))}
            && r.world.tables.events == w.tables.events + [Event(user.id, SUBMIT_EVENT, Some(Payload(ModeOf(w, user))))]
            && (user.id !in w.profiles ==>
                  r.world.profiles == w.profiles[user.id := UserProfile(user.id, user.username, user.firstName)])
            && (FiledById(w.profiles) ==>
                  && FiledById(r.world.profiles)
                  && r.world.profiles.Keys == w.profiles.Keys + {user.id}
                  && (user.id in w.profiles ==> r.world.profiles == w.profiles)
                  && (forall id :: id != user.id && id in w.profiles ==> r.world.profiles[id] == w.profiles[id]))
            && r.world.saved == Some(Encode(r.world.profiles))
            && r.world.sessions == w.sessions - {user.id}
            && r.next == END && r.reply == Some(DoneReply(agentReply))
  {
    var mode := ModeOf(w, user);
    var afterRead := Apply(w.sessions, Sessions.Op.GetValue(user.id, MODE_KEY));
    var claimed := Step(w.tables, Acquire(IdemKey(user.id, mode))).0;
    assert Submit(w, user, agentReply) == Record(w.(sessions := afterRead, tables := claimed), user, mode, agentReply);
    assert afterRead - {user.id} == w.sessions - {user.id};
    StoreProfile(w.profiles, user);
  }

  /** Storing the profile `confirm` picks adds the user when missing and, in a cache filed by id, changes no other entry. */
  lemma StoreProfile(profiles: map<int, UserProfile>, user: TgUser)
    ensures var p := ProfileFor(profiles, user);
            var r := profiles[p.userId := p];
            && (user.id !in profiles ==> r == profiles[user.id := UserProfile(user.id, user.username, user.firstName)])
            && (FiledById(profiles) ==>
                  && FiledById(r)
                  && r.Keys == profiles.Keys + {user.id}
                  && (user.id in profiles ==> r == profiles)
                  && (forall id :: id != user.id && id in profiles ==> r[id] == profiles[id]))
  {
  }

  /**
   * `f"{mode}"` tells the stored modes apart: None prints as "None", which
   * is neither of the two choices.
   */
  lemma ModeReprInjective(a: Option<string>, b: Option<string>)
    requires StoredMode(a) && StoredMode(b)
    requires ModeRepr(a) == ModeRepr(b)
    ensures a == b
  {
  }

  /** `str(user_id)` holds no ':', so the key's first ':' after the prefix ends the id. */
  lemma NoColonInId(userId: int)
    ensures ':' !in IntToString(userId)
  {
    var s := IntToString(userId);
    assert forall k :: 0 <= k < |s| ==> s[k] != ':';
  }

  /** Splitting `a + ":" + b` at its first ':' recovers `a` and `b` when `a` has no ':'. */
  lemma SplitAtColon(a1: string, b1: string, a2: string, b2: string)
    requires ':' !in a1 && ':' !in a2
    requires a1 + ":" + b1 == a2 + ":" + b2
    ensures a1 == a2 && b1 == b2
  {
    var s1 := a1 + ":" + b1;
    var s2 := a2 + ":" + b2;
    assert s1[|a1|] == ':' && s2[|a2|] == ':';
    if |a1| < |a2| {
      assert false;
    } else if |a2| < |a1| {
      assert false;
    }
    assert a1 == s1[..|a1|] && a2 == s2[..|a2|];
    assert b1 == s1[|a1| + 1..] && b2 == s2[|a2| + 1..];
  }

  /** What follows the key's "onboarding_submit:" prefix. */
  lemma KeyTail(userId: int, mode: Option<string>)
    ensures IdemKey(userId, mode)[|"onboarding_submit:"|..] == IntToString(userId) + ":" + ModeRepr(mode)
  {
    var p := "onboarding_submit:";
    var t := IntToString(userId) + ":" + ModeRepr(mode);
    assert IdemKey(userId, mode) == p + t;
  }

  /**
   * Different users, or different stored modes of one user, never share an
   * idempotency key: a key identifies exactly one (user, mode) submission.
   */
  lemma IdemKeyInjective(u1: int, m1: Option<string>, u2: int, m2: Option<string>)
    requires StoredMode(m1) && StoredMode(m2)
    requires IdemKey(u1, m1) == IdemKey(u2, m2)
    ensures u1 == u2 && m1 == m2
  {
    KeyTail(u1, m1);
    KeyTail(u2, m2);
    NoColonInId(u1);
    NoColonInId(u2);
    SplitAtColon(IntToString(u1), ModeRepr(m1), IntToString(u2), ModeRepr(m2));
    IntToStringInjective(u1, u2);
    ModeReprInjective(m1, m2);
  }

  /** One whole conversation: /start, a mode choice, then a confirmation. */
  function Conversation(w: World, user: TgUser, choice: Message, confirm: Message, agentReply: Option<string>): Turn {
    var t1 := EntryStartStep(w, Update(Some(user), Some(choice)));
    var t2 := ChooseModeStep(t1.world, Update(Some(user), Some(choice)));
    ConfirmStep(t2.world, Update(Some(user), Some(confirm)), agentReply)
  }

  /**
   * Going through the conversation a second time with the same choice is
   * answered as already processed and logs no second event.
   */
  lemma ResubmissionLogsOnce(w: World, user: TgUser, choice: Message, confirm: Message, r1: Option<string>, r2: Option<string>)
    requires IsMode(InputText(choice)) && InputText(confirm) == SUBMIT
    ensures var first := Conversation(w, user, choice, confirm, r1);
            var second := Conversation(first.world, user, choice, confirm, r2);
            && second.reply == Some(ALREADY_DONE)
            && second.world.tables == first.world.tables
            && second.world.profiles == first.world.profiles
            && |first.world.tables.events| <= |w.tables.events| + 1
  {
    var mode := Some(InputText(choice));
    var key := IdemKey(user.id, mode);
    var c1 := ConversationSubmits(w, user, choice, confirm, r1);
    var first := Conversation(w, user, choice, confirm, r1);
    assert key in first.world.tables.keys;
    var c2 := ConversationSubmits(first.world, user, choice, confirm, r2);
    SubmitAlreadyClaimed(c2, user, r2);
  }

  /**
   * With a valid choice and the submit text, the conversation submits the
   * chosen mode from the stores left by `choose_mode`, whose tables and
   * profiles are those it started from.
   */
  lemma ConversationSubmits(w: World, user: TgUser, choice: Message, confirm: Message, agentReply: Option<string>)
    returns (chosen: World)
    requires IsMode(InputText(choice)) && InputText(confirm) == SUBMIT
    ensures chosen.tables == w.tables && chosen.profiles == w.profiles
    ensures ModeOf(chosen, user) == Some(InputText(choice))
    ensures Conversation(w, user, choice, confirm, agentReply) == Submit(chosen, user, agentReply)
  {
    var upd := Update(Some(user), Some(choice));
    var started := EntryStartStep(w, upd).world;
    var t := ChooseModeStep(started, upd);
    chosen := t.world;
    assert chosen.tables == started.tables && chosen.profiles == started.profiles;
  }

  /** The stores as the flow sees them. */
  ghost function Snapshot(sessions: SessionStore<Option<string>>, users: UserStore, dao: MySQLDAO): World
    reads sessions, users, dao
  {
    World(sessions.sessions, dao.State(), users.cache, users.saved)
  }

  /** `entry_start(update, context)`. */
  method EntryStart(upd: Update, sessions: SessionStore<Option<string>>, users: UserStore, dao: MySQLDAO)
    returns (next: S, reply: Option<string>)
    requires sessions.Valid()
    modifies sessions
    ensures sessions.Valid()
    ensures Turn(Snapshot(sessions, users, dao), next, reply) == EntryStartStep(old(Snapshot(sessions, users, dao)), upd)
  {
    if upd.user.None? || upd.message.None? {
      return END, None;
    }
    sessions.Clear(upd.user.value.id);
    return CHOOSE_MODE, Some(PROMPT_MODE);
  }

  /** `cancel(update, context)`. */
  method Cancel(upd: Update, sessions: SessionStore<Option<string>>, users: UserStore, dao: MySQLDAO)
    returns (next: S, reply: Option<string>)
    requires sessions.Valid()
    modifies sessions
    ensures sessions.Valid()
    ensures Turn(Snapshot(sessions, users, dao), next, reply) == CancelStep(old(Snapshot(sessions, users, dao)), upd)
  {
    reply := None;
    if upd.message.Some? {
      reply := Some(CANCELLED);
    }
    if upd.user.Some? {
      sessions.Clear(upd.user.value.id);
    }
    next := END;
  }

  /** `choose_mode(update, context)`. */
  method ChooseMode(upd: Update, sessions: SessionStore<Option<string>>, users: UserStore, dao: MySQLDAO)
    returns (next: S, reply: Option<string>)
    requires sessions.Valid()
    modifies sessions
    ensures sessions.Valid()
    ensures Turn(Snapshot(sessions, users, dao), next, reply) == ChooseModeStep(old(Snapshot(sessions, users, dao)), upd)
  {
    if upd.user.None? || upd.message.None? {
      return END, None;
    }
    var user, msg := upd.user.value, upd.message.value;
    var text := InputText(msg);
    if text == CANCEL {
      next, reply := Cancel(upd, sessions, users, dao);
      return;
    }
    if !IsMode(text) {
      return CHOOSE_MODE, Some(PROMPT_OPTION);
    }
    sessions.SetValue(user.id, MODE_KEY, Some(text));
    return CONFIRM, Some("你选择了：" + text + "\n\n确认提交？");
  }

  /**
   * `confirm(update, context)`; `run` is what the onboarding agent's `run`
   * does if it is reached, and `agents` is null when the bot has no registry.
   */
  method Confirm<H>(upd: Update, sessions: SessionStore<Option<string>>, users: UserStore, dao: MySQLDAO,
                    agents: AgentRegistry?<H>, run: AgentRun)
    returns (next: S, reply: Option<string>)
    requires sessions.Valid() && (agents != null ==> agents.Valid())
    modifies sessions, users, dao
    ensures sessions.Valid()
    ensures Turn(Snapshot(sessions, users, dao), next, reply)
         == ConfirmStep(old(Snapshot(sessions, users, dao)), upd,
                        AgentReply(agents != null && AGENT_NAME in agents.agents, run))
  {
    if upd.user.None? || upd.message.None? {
      return END, None;
    }
    var user, msg := upd.user.value, upd.message.value;
    var text := InputText(msg);
    if text == CANCEL {
      next, reply := Cancel(upd, sessions, users, dao);
      return;
    }
    if text != SUBMIT {
      return CONFIRM, Some(PROMPT_BUTTON);
    }
    next, reply := SubmitAndFinish(user, sessions, users, dao, agents, run);
  }

  /** The submit branch of `confirm`, from reading the mode to the final reply. */
  method SubmitAndFinish<H>(user: TgUser, sessions: SessionStore<Option<string>>, users: UserStore, dao: MySQLDAO,
                            agents: AgentRegistry?<H>, run: AgentRun)
    returns (next: S, reply: Option<string>)
    requires sessions.Valid() && (agents != null ==> agents.Valid())
    modifies sessions, users, dao
    ensures sessions.Valid()
    ensures Turn(Snapshot(sessions, users, dao), next, reply)
         == Submit(old(Snapshot(sessions, users, dao)), user,
                   AgentReply(agents != null && AGENT_NAME in agents.agents, run))
  {
    var mode := sessions.GetValue(user.id, MODE_KEY, None);
    var acquired := dao.TryAcquireIdempotency(IdemKey(user.id, mode));
    if !acquired {
      sessions.Clear(user.id);
      return END, Some(ALREADY_DONE);
    }
    next, reply := RecordSubmission(user, mode, sessions, users, dao, agents, run);
  }

  /** Everything `confirm` does after a successful claim. */
  method RecordSubmission<H>(user: TgUser, mode: Option<string>,
                             sessions: SessionStore<Option<string>>, users: UserStore, dao: MySQLDAO,
                             agents: AgentRegistry?<H>, run: AgentRun)
    returns (next: S, reply: Option<string>)
    requires sessions.Valid() && (agents != null ==> agents.Valid())
    modifies sessions, users, dao
    ensures sessions.Valid()
    ensures Turn(Snapshot(sessions, users, dao), next, reply)
         == Record(old(Snapshot(sessions, users, dao)), user, mode,
                   AgentReply(agents != null && AGENT_NAME in agents.agents, run))
  {
    ghost var w := Snapshot(sessions, users, dao);
    ghost var r := Record(w, user, mode, AgentReply(agents != null && AGENT_NAME in agents.agents, run));
    dao.LogEvent(user.id, SUBMIT_EVENT, Some(Payload(mode)));
    assert dao.State() == r.world.tables;

    var profile := users.Get(user.id);
    var p := if profile.None? then UserProfile(user.id, user.username, user.firstName) else profile.value;
    assert p == ProfileFor(w.profiles, user);
    users.Upsert(p);
    assert users.cache == r.world.profiles && users.saved == r.world.saved;

    var agentReply := AskAgent(agents, run);

    sessions.Clear(user.id);
    assert sessions.sessions == r.world.sessions;
    return END, Some(DoneReply(agentReply));
  }

  /** The optional agent call of `confirm`: look up "onboarding" and run it, swallowing every failure. */
  method AskAgent<H>(agents: AgentRegistry?<H>, run: AgentRun) returns (agentReply: Option<string>)
    requires agents != null ==> agents.Valid()
    ensures agentReply == AgentReply(agents != null && AGENT_NAME in agents.agents, run)
  {
    agentReply := None;
    if agents != null {
      var agent := agents.Get(AGENT_NAME);
      if agent.Success? && run.Returns? {
        agentReply := run.reply;
      }
    }
  }
}
