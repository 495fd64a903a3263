/**
 * The middleware and the commands `apply` registers (src/index.ts): the global
 * per-minute reply limiter, the message gate, the favorability refusal, the
 * personality aliases of `galgame.switch`, the on/off argument of
 * `galgame.fav` and `galgame.mind`, and the admin check guarding the
 * blacklist commands. Koishi's session, `h.parse` and `session.send` are
 * replaced by plain values.
 */
module Plugin {
  import opened Common
  import opened Data
  import opened Deepseek
  import opened Bubble

  // ---------------------------------------------------------------------------
  // The reply limiter

  const WindowLength := 60000

  /** The counter after the window check at `now`: it restarts only once more than a minute has passed. */
  function WindowCount(count: int, lastReset: int, now: int): int {
    if now - lastReset > WindowLength then 0 else count
  }

  function WindowStart(lastReset: int, now: int): int {
    if now - lastReset > WindowLength then now else lastReset
  }

  /** `replyCount` and `lastResetTime`, shared by every message the middleware sees. */
  class RateLimiter {
    const maxPerMinute: int
    var replyCount: int
    var lastResetTime: int

    /** The count never exceeds the limit, or zero when the limit is not positive. */
    ghost predicate Valid()
      reads this
    {
      replyCount <= maxPerMinute || replyCount <= 0
    }

    constructor (maxPerMinute: int, now: int)
      ensures this.maxPerMinute == maxPerMinute
      ensures replyCount == 0 && lastResetTime == now
      ensures Valid()
    {
      this.maxPerMinute := maxPerMinute;
      replyCount := 0;
      lastResetTime := now;
    }

    /** `if (now - lastResetTime > 60000) { replyCount = 0; lastResetTime = now; }`. */
    method Refresh(now: int)
      modifies this
      ensures replyCount == WindowCount(old(replyCount), old(lastResetTime), now)
      ensures lastResetTime == WindowStart(old(lastResetTime), now)
      ensures old(Valid()) ==> Valid()
    {
      if now - lastResetTime > WindowLength {
        replyCount := 0;
        lastResetTime := now;
      }
    }

    /** `replyCount >= config.maxRepliesPerMinute`: the message is passed on unanswered. */
    predicate Saturated()
      reads this
    {
      replyCount >= maxPerMinute
    }

    /** `replyCount++`, reached only when the limiter is not saturated. */
    method Admit()
      requires !Saturated()
      modifies this
      ensures replyCount == old(replyCount) + 1 && lastResetTime == old(lastResetTime)
      ensures Valid()
    {
      replyCount := replyCount + 1;
    }

    /** `replyCount--` after a failed reply. */
    method Release()
      modifies this
      ensures replyCount == old(replyCount) - 1 && lastResetTime == old(lastResetTime)
      ensures old(Valid()) ==> Valid()
    {
      replyCount := replyCount - 1;
    }
  }

  /** The counter and window start after `Refresh` at each of the times `ts`, in order. */
  function WindowAfter(count: int, lastReset: int, ts: seq<int>): (int, int)
    decreases |ts|
  {
    if ts == [] then (count, lastReset)
    else WindowAfter(WindowCount(count, lastReset, ts[0]), WindowStart(lastReset, ts[0]), ts[1..])
  }

  /**
   * Checks that all come within a minute of the reset leave the window as it
   * was, so a saturated limiter keeps passing messages on for that minute.
   */
  lemma {:induction false} SaturatedForTheMinute(count: int, lastReset: int, ts: seq<int>, maxPerMinute: int)
    requires forall i :: 0 <= i < |ts| ==> ts[i] - lastReset <= WindowLength
    ensures WindowAfter(count, lastReset, ts) == (count, lastReset)
    ensures count >= maxPerMinute ==> WindowAfter(count, lastReset, ts).0 >= maxPerMinute
    decreases |ts|
  {
    if ts != [] {
      assert WindowCount(count, lastReset, ts[0]) == count && WindowStart(lastReset, ts[0]) == lastReset;
      SaturatedForTheMinute(count, lastReset, ts[1..], maxPerMinute);
    }
  }

  /** A check exactly one minute after the reset keeps the window; one millisecond later resets it. */
  lemma WindowBoundaryIsStrict(count: int, lastReset: int)
    ensures WindowCount(count, lastReset, lastReset + WindowLength) == count
    ensures WindowCount(count, lastReset, lastReset + WindowLength + 1) == 0
    ensures WindowStart(lastReset, lastReset + WindowLength + 1) == lastReset + WindowLength + 1
  {
  }

  // ---------------------------------------------------------------------------
  // The message gate

  /**
   * What the middleware reads from a session: `userId`, `guildId`, `platform`,
   * `subtype === 'private'`, whether an `at` element names the bot, and the
   * text with the `at` elements removed (before trimming).
   */
  datatype Incoming = Incoming(
    userId: Option<string>,
    guildId: Option<string>,
    platform: string,
    isPrivate: bool,
    mentionsBot: bool,
    body: string)

  /** `userId && isUserBlacklisted(userId)` or the same for `guildId`. */
  predicate Blacklisted(msg: Incoming, blacklistUsers: seq<string>, blacklistGroups: seq<string>) {
    (Truthy(msg.userId) && msg.userId.value in blacklistUsers)
    || (Truthy(msg.guildId) && msg.guildId.value in blacklistGroups)
  }

  /** The checks before the limiter: the trimmed text to answer, or `None` for `return next()`. */
  function Accept(msg: Incoming, blacklistUsers: seq<string>, blacklistGroups: seq<string>): (r: Option<string>)
    ensures Blacklisted(msg, blacklistUsers, blacklistGroups) ==> r.None?
    ensures !msg.isPrivate && !msg.mentionsBot ==> r.None?
    ensures r.Some? ==> r.value == Trim(msg.body) && r.value != "" && !StartsWith(r.value, "galgame")
    ensures r.Some? ==> !IsJsSpace(r.value[0]) && !IsJsSpace(r.value[|r.value| - 1])
    ensures (!Blacklisted(msg, blacklistUsers, blacklistGroups) && (msg.isPrivate || msg.mentionsBot)
             && Trim(msg.body) != "" && !StartsWith(Trim(msg.body), "galgame")) ==> r.Some?
  {
    if Truthy(msg.userId) && msg.userId.value in blacklistUsers then None
    else if Truthy(msg.guildId) && msg.guildId.value in blacklistGroups then None
    else if !msg.isPrivate && !msg.mentionsBot then None
    else
      var text := Trim(msg.body);
      if text == "" || StartsWith(text, "galgame") then None else Some(text)
  }

  /** Padding around a message never changes whether or what it answers. */
  lemma AcceptIgnoresPadding(msg: Incoming, blacklistUsers: seq<string>, blacklistGroups: seq<string>,
                             pre: string, post: string)
    requires forall i :: 0 <= i < |pre| ==> IsJsSpace(pre[i])
    requires forall i :: 0 <= i < |post| ==> IsJsSpace(post[i])
    ensures Accept(msg.(body := pre + msg.body + post), blacklistUsers, blacklistGroups)
            == Accept(msg, blacklistUsers, blacklistGroups)
  {
    TrimPadded(msg.body, pre, post);
  }

  /** `Trim` removes any white-space padding added before and after a text. */
  lemma {:induction false} TrimPadded(s: string, pre: string, post: string)
    requires forall i :: 0 <= i < |pre| ==> IsJsSpace(pre[i])
    requires forall i :: 0 <= i < |post| ==> IsJsSpace(post[i])
    ensures Trim(pre + s + post) == Trim(s)
  {
    TrimStartPadded(s + post, pre);
    assert pre + s + post == pre + (s + post);
    TrimStartAppend(s, post);
  }

  lemma {:induction false} TrimStartPadded(s: string, pad: string)
    requires forall i :: 0 <= i < |pad| ==> IsJsSpace(pad[i])
    ensures TrimStart(pad + s) == TrimStart(s)
    decreases |pad|
  {
    if pad != [] {
      assert (pad + s)[0] == pad[0];
      assert (pad + s)[1..] == pad[1..] + s;
      TrimStartPadded(s, pad[1..]);
    } else {
      assert pad + s == s;
    }
  }

  lemma {:induction false} TrimEndPadded(s: string, pad: string)
    requires forall i :: 0 <= i < |pad| ==> IsJsSpace(pad[i])
    ensures TrimEnd(s + pad) == TrimEnd(s)
    decreases |pad|
  {
    if pad != [] {
      var n := |pad| - 1;
      assert (s + pad)[|s + pad| - 1] == pad[n];
      assert (s + pad)[..|s + pad| - 1] == s + pad[..n];
      TrimEndPadded(s, pad[..n]);
    } else {
      assert s + pad == s;
    }
  }

  /** Leading white space is stripped the same way whatever follows a non-blank text. */
  lemma {:induction false} TrimStartAppend(s: string, pad: string)
    requires forall i :: 0 <= i < |pad| ==> IsJsSpace(pad[i])
    ensures TrimEnd(TrimStart(s + pad)) == TrimEnd(TrimStart(s))
    decreases |s|
  {
    if s == [] {
      assert s + pad == pad;
      TrimStartPadded([], pad);
      assert pad + [] == pad;
    } else if IsJsSpace(s[0]) {
      assert (s + pad)[0] == s[0];
      assert (s + pad)[1..] == s[1..] + pad;
      TrimStartAppend(s[1..], pad);
    } else {
      assert (s + pad)[0] == s[0];
      TrimEndPadded(s, pad);
    }
  }

  // ---------------------------------------------------------------------------
  // The reply to one message

  datatype PluginConfig = PluginConfig(admins: seq<string>, minFavorabilityToRespond: int)

  /** What the middleware ends with. */
  datatype Reply =
    | PassOn                      // `return next()`
    | Refused(text: string)       // the favorability refusal
    | Picture(scene: Scene)       // `session.send(h.image(..))`
    | NetworkHiccup               // the catch block's '（网络波动...）'

  function RefusalText(p: Personality): string {
    DisplayName(p) + " 转过头去，不想理你。"
  }

  /** `${session.platform}-${userId}`, the key of the user's record. */
  function FullUserId(platform: string, userId: string): string {
    platform + "-" + userId
  }

  /** `.slice(-n)`: the last n entries; as in JavaScript, `slice(-0)` is the whole array. */
  function LastN<T>(s: seq<T>, n: nat): (r: seq<T>)
    ensures n > 0 ==> |r| == Min(n, |s|) && r == s[|s| - |r|..]
    ensures n == 0 ==> r == s
  {
    if n == 0 || |s| <= n then s else s[|s| - n..]
  }

  /**
   * What a sent picture shows for the answer `content` to `userMsg` from the
   * user whose record was `u`, and the favorability `store` then holds: the
   * whole answer as the main text, and the new favorability and its change on
   * the bar.
   */
  predicate PictureFor(scene: Scene, store: map<string, UserData>, id: string, u: UserData,
                       userMsg: string, content: string, r: int)
  {
    var p := u.currentPersonality;
    var delta := Clamp(AffinityBase(userMsg, content) + r, -5, 5);
    var newFav := Clamp(u.personalities.Get(p).favorability + delta, MinFavorability, MaxFavorability);
    && Concat(Texts(scene.main.runs)) == Utf16(content)
    && id in store && store[id].personalities.Get(p).favorability == newFav
    && (scene.bar.Some? ==> scene.bar.value == DrawBar(560.0, 325.0, 200.0, 24.0, newFav, Some(delta), Style(p)))
  }

  /**
   * The middleware on one message. `now` is the single `Date.now()` of the
   * call; `outcomes` are the POSTs `chat` would see, `r` the random term of
   * `analyzeAffinity`, `measure` and `sprite` what the canvas would report, and
   * `sendFails` whether sending the picture throws.
   */
  method HandleMessage(dm: DataManager, rl: RateLimiter, cfg: PluginConfig, msg: Incoming, now: int,
                       promptText: string, outcomes: seq<PostOutcome>, r: int,
                       measure: (Font, seq<CodeUnit>) -> real, sprite: Option<SpriteSource>, sendFails: bool)
    returns (reply: Reply)
    requires |outcomes| >= MaxRetries && -1 <= r <= 1
    modifies dm, rl
    ensures old(rl.Valid()) ==> rl.Valid()
    ensures old(Bounded(dm.State())) ==> Bounded(dm.State())
    ensures var accepted := Accept(msg, old(dm.globalData.blacklistUsers), old(dm.globalData.blacklistGroups));
            accepted.None? ==>
              reply == PassOn && dm.State() == old(dm.State())
              && rl.replyCount == old(rl.replyCount) && rl.lastResetTime == old(rl.lastResetTime)
    ensures var accepted := Accept(msg, old(dm.globalData.blacklistUsers), old(dm.globalData.blacklistGroups));
            accepted.Some? ==> rl.lastResetTime == WindowStart(old(rl.lastResetTime), now)
    ensures var accepted := Accept(msg, old(dm.globalData.blacklistUsers), old(dm.globalData.blacklistGroups));
            var count := WindowCount(old(rl.replyCount), old(rl.lastResetTime), now);
            accepted.Some? && count >= rl.maxPerMinute ==>
              reply == PassOn && dm.State() == old(dm.State()) && rl.replyCount == count
    ensures var accepted := Accept(msg, old(dm.globalData.blacklistUsers), old(dm.globalData.blacklistGroups));
            var count := WindowCount(old(rl.replyCount), old(rl.lastResetTime), now);
            var u := Lookup(old(dm.userStore), FullUserId(msg.platform, UidOrUnknown(msg.userId)), now);
            var fav := u.personalities.Get(u.currentPersonality).favorability;
            accepted.Some? && count < rl.maxPerMinute ==>
              && (reply.Refused? <==> fav < cfg.minFavorabilityToRespond)
              && (reply.Refused? ==> reply.text == RefusalText(u.currentPersonality) && rl.replyCount == count
                                     && dm.globalData == old(dm.globalData))
              && (reply.Picture? ==> rl.replyCount == count + 1 && reply.scene.tagName == DisplayName(u.currentPersonality)
                                     && (reply.scene.bar.Some? <==> u.settings.showFavorability))
              && (reply.NetworkHiccup? ==> rl.replyCount == count)
              && reply != PassOn
              && (fav >= cfg.minFavorabilityToRespond ==>
                    (reply.Picture? <==> (exists k :: AnsweredAt(outcomes, k)) && !sendFails))
    ensures var accepted := Accept(msg, old(dm.globalData.blacklistUsers), old(dm.globalData.blacklistGroups));
            var count := WindowCount(old(rl.replyCount), old(rl.lastResetTime), now);
            var id := FullUserId(msg.platform, UidOrUnknown(msg.userId));
            accepted.Some? && count < rl.maxPerMinute && reply.Refused? ==>
              dm.userStore == old(dm.userStore)[id := Lookup(old(dm.userStore), id, now)]
    ensures var accepted := Accept(msg, old(dm.globalData.blacklistUsers), old(dm.globalData.blacklistGroups));
            var id := FullUserId(msg.platform, UidOrUnknown(msg.userId));
            var u := Lookup(old(dm.userStore), id, now);
            reply.Picture? ==>
              accepted.Some? &&
              exists k :: AnsweredAt(outcomes, k) &&
                PictureFor(reply.scene, dm.userStore, id, u, accepted.value,
                           ExtractThought(outcomes[k].raw, u.settings.showInnerThought, outcomes[k].thoughtMatch).0, r)
  {
    var accepted := Accept(msg, dm.globalData.blacklistUsers, dm.globalData.blacklistGroups);
    if accepted.None? {
      return PassOn;
    }
    var userMsg := accepted.value;
    rl.Refresh(now);
    if rl.Saturated() {
      return PassOn;
    }
    var userId := UidOrUnknown(msg.userId);
    var fullUserId := FullUserId(msg.platform, userId);
    var userData := dm.GetUserData(fullUserId, now);
    var personality := userData.currentPersonality;
    var currentFav := dm.GetFavorability(fullUserId, personality, now);
    if currentFav < cfg.minFavorabilityToRespond {
      return Refused(RefusalText(personality));
    }
    rl.Admit();
    assert fullUserId in dm.userStore && dm.userStore[fullUserId] == userData;
    var scene := Converse(dm, userData, fullUserId, userId, userMsg, cfg.admins, promptText, outcomes, r,
                          measure, sprite, now);
    if scene.None? || sendFails {
      rl.Release();
      return NetworkHiccup;
    }
    return Picture(scene.value);
  }

  /** Records the user's message in the character's history and asks the model, with the last ten entries. */
  method Ask(dm: DataManager, u: UserData, userId: string, userMsg: string, admins: seq<string>,
             promptText: string, outcomes: seq<PostOutcome>, now: int)
    returns (prompt: PromptFacts, messages: seq<Message>, res: ChatResult)
    requires |outcomes| >= MaxRetries
    modifies dm`globalData
    ensures old(Bounded(dm.State())) ==> Bounded(dm.State())
    ensures var p := u.currentPersonality;
            dm.globalData == old(dm.globalData).(histories := old(dm.globalData).histories.Set(p,
              AppendCapped(old(dm.globalData).histories.Get(p), ChatMemory(User, userMsg, Some(userId), None, now))))
    ensures var p := u.currentPersonality;
            prompt == SystemPrompt(p, u.personalities.Get(p).favorability, u.settings.showInnerThought, userId, admins)
    ensures messages == BuildMessages(promptText, LastN(dm.globalData.histories.Get(u.currentPersonality), 10),
                                      userId, userMsg)
    ensures res.Replied? <==> exists k :: AnsweredAt(outcomes, k)
    ensures res.Replied? ==>
              && AnsweredAt(outcomes, res.attempts - 1)
              && res.response.content
                 == ExtractThought(outcomes[res.attempts - 1].raw, u.settings.showInnerThought,
                                   outcomes[res.attempts - 1].thoughtMatch).0
  {
    var personality := u.currentPersonality;
    dm.AddGlobalMessage(personality, User, userMsg, Some(userId), None, now);
    var history := LastN(dm.GlobalHistory(personality), 10);
    prompt, messages, res := Chat(personality, userMsg, history, u.personalities.Get(personality).favorability,
                                  u.settings.showInnerThought, userId, admins, promptText, outcomes);
  }

  /** Records the answer in the history and applies the favorability change `analyzeAffinity` picks. */
  method RecordAnswer(dm: DataManager, u: UserData, id: string, userMsg: string, content: string, r: int, now: int)
    returns (delta: int, newFav: int)
    requires -1 <= r <= 1
    requires id in dm.userStore && dm.userStore[id] == u
    modifies dm
    ensures old(Bounded(dm.State())) ==> Bounded(dm.State())
    ensures delta == Clamp(AffinityBase(userMsg, content) + r, -5, 5)
    ensures var p := u.currentPersonality;
            dm.globalData == old(dm.globalData).(histories := old(dm.globalData).histories.Set(p,
              AppendCapped(old(dm.globalData).histories.Get(p), ChatMemory(Assistant, content, None, None, now))))
    ensures dm.userStore == old(dm.userStore)[id := WithFavorability(u, u.currentPersonality, delta, now)]
    ensures var p := u.currentPersonality;
            && newFav == Clamp(u.personalities.Get(p).favorability + delta, MinFavorability, MaxFavorability)
            && id in dm.userStore && dm.userStore[id].personalities.Get(p).favorability == newFav
  {
    var personality := u.currentPersonality;
    var currentFav := u.personalities.Get(personality).favorability;
    dm.AddGlobalMessage(personality, Assistant, content, None, None, now);
    delta := AnalyzeAffinity(userMsg, content, currentFav, r);
    newFav := dm.UpdateFavorability(id, personality, delta, now);
  }

  /** `generateBubbleImage(config)`, seen through what the middleware hands it. */
  method Draw(c: BubbleConfig, measure: (Font, seq<CodeUnit>) -> real, sprite: Option<SpriteSource>)
    returns (scene: Scene)
    requires c.favorability.Some?
    ensures Concat(Texts(scene.main.runs)) == c.text
    ensures scene.tagName == DisplayName(c.personality)
    ensures scene.bar.Some? <==> c.showFavorability
    ensures scene.bar.Some? ==>
              scene.bar.value == DrawBar(560.0, 325.0, 200.0, 24.0, c.favorability.value, c.favorabilityDelta,
                                         Style(c.personality))
  {
    scene := Compose(c, measure, sprite);
    ComposeDrawsWholeText(c, measure, sprite);
  }

  /**
   * The `try` block after `replyCount++`: record the message, ask the model,
   * record its answer, update the favorability and draw the picture. `None`
   * stands for `chat` throwing.
   */
  method Converse(dm: DataManager, u: UserData, id: string, userId: string, userMsg: string, admins: seq<string>,
                  promptText: string, outcomes: seq<PostOutcome>, r: int,
                  measure: (Font, seq<CodeUnit>) -> real, sprite: Option<SpriteSource>, now: int)
    returns (scene: Option<Scene>)
    requires |outcomes| >= MaxRetries && -1 <= r <= 1
    requires id in dm.userStore && dm.userStore[id] == u
    modifies dm
    ensures old(Bounded(dm.State())) ==> Bounded(dm.State())
    ensures scene.Some? <==> exists k :: AnsweredAt(outcomes, k)
    ensures scene.Some? ==>
              && scene.value.tagName == DisplayName(u.currentPersonality)
              && (scene.value.bar.Some? <==> u.settings.showFavorability)
              && exists k :: AnsweredAt(outcomes, k) &&
                   PictureFor(scene.value, dm.userStore, id, u, userMsg,
                              ExtractThought(outcomes[k].raw, u.settings.showInnerThought, outcomes[k].thoughtMatch).0, r)
  {
    var prompt, messages, res := Ask(dm, u, userId, userMsg, admins, promptText, outcomes, now);
    scene := Finish(dm, u, id, userMsg, res, outcomes, r, measure, sprite, now);
  }

  /**
   * What follows `chat`: nothing when it threw; otherwise record the answer,
   * update the favorability and draw the picture.
   */
  method Finish(dm: DataManager, u: UserData, id: string, userMsg: string, res: ChatResult,
                outcomes: seq<PostOutcome>, r: int,
                measure: (Font, seq<CodeUnit>) -> real, sprite: Option<SpriteSource>, now: int)
    returns (scene: Option<Scene>)
    requires -1 <= r <= 1
    requires id in dm.userStore && dm.userStore[id] == u
    requires res.Replied? <==> exists k :: AnsweredAt(outcomes, k)
    requires res.Replied? ==>
               && AnsweredAt(outcomes, res.attempts - 1)
               && res.response.content
                  == ExtractThought(outcomes[res.attempts - 1].raw, u.settings.showInnerThought,
                                    outcomes[res.attempts - 1].thoughtMatch).0
    modifies dm
    ensures old(Bounded(dm.State())) ==> Bounded(dm.State())
    ensures scene.Some? <==> exists k :: AnsweredAt(outcomes, k)
    ensures scene.Some? ==>
              && scene.value.tagName == DisplayName(u.currentPersonality)
              && (scene.value.bar.Some? <==> u.settings.showFavorability)
              && exists k :: AnsweredAt(outcomes, k) &&
                   PictureFor(scene.value, dm.userStore, id, u, userMsg,
                              ExtractThought(outcomes[k].raw, u.settings.showInnerThought, outcomes[k].thoughtMatch).0, r)
    ensures res.Threw? ==> dm.State() == old(dm.State())
    ensures res.Replied? ==>
              var p := u.currentPersonality;
              var content := res.response.content;
              var delta := Clamp(AffinityBase(userMsg, content) + r, -5, 5);
              && dm.globalData == old(dm.globalData).(histories := old(dm.globalData).histories.Set(p,
                   AppendCapped(old(dm.globalData).histories.Get(p), ChatMemory(Assistant, content, None, None, now))))
              && dm.userStore == old(dm.userStore)[id := WithFavorability(u, p, delta, now)]
  {
    if res.Threw? {
      return None;
    }
    var response := res.response;
    var content := response.content;
    var delta, newFav := RecordAnswer(dm, u, id, userMsg, content, r, now);
    var bubble := BubbleConfig(Utf16(content), response.detectedEmotion, u.currentPersonality,
                               u.settings.showFavorability, Some(newFav), Some(delta),
                               u.settings.showInnerThought, Some(Utf16(response.innerThought)));
    var drawn := Draw(bubble, measure, sprite);
    assert PictureFor(drawn, dm.userStore, id, u, userMsg, content, r);
    scene := Some(drawn);
  }

  // ---------------------------------------------------------------------------
  // Commands

  /** The parts of a command's session the commands read. */
  datatype Session = Session(userId: Option<string>, platform: string)

  /** `checkAdmin`: a session with a user id listed in `admins`. */
  function CheckAdmin(session: Option<Session>, admins: seq<string>): (r: bool)
    ensures session.None? || !Truthy(session.value.userId) ==> !r
    ensures r <==> session.Some? && Truthy(session.value.userId) && exists i :: 0 <= i < |admins| && admins[i] == session.value.userId.value
  {
    session.Some? && Truthy(session.value.userId) && session.value.userId.value in admins
  }

  const OptionList := "可选：奈奈、蕾娜、小百合、小薰"
  const NoUserInfo := "无法获取用户信息"

  /** The own properties of the `map` literal in `galgame.switch`. */
  function AliasTable(name: string): Option<Personality> {
    if name == "奈奈" || name == "萝莉" then Some(Loli)
    else if name == "蕾娜" || name == "御姐" then Some(Ojou)
    else if name == "小百合" || name == "少妇" then Some(Milf)
    else if name == "小薰" || name == "男娘" then Some(Danshi)
    else None
  }

  const AliasNames: set<string> := {"奈奈", "萝莉", "蕾娜", "御姐", "小百合", "少妇", "小薰", "男娘"}

  /** Exactly the eight aliases are own properties of the table. */
  lemma AliasTableKeys(name: string)
    ensures AliasTable(name).Some? <==> name in AliasNames
  {
  }

  /** Each personality is reached by its display name and by one nickname. */
  lemma AliasesPairUp(p: Personality)
    ensures AliasTable(DisplayName(p)) == Some(p)
    ensures AliasTable(match p case Loli => "萝莉" case Ojou => "御姐" case Milf => "少妇" case Danshi => "男娘") == Some(p)
  {
  }

  /** The names every object literal inherits from `Object.prototype`. */
  const InheritedNames: set<string> := {
    "constructor", "toString", "toLocaleString", "valueOf", "hasOwnProperty", "isPrototypeOf",
    "propertyIsEnumerable", "__proto__", "__defineGetter__", "__defineSetter__",
    "__lookupGetter__", "__lookupSetter__"}

  /** What `map[p]` reads from the object literal as written. */
  datatype PropertyRead = Own(personality: Personality) | InheritedMember(name: string) | Undefined

  function AliasLookupAsWritten(name: string): (l: PropertyRead)
    ensures l.Own? <==> AliasTable(name).Some?
    ensures l.InheritedMember? <==> name in InheritedNames
  {
    if AliasTable(name).Some? then Own(AliasTable(name).value)
    else if name in InheritedNames then InheritedMember(name)
    else Undefined
  }

  /** `!p || !map[p]` is false, so the switch goes ahead: every found member is truthy. */
  predicate SwitchGoesAheadAsWritten(p: Option<string>) {
    Truthy(p) && !AliasLookupAsWritten(p.value).Undefined?
  }

  /**
   * As written, an inherited name passes the guard although it is no alias:
   * `switchPersonality` then stores a function as the current personality.
   */
  lemma InheritedNamePassesGuard()
    ensures SwitchGoesAheadAsWritten(Some("constructor"))
    ensures AliasTable("constructor").None?
  {
    assert "constructor" in InheritedNames;
  }

  /** The lookup as intended: only the eight own properties. */
  function Alias(p: Option<string>): (r: Option<Personality>)
    ensures r.Some? <==> Truthy(p) && p.value in AliasNames
    ensures r.Some? ==> SwitchGoesAheadAsWritten(p) && AliasTable(p.value) == r
  {
    if Truthy(p) then AliasTableKeys(p.value); AliasTable(p.value) else None
  }

  /** The corrected lookup rejects every inherited name. */
  lemma AliasRejectsInherited(name: string)
    requires name in InheritedNames
    ensures Alias(Some(name)).None?
  {
  }

  /** `galgame.switch <p>` with the corrected alias lookup. */
  method SwitchCommand(dm: DataManager, session: Option<Session>, p: Option<string>, now: int)
    returns (reply: string)
    modifies dm`userStore
    ensures session.None? || !Truthy(session.value.userId) ==>
              reply == NoUserInfo && dm.userStore == old(dm.userStore)
    ensures session.Some? && Truthy(session.value.userId) && Alias(p).None? ==>
              reply == OptionList && dm.userStore == old(dm.userStore)
    ensures session.Some? && Truthy(session.value.userId) && Alias(p).Some? ==>
              var id := FullUserId(session.value.platform, session.value.userId.value);
              reply == "你现在开始关注：" + DisplayName(Alias(p).value) + "。"
              && dm.userStore == old(dm.userStore)[id := Lookup(old(dm.userStore), id, now).(currentPersonality := Alias(p).value)]
    ensures old(Bounded(dm.State())) ==> Bounded(dm.State())
  {
    if session.None? || !Truthy(session.value.userId) {
      return NoUserInfo;
    }
    var target := Alias(p);
    if target.None? {
      return OptionList;
    }
    var id := FullUserId(session.value.platform, session.value.userId.value);
    dm.SwitchPersonality(id, target.value, now);
    reply := "你现在开始关注：" + DisplayName(target.value) + "。";
  }

  /** The trimmed, lower-cased argument of `galgame.fav` / `galgame.mind` means "on". */
  function ParseToggle(s: string): (on: bool)
    ensures on <==> ToLowerAscii(Trim(s)) in {"开", "on", "true"}
  {
    var v := ToLowerAscii(Trim(s));
    v == "开" || v == "on" || v == "true"
  }

  /** Padding an argument with white space never changes its meaning. */
  lemma ToggleIgnoresPadding(s: string, pre: string, post: string)
    requires forall i :: 0 <= i < |pre| ==> IsJsSpace(pre[i])
    requires forall i :: 0 <= i < |post| ==> IsJsSpace(post[i])
    ensures ParseToggle(pre + s + post) == ParseToggle(s)
  {
    TrimPadded(s, pre, post);
  }

  datatype ToggleKind = FavToggle | MindToggle

  const AskOnOff := "请输入：开 或 关"

  function TogglePatch(kind: ToggleKind, on: bool): SettingsPatch {
    match kind
    case FavToggle => SettingsPatch(Some(on), None)
    case MindToggle => SettingsPatch(None, Some(on))
  }

  function ToggleReply(kind: ToggleKind, on: bool): string {
    var state := if on then "开启" else "关闭";
    match kind
    case FavToggle => "好感度提示已" + state
    case MindToggle => "心理活动显示已" + state
  }

  /** `galgame.fav <s>` and `galgame.mind <s>`: set one display setting of the caller. */
  method ToggleCommand(dm: DataManager, kind: ToggleKind, session: Option<Session>, s: Option<string>, now: int)
    returns (reply: string)
    modifies dm`userStore
    ensures session.None? || !Truthy(session.value.userId) ==>
              reply == NoUserInfo && dm.userStore == old(dm.userStore)
    ensures session.Some? && Truthy(session.value.userId) && !Truthy(s) ==>
              reply == AskOnOff && dm.userStore == old(dm.userStore)
    ensures session.Some? && Truthy(session.value.userId) && Truthy(s) ==>
              var id := FullUserId(session.value.platform, session.value.userId.value);
              var on := ParseToggle(s.value);
              var u := Lookup(old(dm.userStore), id, now);
              reply == ToggleReply(kind, on)
              && dm.userStore == old(dm.userStore)[id := u.(settings := MergeSettings(u.settings, TogglePatch(kind, on)),
                                                            lastUpdated := now)]
    ensures session.Some? && Truthy(session.value.userId) && Truthy(s) ==>
              var u' := dm.userStore[FullUserId(session.value.platform, session.value.userId.value)];
              match kind
              case FavToggle => u'.settings.showFavorability == ParseToggle(s.value)
              case MindToggle => u'.settings.showInnerThought == ParseToggle(s.value)
    ensures old(Bounded(dm.State())) ==> Bounded(dm.State())
  {
    if session.None? || !Truthy(session.value.userId) {
      return NoUserInfo;
    }
    if !Truthy(s) {
      return AskOnOff;
    }
    var on := ParseToggle(s.value);
    var id := FullUserId(session.value.platform, session.value.userId.value);
    dm.UpdateSettings(id, TogglePatch(kind, on), now);
    reply := ToggleReply(kind, on);
  }

  datatype ListCommand = BlockUser | UnblockUser | BlockGroup | UnblockGroup

  /** `galgame.block.user`, `galgame.unblock.user`, `galgame.block.group`, `galgame.unblock.group`. */
  method BlacklistCommand(dm: DataManager, cmd: ListCommand, session: Option<Session>, admins: seq<string>,
                          target: Option<string>)
    returns (reply: string)
    modifies dm`globalData
    ensures !CheckAdmin(session, admins) ==> reply == "权限不足" && dm.globalData == old(dm.globalData)
    ensures CheckAdmin(session, admins) && !Truthy(target) ==>
              reply == (if cmd == BlockUser || cmd == UnblockUser then "请输入用户ID" else "请输入群号")
              && dm.globalData == old(dm.globalData)
    ensures CheckAdmin(session, admins) && Truthy(target) ==>
              var t := target.value;
              var g := old(dm.globalData);
              match cmd
              case BlockUser => reply == "已拉黑用户 " + t && dm.globalData == g.(blacklistUsers := Added(g.blacklistUsers, t))
              case UnblockUser => reply == "已解禁用户 " + t && dm.globalData == g.(blacklistUsers := Removed(g.blacklistUsers, t))
              case BlockGroup => reply == "已拉黑群组 " + t && dm.globalData == g.(blacklistGroups := Added(g.blacklistGroups, t))
              case UnblockGroup => reply == "已解禁群组 " + t && dm.globalData == g.(blacklistGroups := Removed(g.blacklistGroups, t))
    ensures old(Bounded(dm.State())) ==> Bounded(dm.State())
  {
    if !CheckAdmin(session, admins) {
      return "权限不足";
    }
    if !Truthy(target) {
      return if cmd == BlockUser || cmd == UnblockUser then "请输入用户ID" else "请输入群号";
    }
    var t := target.value;
    match cmd
    case BlockUser =>
      dm.AddBlacklistUser(t);
      reply := "已拉黑用户 " + t;
    case UnblockUser =>
      dm.RemoveBlacklistUser(t);
      reply := "已解禁用户 " + t;
    case BlockGroup =>
      dm.AddBlacklistGroup(t);
      reply := "已拉黑群组 " + t;
    case UnblockGroup =>
      dm.RemoveBlacklistGroup(t);
      reply := "已解禁群组 " + t;
  }

  /** A user an admin blocks is passed on by the middleware from then on. */
  lemma BlockedUserIsIgnored(msg: Incoming, users: seq<string>, groups: seq<string>)
    requires Truthy(msg.userId)
    ensures Accept(msg, Added(users, msg.userId.value), groups).None?
  {
  }
}
