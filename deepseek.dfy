/**
 * The decisions `DeepseekAPI` makes around its HTTP calls (src/deepseek.ts):
 * base-URL normalisation, the favorability level named in the prompt, the
 * keyword emotion classifier, the affinity delta, the chat message list,
 * the retry policy and the inner-thought guard. The HTTP client, the delays
 * and the prompt wording are not modelled; `Math.random()` is a parameter.
 */
module Deepseek {
  import opened Common
  import opened Data

  // ---------------------------------------------------------------------------
  // Base URL

  const DefaultBaseUrl := "https://api.deepseek.com"

  /** `config.baseUrl || DefaultBaseUrl`. */
  function ConfiguredUrl(configured: Option<string>): string {
    if Truthy(configured) then configured.value else DefaultBaseUrl
  }

  /** `if (s.endsWith(suffix)) s = s.slice(0, -suffix.length)`: one occurrence of `suffix` at the very end is removed. */
  function StripSuffix(s: string, suffix: string): (r: string)
    ensures EndsWith(s, suffix) ==> r + suffix == s
    ensures !EndsWith(s, suffix) ==> r == s
  {
    if EndsWith(s, suffix) then s[..|s| - |suffix|] else s
  }

  /** A URL ending in '/v1' does not end in '/'; one ending in '/v1/' is one ending in '/v1' plus '/'. */
  lemma SuffixFacts(u: string)
    ensures EndsWith(u, "/v1") ==> !EndsWith(u, "/")
    ensures EndsWith(u, "/v1/") ==> EndsWith(u, "/") && EndsWith(u[..|u| - 1], "/v1")
  {
    if EndsWith(u, "/v1") {
      assert u[|u| - 1] == u[|u| - 3..][2] == '1';
    }
    if EndsWith(u, "/v1/") {
      var tail := u[|u| - 4..];
      assert u[|u| - 1] == tail[3] == '/';
      var a := u[..|u| - 1];
      assert a[|a| - 3..] == tail[..3] == "/v1";
    }
  }

  /** The constructor's trimming: at most one trailing '/', then at most one trailing '/v1'. */
  function NormalizeBaseUrl(configured: Option<string>): (r: string)
    ensures !Truthy(configured) ==> r == DefaultBaseUrl
    ensures var u := ConfiguredUrl(configured);
            r == u || r + "/" == u || r + "/v1" == u || r + "/v1/" == u
    ensures var u := ConfiguredUrl(configured);
            EndsWith(u, "/v1/") ==> r + "/v1/" == u
    ensures var u := ConfiguredUrl(configured);
            EndsWith(u, "/v1") ==> r + "/v1" == u
    ensures var u := ConfiguredUrl(configured);
            !EndsWith(u, "/") && !EndsWith(u, "/v1") ==> r == u
    ensures var u := ConfiguredUrl(configured);
            EndsWith(u, "/") && !EndsWith(u[..|u| - 1], "/v1") ==> r + "/" == u
  {
    var u := ConfiguredUrl(configured);
    SuffixFacts(u);
    var a := StripSuffix(u, "/");
    var b := StripSuffix(a, "/v1");
    assert EndsWith(u, "/") ==> a == u[..|u| - 1];
    assert EndsWith(u, "/v1/") ==> b + "/v1/" == u by {
      if EndsWith(u, "/v1/") {
        assert b + "/v1" == a && a + "/" == u;
        assert b + "/v1/" == (b + "/v1") + "/";
      }
    }
    b
  }

  lemma NormalizeExamples()
    ensures NormalizeBaseUrl(None) == "https://api.deepseek.com"
    ensures NormalizeBaseUrl(Some("")) == "https://api.deepseek.com"
    ensures NormalizeBaseUrl(Some("https://h/v1/")) == "https://h"
    ensures NormalizeBaseUrl(Some("https://h//")) == "https://h/"
    ensures NormalizeBaseUrl(Some("https://h/v1")) == "https://h"
  {
    assert EndsWith("https://h/v1", "/v1");
    assert "https://h" + "/v1" == "https://h/v1";
    assert EndsWith("https://h/v1/", "/v1/");
    assert "https://h" + "/v1/" == "https://h/v1/";
    assert EndsWith("https://h//", "/");
    assert "https://h//"[..10] == "https://h/";
    assert !EndsWith("https://h/", "/v1");
    assert "https://h/" + "/" == "https://h//";
  }

  // ---------------------------------------------------------------------------
  // The favorability level named in the system prompt

  datatype Level = Hatred | Disgust | Ordinary | Fond | Adoring {
    function Label(): string {
      match this
      case Hatred => "仇恨"
      case Disgust => "厌恶"
      case Ordinary => "普通"
      case Fond => "喜欢"
      case Adoring => "深爱"
    }

    function Rank(): nat {
      match this
      case Hatred => 0
      case Disgust => 1
      case Ordinary => 2
      case Fond => 3
      case Adoring => 4
    }
  }

  /** The label `level` starts with and that no branch of the chain leaves in place. */
  const NeutralLabel := "中立"

  /** The if-chain in `buildSystemPrompt`. */
  function FavorabilityLevel(f: int): (l: Level)
    ensures l == Adoring <==> 80 <= f
    ensures l == Fond <==> 40 <= f < 80
    ensures l == Ordinary <==> 0 <= f < 40
    ensures l == Disgust <==> -40 <= f < 0
    ensures l == Hatred <==> f < -40
    ensures l.Label() != NeutralLabel
  {
    if f >= 80 then Adoring
    else if f >= 40 then Fond
    else if f >= 0 then Ordinary
    else if f >= -40 then Disgust
    else Hatred
  }

  /** A higher favorability never names a lower level. */
  lemma LevelMonotone(a: int, b: int)
    requires a <= b
    ensures FavorabilityLevel(a).Rank() <= FavorabilityLevel(b).Rank()
  {
  }

  /** The parts of the system prompt that depend on the inputs (its wording is not modelled). */
  datatype PromptFacts = PromptFacts(
    personality: Personality, favorability: int, level: Level, userId: string,
    adminRule: bool, innerThoughtRule: bool)

  function SystemPrompt(p: Personality, favorability: int, showInnerThought: bool,
                        userId: string, admins: seq<string>): (f: PromptFacts)
    ensures f.level == FavorabilityLevel(favorability)
    ensures f.adminRule <==> userId in admins
    ensures f.innerThoughtRule == showInnerThought
  {
    PromptFacts(p, favorability, FavorabilityLevel(favorability), userId, userId in admins, showInnerThought)
  }

  // ---------------------------------------------------------------------------
  // Emotion classification

  const HappyWords: seq<string> := ["哈哈", "开心", "喜欢", "❤️", "😊", "棒"]
  const SadWords: seq<string> := ["难过", "呜", "哭", "😢", "失望"]
  const AngryWords: seq<string> := ["生气", "滚", "讨厌", "😠", "😡"]

  /** How many entries of `words` occur in `text`, counted list entry by list entry. */
  function Hits(words: seq<string>, text: string): nat
    decreases |words|
  {
    if words == [] then 0
    else Hits(words[..|words| - 1], text) + (if Contains(text, words[|words| - 1]) then 1 else 0)
  }

  /** The distinct keywords of `words` that occur in `text`. */
  function Matched(words: seq<string>, text: string): set<string> {
    set w | w in words && Contains(text, w)
  }

  lemma MatchedSnoc(init: seq<string>, last: string, text: string)
    ensures Matched(init + [last], text)
            == Matched(init, text) + (if Contains(text, last) then {last} else {})
  {
    var words := init + [last];
    forall w | w in Matched(words, text)
      ensures w in Matched(init, text) || w == last
    {
      var i :| 0 <= i < |words| && words[i] == w;
      if i < |init| { assert init[i] == w; }
    }
    assert forall w :: w in init ==> w in words;
  }

  /** For a list without repeats, the count is the number of distinct keywords the text contains. */
  lemma {:induction false} HitsCountsDistinctKeywords(words: seq<string>, text: string)
    requires forall i, j :: 0 <= i < j < |words| ==> words[i] != words[j]
    ensures Hits(words, text) == |Matched(words, text)|
    decreases |words|
  {
    if words != [] {
      var init := words[..|words| - 1];
      var last := words[|words| - 1];
      assert words == init + [last];
      HitsCountsDistinctKeywords(init, text);
      MatchedSnoc(init, last, text);
      assert last !in Matched(init, text);
    }
  }

  lemma KeywordListsDistinct()
    ensures forall i, j :: 0 <= i < j < |HappyWords| ==> HappyWords[i] != HappyWords[j]
    ensures forall i, j :: 0 <= i < j < |SadWords| ==> SadWords[i] != SadWords[j]
    ensures forall i, j :: 0 <= i < j < |AngryWords| ==> AngryWords[i] != AngryWords[j]
  {
  }

  function Max3(a: nat, b: nat, c: nat): nat {
    if a >= b && a >= c then a else if b >= c then b else c
  }

  /** The choice `analyzeEmotion` makes from its three scores. */
  function Pick(happy: nat, sad: nat, angry: nat): (e: Emotion)
    ensures e == Think <==> happy == 0 && sad == 0 && angry == 0
    ensures e == Angry <==> angry > 0 && angry >= sad && angry >= happy
    ensures e == Sad <==> sad > 0 && sad > angry && sad >= happy
    ensures e == Happy <==> happy > 0 && happy > angry && happy > sad
  {
    var m := Max3(happy, sad, angry);
    if m == 0 then Think
    else if angry == m then Angry
    else if sad == m then Sad
    else if happy == m then Happy
    else Think
  }

  /** One `words.forEach(w => { if (lower.includes(w)) score++ })` loop. */
  method CountHits(words: seq<string>, text: string) returns (n: nat)
    ensures n == Hits(words, text)
  {
    n := 0;
    var i := 0;
    while i < |words|
      invariant 0 <= i <= |words|
      invariant n == Hits(words[..i], text)
    {
      assert words[..i + 1][..i] == words[..i];
      if Contains(text, words[i]) {
        n := n + 1;
      }
      i := i + 1;
    }
    assert words[..|words|] == words;
  }

  /** `analyzeEmotion`: the category with the highest keyword score, ties going angry, sad, happy. */
  method AnalyzeEmotion(content: string) returns (e: Emotion)
    ensures var h, s, a := Hits(HappyWords, content), Hits(SadWords, content), Hits(AngryWords, content);
            e == Pick(h, s, a)
            && (e == Think <==> h == 0 && s == 0 && a == 0)
            && (e == Angry ==> a >= s && a >= h)
            && (e == Sad ==> s > a && s >= h)
            && (e == Happy ==> h > a && h > s)
    ensures Hits(HappyWords, content) == |Matched(HappyWords, content)|
    ensures Hits(SadWords, content) == |Matched(SadWords, content)|
    ensures Hits(AngryWords, content) == |Matched(AngryWords, content)|
  {
    var happy := CountHits(HappyWords, content);
    var sad := CountHits(SadWords, content);
    var angry := CountHits(AngryWords, content);
    e := Pick(happy, sad, angry);
    KeywordListsDistinct();
    HitsCountsDistinctKeywords(HappyWords, content);
    HitsCountsDistinctKeywords(SadWords, content);
    HitsCountsDistinctKeywords(AngryWords, content);
  }

  // ---------------------------------------------------------------------------
  // Affinity

  /** The keyword part of `analyzeAffinity`'s delta, before the random term. */
  function AffinityBase(userMsg: string, aiMsg: string): int {
    (if Contains(userMsg, "喜欢") || Contains(userMsg, "爱") then 2 else 0)
    + (if Contains(userMsg, "滚") || Contains(userMsg, "傻") then -5 else 0)
    + (if Contains(aiMsg, "❤️") then 1 else 0)
  }

  /**
   * `analyzeAffinity`, with `Math.floor(Math.random() * 3) - 1` passed in as `r`.
   * `current` is accepted and unused, as in the source.
   */
  method AnalyzeAffinity(userMsg: string, aiMsg: string, current: int, r: int) returns (delta: int)
    requires -1 <= r <= 1
    ensures delta == Clamp(AffinityBase(userMsg, aiMsg) + r, -5, 5)
    ensures -5 <= delta <= 5
  {
    delta := 0;
    if Contains(userMsg, "喜欢") || Contains(userMsg, "爱") {
      delta := delta + 2;
    }
    if Contains(userMsg, "滚") || Contains(userMsg, "傻") {
      delta := delta - 5;
    }
    if Contains(aiMsg, "❤️") {
      delta := delta + 1;
    }
    delta := delta + r;
    delta := Clamp(delta, -5, 5);
  }

  /** An insult always lowers favorability, whatever else the messages say. */
  lemma InsultLowers(userMsg: string, aiMsg: string, r: int)
    requires -1 <= r <= 1
    requires Contains(userMsg, "滚") || Contains(userMsg, "傻")
    ensures Clamp(AffinityBase(userMsg, aiMsg) + r, -5, 5) <= -1
  {
  }

  /** Affection without an insult always raises favorability. */
  lemma AffectionRaises(userMsg: string, aiMsg: string, r: int)
    requires -1 <= r <= 1
    requires Contains(userMsg, "喜欢") || Contains(userMsg, "爱")
    requires !Contains(userMsg, "滚") && !Contains(userMsg, "傻")
    ensures Clamp(AffinityBase(userMsg, aiMsg) + r, -5, 5) >= 1
  {
  }

  // ---------------------------------------------------------------------------
  // The message list

  datatype Message = Message(role: Role, content: string)

  /** `h.uid || 'unknown'`. */
  function UidOrUnknown(uid: Option<string>): string {
    if Truthy(uid) then uid.value else "unknown"
  }

  function Tagged(uid: string, content: string): string {
    "[User " + uid + "]: " + content
  }

  /** The `history.map(...)` step: user turns are tagged, every other turn is sent as the assistant's. */
  function HistoryMessage(h: ChatMemory): (m: Message)
    ensures h.role == User ==> m == Message(User, Tagged(UidOrUnknown(h.uid), h.content))
    ensures h.role != User ==> m == Message(Assistant, h.content)
  {
    if h.role == User then Message(User, Tagged(UidOrUnknown(h.uid), h.content))
    else Message(Assistant, h.content)
  }

  /** The `messages` array `chat` posts. */
  function BuildMessages(system: string, history: seq<ChatMemory>, userId: string, userMessage: string)
    : (ms: seq<Message>)
    ensures |ms| == |history| + 2
    ensures ms[0] == Message(System, system)
    ensures forall i :: 1 <= i <= |history| ==> ms[i] == HistoryMessage(history[i - 1])
    ensures ms[|ms| - 1] == Message(User, Tagged(userId, userMessage))
  {
    [Message(System, system)]
    + seq(|history|, i requires 0 <= i < |history| => HistoryMessage(history[i]))
    + [Message(User, Tagged(userId, userMessage))]
  }

  // ---------------------------------------------------------------------------
  // The inner-thought guard

  const ThoughtMarker := "[心理:"

  /**
   * What the two regular expressions found in a reply: the captured thought and
   * the reply with the bracketed thought (and one following newline) removed.
   */
  datatype ThoughtMatch = ThoughtMatch(thought: string, remainder: string)

  /** A match can only be reported for a reply that contains the marker. */
  predicate MatchPlausible(raw: string, m: Option<ThoughtMatch>) {
    m.None? || Contains(raw, ThoughtMarker)
  }

  /** `(content, innerThought)` as `chat` sets them from a raw reply. */
  function ExtractThought(raw: string, showInnerThought: bool, m: Option<ThoughtMatch>): (r: (string, string))
    ensures !showInnerThought || m.None? ==> r == (raw, "")
    ensures MatchPlausible(raw, m) && !Contains(raw, ThoughtMarker) ==> r == (raw, "")
    ensures showInnerThought && m.Some? ==> r == (Trim(m.value.remainder), m.value.thought)
  {
    if showInnerThought && m.Some? then (Trim(m.value.remainder), m.value.thought)
    else (raw, "")
  }

  // ---------------------------------------------------------------------------
  // The retry loop

  const MaxRetries := 3

  /** How one POST ended: an answer, or an error carrying `error.response?.status`. */
  datatype PostOutcome =
    | Answer(raw: string, thoughtMatch: Option<ThoughtMatch>)
    | Failed(status: Option<int>)

  /** `!status || status >= 500 || status === 429`: absent and 0 are both falsy. */
  predicate Retryable(status: Option<int>): (r: bool)
    ensures status.None? || status.value == 0 || status.value >= 500 ==> r
    ensures status.Some? && 1 <= status.value < 500 ==> (r <==> status.value == 429)
  {
    status.None? || status.value == 0 || status.value >= 500 || status.value == 429
  }

  datatype Response = Response(content: string, detectedEmotion: Emotion, innerThought: string)

  /**
   * Attempt k (from 0) is the one whose answer `chat` returns: it answered and
   * every earlier POST failed with a status that is retried.
   */
  predicate AnsweredAt(outcomes: seq<PostOutcome>, k: int) {
    && 0 <= k < MaxRetries && k < |outcomes| && outcomes[k].Answer?
    && forall j :: 0 <= j < k ==> outcomes[j].Failed? && Retryable(outcomes[j].status)
  }

  /**
   * When every attempt up to `last` failed and `chat` throws at `last` (a status
   * that is not retried, or the last attempt), no attempt is the answered one.
   */
  lemma NoAnswerAfterThrow(outcomes: seq<PostOutcome>, last: int)
    requires 0 <= last < MaxRetries && last < |outcomes| && outcomes[last].Failed?
    requires forall j :: 0 <= j < last ==> outcomes[j].Failed?
    requires !Retryable(outcomes[last].status) || last == MaxRetries - 1
    ensures forall k :: !AnsweredAt(outcomes, k)
  {
  }

  /** At most one attempt is the answered one, so the answer shown is determined by the outcomes. */
  lemma AnsweredAtUnique(outcomes: seq<PostOutcome>, k1: int, k2: int)
    requires AnsweredAt(outcomes, k1) && AnsweredAt(outcomes, k2)
    ensures k1 == k2
  {
  }

  /** How `chat` ended, how many POSTs it made and the delays it waited between them. */
  datatype ChatResult =
    | Replied(response: Response, attempts: nat, waits: seq<int>)
    | Threw(status: Option<int>, attempts: nat, waits: seq<int>)

  /** `delay(1500 * attempt)` before retry k is `1500 * k` ms. */
  predicate Backoff(waits: seq<int>) {
    forall k :: 0 <= k < |waits| ==> waits[k] == 1500 * (k + 1)
  }

  /** The `try` block after a successful POST: the reply's emotion, then its inner thought. */
  method Answered(o: PostOutcome, showInnerThought: bool) returns (response: Response)
    requires o.Answer?
    ensures var (content, thought) := ExtractThought(o.raw, showInnerThought, o.thoughtMatch);
            response.content == content && response.innerThought == thought
            && response.detectedEmotion == Pick(Hits(HappyWords, o.raw), Hits(SadWords, o.raw), Hits(AngryWords, o.raw))
  {
    var emotion := AnalyzeEmotion(o.raw);
    var (content, thought) := ExtractThought(o.raw, showInnerThought, o.thoughtMatch);
    response := Response(content, emotion, thought);
  }

  /**
   * `chat`: builds the message list and runs the retry loop over the outcomes the
   * successive POSTs would have (`outcomes[k]` is the k-th POST's).
   */
  method Chat(p: Personality, userMessage: string, history: seq<ChatMemory>, favorability: int,
              showInnerThought: bool, userId: string, admins: seq<string>, systemText: string,
              outcomes: seq<PostOutcome>)
    returns (prompt: PromptFacts, messages: seq<Message>, res: ChatResult)
    requires |outcomes| >= MaxRetries
    ensures prompt == SystemPrompt(p, favorability, showInnerThought, userId, admins)
    ensures messages == BuildMessages(systemText, history, userId, userMessage)
    ensures 1 <= res.attempts <= MaxRetries
    ensures |res.waits| == res.attempts - 1 && Backoff(res.waits)
    ensures forall k :: 0 <= k < res.attempts - 1 ==> outcomes[k].Failed? && Retryable(outcomes[k].status)
    ensures res.Replied? <==> outcomes[res.attempts - 1].Answer?
    ensures res.Replied? <==> exists k :: AnsweredAt(outcomes, k)
    ensures res.Replied? ==> AnsweredAt(outcomes, res.attempts - 1)
    ensures res.Replied? ==>
              var o := outcomes[res.attempts - 1];
              var (content, thought) := ExtractThought(o.raw, showInnerThought, o.thoughtMatch);
              res.response.content == content && res.response.innerThought == thought
              && res.response.detectedEmotion
                 == Pick(Hits(HappyWords, o.raw), Hits(SadWords, o.raw), Hits(AngryWords, o.raw))
    ensures res.Threw? ==>
              res.status == outcomes[res.attempts - 1].status
              && (!Retryable(res.status) || res.attempts == MaxRetries)
  {
    prompt := SystemPrompt(p, favorability, showInnerThought, userId, admins);
    messages := BuildMessages(systemText, history, userId, userMessage);
    var attempt := 0;
    var waits: seq<int> := [];
    while attempt < MaxRetries
      invariant 0 <= attempt < MaxRetries
      invariant |waits| == attempt && Backoff(waits)
      invariant forall k :: 0 <= k < attempt ==> outcomes[k].Failed? && Retryable(outcomes[k].status)
      decreases MaxRetries - attempt
    {
      var o := outcomes[attempt];
      if o.Answer? {
        var response := Answered(o, showInnerThought);
        assert AnsweredAt(outcomes, attempt);
        res := Replied(response, attempt + 1, waits);
        return;
      }
      attempt := attempt + 1;
      if !Retryable(o.status) || attempt >= MaxRetries {
        NoAnswerAfterThrow(outcomes, attempt - 1);
        res := Threw(o.status, attempt, waits);
        return;
      }
      waits := waits + [1500 * attempt];
    }
    // The loop only ends by returning: `throw new Error('Deepseek API Retry Failed')` is unreachable.
    assert false;
  }
}
