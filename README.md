# koishi-plugin-galgame in Dafny

koishi-plugin-galgame is a Koishi chat-bot plugin. It plays four anime-style
characters (personalities): 奈奈 (loli), 蕾娜 (ojou), 小百合 (milf) and 小薰 (danshi).

- A private message, or a group message that @-mentions the bot, is answered by the
  DeepSeek chat API in the voice of the user's current character.
- The answer comes back as an 800×600 visual-novel picture: a background, the
  character's sprite, a dialogue box with the wrapped text and an optional
  favorability bar.
- Each user has a favorability value per character, kept in [-100, 100]. Below a
  configured minimum the character refuses to answer.
- A global limiter caps replies per minute.
- Admins can blacklist users and groups.

This project models the plugin's logic and proves properties of it. It has five
modules, one per source file plus a shared one:

| module | file | models |
|---|---|---|
| `Common` | common.dfy | Values shared by the other modules: `Option`, `Math.max/min` clamping, `includes`, `trim` (the full JavaScript white-space set), ASCII `toLowerCase`, and UTF-16 code units. |
| `Data` | data.dfy | `DataManager` (src/data.ts), modelled as a class. `userStore` is a `map` and `globalData` is a datatype value; every method reassigns them. The file also has the value types, the default user, and the export/import pair. |
| `Deepseek` | deepseek.dfy | The decisions `DeepseekAPI` makes (src/deepseek.ts): URL normalisation, the favorability level, keyword emotion scoring, the affinity delta, the message list, the retry loop and the inner-thought guard. |
| `Bubble` | bubble.dfy | src/bubble.ts: the in-place near-white keying loop on an `array<Byte>`, the sprite scale, `wrapText` as a loop proved against a recursive specification, `drawBar` as the rectangles and labels it draws, the image-path tables, and the fixed layout of `generateBubbleImage`. |
| `Plugin` | plugin.dfy | src/index.ts: the reply limiter as a class, the message gate, the middleware run on one message, `checkAdmin`, the `galgame.switch` aliases, the `fav`/`mind` toggles and the blacklist commands. |

Time (`Date.now()`), randomness (`Math.random()`), the HTTP outcomes, font
metrics and the sprite's decoded size are all parameters.

The canvas is always 800×600 and the dialogue box is always 220 high at y = 360
(src/bubble.ts:135-136, 170-171). Nothing measures the text first, so long text
runs past the box. `Bubble.LongTextLeavesTheBox` shows the effect: without a
thought, the sixth line of main text crosses the box's bottom edge and the seventh
starts below it.

## Model

| member | source | states |
|---|---|---|
| Common.Clamp | src/data.ts:125 | `Math.max(lo, Math.min(hi, v))`. The result lies in [lo, hi]. It is v when v is in range, and otherwise the bound that v passed. |
| Common.Contains | src/deepseek.ts:99-101 | `includes`: true exactly when the word occurs at some index of the text. |
| Common.Trim | src/index.ts:83 | `trim()`. The result is a contiguous slice of the input, and only JavaScript white space is removed on either side. When the result is not empty, it does not start or end with white space. |
| Common.ToLowerAscii | src/index.ts:193 | `toLowerCase()` restricted to ASCII. It keeps the length and lower-cases A–Z one character at a time. |
| Common.Utf16 | src/bubble.ts:315 | The code units `text.split('')` yields. The empty string gives no units, and a string never has fewer units than characters. |
| Common.Utf16Append | src/bubble.ts:315 | The code units of a concatenation are the code units of the two parts, concatenated (proved by induction). |
| Data.DisplayName | src/data.ts:39-84 | `PERSONALITY_INFO[p].name`: 奈奈, 蕾娜, 小百合, 小薰. |
| Data.FolderName | src/data.ts:39-84 | `PERSONALITY_INFO[p].folderName`: loli, gril, woman, mft. |
| Data.PersonalityInfoDistinct | src/data.ts:39-84 | Different characters have different display names and different sprite folders. |
| Data.NewUser | src/data.ts:102-116 | `createNewUser`. The record has the given id and personality loli. All four favorabilities are 0, with lastInteraction = now. Both settings are false and lastUpdated = now. |
| Data.Lookup | src/data.ts:95-100 | The record `getUserData` returns: the stored record for a known id, the default record for an unknown one. |
| Data.WithFavorability | src/data.ts:122-127 | The chosen personality's favorability becomes clamp(current + delta, -100, 100). Its lastInteraction, the other personalities, currentPersonality and settings are unchanged. lastUpdated becomes now. The range invariant is kept. |
| Data.UpdatesKeepFavorabilityInRange | src/data.ts:125 | Favorabilities that start in [-100, 100] stay there under any sequence of updates (proved by induction). |
| Data.MergeSettings | src/data.ts:134-137 | `Object.assign(settings, patch)`. A field the patch supplies is overwritten; a field it omits is kept. |
| Data.MergeSettingsIdempotent | src/data.ts:136 | Applying the same patch twice is the same as applying it once. |
| Data.AppendCapped | src/data.ts:142-153 | `push` followed by `slice(-50)`. The length is min(50, n+1). The result is the last entries of old ++ [msg], and the final entry is msg. |
| Data.Added | src/data.ts:166-170 | A list that already holds the id is unchanged; otherwise the id is appended at the end. Afterwards the id is a member, and no other member changes. The old list is a subsequence of the new one, and a duplicate-free list stays duplicate-free. |
| Data.AddedTwice | src/data.ts:166-170 | Adding the same id twice is the same as adding it once. |
| Data.Removed | src/data.ts:172-174 | `filter(x => x !== id)`. Afterwards the id is absent. The result is a subsequence of the input, so relative order is kept. Its multiset is the input's with the id's count set to 0, and it is duplicate-free when the input is. |
| Data.Export | src/data.ts:195-199 | `exportData` holds every user plus the histories and both blacklists, and no legacy `globalHistory` key. |
| Data.Spread | src/data.ts:206 | `{...global, ...patch}`. Each key the patch carries replaces the current value; every other key is kept. |
| Data.Import | src/data.ts:201-210 | Imported users override stored users with the same id, and every other stored user stays. `globalData` is spread over the current global data. Without it, a legacy `globalHistory` replaces only the histories. With neither, the global data is unchanged. |
| Data.ImportOfExport | src/data.ts:195-210 | Importing an export into any store unions the users, with the exported users winning, and takes the exported global data. |
| Data.ExportImportRoundTrip | src/data.ts:195-210 | `importData(exportData())` into a fresh store reproduces the original store exactly. |
| Data.EmptyStoreBounded | src/data.ts:87-93 | A fresh store satisfies the store invariant: favorabilities in range, histories of at most 50 entries, duplicate-free blacklists. |
| Data.DataManager.constructor | src/data.ts:87-93 | A new manager holds no users, four empty histories and two empty blacklists. |
| Data.DataManager.GetUserData | src/data.ts:95-100 | Returns `Lookup` of the old store. A known id leaves the store unchanged. An unknown id stores the default record under that id. The store invariant is kept. |
| Data.DataManager.GetFavorability | src/data.ts:118-120 | Returns the personality's favorability from the (possibly new) record. The only store change is creating that record. |
| Data.DataManager.UpdateFavorability | src/data.ts:122-128 | Returns clamp(current + delta, -100, 100) and stores exactly `WithFavorability` of the record. The store invariant is kept. |
| Data.DataManager.SwitchPersonality | src/data.ts:130-132 | The user's record, created first if missing, gets the new `currentPersonality`. Nothing else in it changes, and no other record changes. |
| Data.DataManager.UpdateSettings | src/data.ts:134-138 | The user's record, created first if missing, gets the settings merged with the patch and lastUpdated = now. Nothing else changes. |
| Data.DataManager.AddGlobalMessage | src/data.ts:142-154 | Takes a user or assistant entry, as the source's type allows. That personality's history becomes `AppendCapped(old, msg)` and stays at most 50 long. The other histories and both blacklists are unchanged. |
| Data.DataManager.GlobalHistory | src/data.ts:156-158 | `getGlobalHistory`: the personality's history, which holds at most 50 entries in a store that keeps the invariant. |
| Data.DataManager.ClearGlobalHistory | src/data.ts:160-162 | Only that personality's history becomes empty. |
| Data.DataManager.AddBlacklistUser | src/data.ts:166-170 | The user list becomes `Added(old, id)`, so afterwards the id is blacklisted. Nothing else changes. |
| Data.DataManager.RemoveBlacklistUser | src/data.ts:172-174 | The user list becomes `Removed(old, id)`, so afterwards the id is not blacklisted. Nothing else changes. |
| Data.DataManager.IsUserBlacklisted | src/data.ts:176-178 | `includes`: true exactly when the id occurs at some index of the user blacklist. |
| Data.DataManager.AddBlacklistGroup | src/data.ts:180-184 | The same as AddBlacklistUser, for groups. |
| Data.DataManager.RemoveBlacklistGroup | src/data.ts:186-188 | The same as RemoveBlacklistUser, for groups. |
| Data.DataManager.IsGroupBlacklisted | src/data.ts:190-192 | `includes`: true exactly when the id occurs at some index of the group blacklist. |
| Data.DataManager.ExportData | src/data.ts:195-199 | The snapshot is `Export` of the current store. |
| Data.DataManager.ImportData | src/data.ts:201-210 | The new store is `Import(old store, snapshot)`. |
| Data.CopyStore | src/data.ts:195-210 | A fresh manager that imports another manager's export holds the same users and global data as that manager. |
| Deepseek.NormalizeBaseUrl | src/deepseek.ts:27-29 | An absent or empty URL becomes https://api.deepseek.com. At most one trailing '/' is removed, then at most one trailing '/v1': a URL ending in '/v1' loses exactly that suffix, one ending in '/v1/' loses '/v1/', one ending in another '/' loses only that '/'. A URL with neither suffix is unchanged. |
| Deepseek.NormalizeExamples | src/deepseek.ts:27-29 | Examples: absent → default; 'https://h/v1/' → 'https://h'; 'https://h/v1' → 'https://h'; 'https://h//' → 'https://h/'. |
| Deepseek.FavorabilityLevel | src/deepseek.ts:54-59 | A step function, both directions per band: ≥80 深爱, [40,80) 喜欢, [0,40) 普通, [-40,0) 厌恶, <-40 仇恨. The label 中立 is never produced. |
| Deepseek.LevelMonotone | src/deepseek.ts:54-59 | A higher favorability never names a lower level. |
| Deepseek.SystemPrompt | src/deepseek.ts:45-89 | The prompt names the level of the favorability. It has the admin rule exactly when userId is in admins (line 62), and the inner-thought rule exactly when showInnerThought holds. |
| Deepseek.HitsCountsDistinctKeywords | src/deepseek.ts:99-101 | For a list without repeats, the score equals the number of distinct list keywords the text contains (proved by induction). |
| Deepseek.KeywordListsDistinct | src/deepseek.ts:92-94 | None of the three keyword lists repeats an entry. |
| Deepseek.Pick | src/deepseek.ts:103-108 | Both directions: think iff all three scores are 0. angry iff it is positive and not below either other score. sad iff it is positive, strictly above angry and not below happy. happy iff it is strictly above both others. |
| Deepseek.CountHits | src/deepseek.ts:99-101 | The `forEach` loop's counter equals `Hits` of the list. |
| Deepseek.AnalyzeEmotion | src/deepseek.ts:91-109 | The result is `Pick` of the three scores: a category of maximal score, with ties going angry, then sad, then happy. Think iff every score is 0. Each score is the number of distinct keywords present. |
| Deepseek.AnalyzeAffinity | src/deepseek.ts:175-182 | delta = clamp(base + r, -5, 5), where base is +2 for 喜欢/爱 in the user's message, -5 for 滚/傻, and +1 for ❤️ in the reply. delta always lies in [-5, 5]. |
| Deepseek.InsultLowers | src/deepseek.ts:178-181 | An insult (滚/傻) always gives a delta ≤ -1, whatever else the messages contain and whatever r is. |
| Deepseek.AffectionRaises | src/deepseek.ts:177-181 | Affection (喜欢/爱) without an insult always gives a delta ≥ 1. |
| Deepseek.HistoryMessage | src/deepseek.ts:123-129 | A user entry becomes "[User uid]: content", with 'unknown' for a missing or empty uid. Any other entry becomes an assistant message with its content unchanged. |
| Deepseek.BuildMessages | src/deepseek.ts:121-131 | Length is \|history\|+2. The system prompt comes first, then the history in order, then the tagged new message. |
| Deepseek.ExtractThought | src/deepseek.ts:148-157 | If the thought is disabled or nothing matches, content is the raw reply and the thought is ''. That also holds whenever the reply lacks "[心理:". Otherwise content is the trimmed remainder and the thought is the captured text. |
| Deepseek.Retryable | src/deepseek.ts:163-164 | An absent or 0 status and every status ≥ 500 is retried. Among the statuses 1 to 499, only 429 is retried. |
| Deepseek.AnsweredAtUnique | src/deepseek.ts:132-170 | At most one attempt answers after only retried failures, so the answer `chat` returns is determined by the POST outcomes. |
| Deepseek.NoAnswerAfterThrow | src/deepseek.ts:161-169 | When every attempt up to one failed and `chat` throws there (a status it does not retry, or the third attempt), no attempt is an answered one. |
| Deepseek.Answered | src/deepseek.ts:145-158 | An answered POST yields as emotion `Pick` of the raw reply's three keyword scores (scored before the thought is cut out), and the content and thought of `ExtractThought`. |
| Deepseek.Chat | src/deepseek.ts:111-172 | The message list is `BuildMessages`. There are 1 to 3 attempts, and every attempt but the last failed with a retryable status (absent, 0, ≥500 or 429). The wait before retry k is 1500·k ms. It replies iff the last attempt answered, which holds iff some attempt is the first answered one (`AnsweredAt`), with content, thought and emotion from that answer. It throws only on a non-retryable status or after the third attempt. The final `throw` is unreachable. |
| Bubble.Style | src/bubble.ts:35-77 | The `styles` table: background gradient, box fill and border, text colours and bar gradient of each character. |
| Bubble.StylesDistinct | src/bubble.ts:35-77 | No two characters share a style, and each bar gradient runs between two different colours. |
| Bubble.Keyed | src/bubble.ts:102-112 | Keying keeps the length and every R, G and B byte. A pixel with R, G and B all >245 gets alpha 0; every other pixel keeps its alpha. |
| Bubble.KeyedKeepsColour | src/bubble.ts:105-112 | Keying never changes whether a pixel counts as near-white. |
| Bubble.KeyedIdempotent | src/bubble.ts:105-112 | Keying an already keyed buffer changes nothing. |
| Bubble.KeyNearWhite | src/bubble.ts:101-112 | The in-place loop, stepping by 4, leaves the array equal to `Keyed` of its old contents. This includes a trailing partial pixel. |
| Bubble.ScaledSize | src/bubble.ts:124-125 | Null iff the source width is 0. Otherwise w ≤ maxW and h ≤ maxH, w·srcH = h·srcW (the aspect ratio is kept), and at least one bound is met exactly. |
| Bubble.WrapFrom | src/bubble.ts:316-325 | The scan emits at least one line, and the first line starts with the pending line. |
| Bubble.WrapFromStep | src/bubble.ts:318-324 | One step of the loop: break before c exactly when the line is non-empty and line+c is wider than maxW; otherwise append c. |
| Bubble.WrapFromPartitions | src/bubble.ts:315-326 | The emitted lines join back to the pending line followed by the rest. Every line before the last is non-empty, and so is the last one unless there was no input (proved by induction). |
| Bubble.WrapPartitions | src/bubble.ts:315-326 | Concatenating the lines of `wrapText` reproduces its input exactly. There is always at least one line, and none is empty for non-empty text. |
| Bubble.WrapFromFits | src/bubble.ts:318-324 | Every emitted line of two or more units has width ≤ maxW (proved by induction). |
| Bubble.WrapFits | src/bubble.ts:318-324 | Every line of `wrapText` of two or more units has width ≤ maxW. |
| Bubble.GreedyCons | src/bubble.ts:318-321 | A line that the next line's first unit would overflow can be put in front of greedy lines, and the result is still greedy. |
| Bubble.WrapFromGreedy | src/bubble.ts:318-321 | Each break is forced: a line followed by the next line's first unit is wider than maxW (proved by induction). |
| Bubble.WrapGreedy | src/bubble.ts:318-321 | Each line break of `wrapText` is forced by the width budget. |
| Bubble.Runs | src/bubble.ts:317-327 | Line i of the wrap is drawn at (x, y + lineH·i), with one draw per line. |
| Bubble.WrapText | src/bubble.ts:314-328 | The loop emits exactly `Runs` (the wrapped lines, in order, one line height apart) and returns y + lineH × (number of lines). |
| Bubble.NatToString | src/bubble.ts:293 | `${n}` for n ≥ 0 is a non-empty string of decimal digits. |
| Bubble.IntToString | src/bubble.ts:293 | `${n}` starts with '-' exactly when n < 0. |
| Bubble.NatToStringRoundTrip | src/bubble.ts:293 | Reading the digits back gives the number. |
| Bubble.NatToStringNoLeadingZero | src/bubble.ts:293 | The first digit is '0' exactly when n = 0, and 0 is written "0": there is no leading zero (proved by induction). |
| Bubble.IntToStringDigits | src/bubble.ts:293-305 | After the optional '-', `${n}` is exactly the digits of \|n\|: they read back as \|n\| and start with '0' only for n = 0. |
| Bubble.FillWidth | src/bubble.ts:255 | The fill width lies in [0, w/2]. It is 0 for a zero value and exactly w/2 at ±100. |
| Bubble.DeltaLabel | src/bubble.ts:296-309 | No label when delta is undefined or 0. Otherwise "+d" in #FF69B4 for d > 0, or "d" in #B0C4DE for d < 0, at (x+w+5, y-5). |
| Bubble.DrawBar | src/bubble.ts:238-312 | Track (x,y,w,h); divider (mid-1, y, 2, h); centre label shows the unclamped val at (mid, y+h/2). There is no fill iff val = 0. A positive value fills [mid, mid+fw] with the style's gradient; a negative value fills [mid-fw, mid] dark red to red. So the fill never crosses mid or leaves the track, and fw is computed from clamp(val, -100, 100). |
| Bubble.BarClampsFill | src/bubble.ts:248-277 | The fill for val equals the fill for clamp(val): 150 fills like 100 and -200 like -100. The label still shows 150. |
| Bubble.ImagePath | src/bubble.ts:83-86 | The sprite folder of each personality equals its `PERSONALITY_INFO.folderName` (src/data.ts:42,53,64,75). |
| Bubble.ImagePathInjective | src/bubble.ts:84-86 | Different (personality, emotion) pairs give different sprite files. |
| Bubble.PlaceSprite | src/bubble.ts:154-161 | There is a sprite iff the file decodes with non-zero width. It is at most 600×570, stands on the bottom edge (y + h = 600) and sits at x = (800 - w)/2 + 120. |
| Bubble.Compose | src/bubble.ts:132-235 | The canvas is always 800×600. The box is (20, 360, 760, 220), the name tag is (20, 330, 140, 40) with the character's name, and the sprite comes from `ImagePath`. The thought block exists iff showInnerThought and the thought is non-empty; it is "(💭 t)" wrapped from (50, 395) at 28 px. Main text is wrapped at width 700 and 34 px, from 395 or from the thought's end + 10. The bar exists iff showFavorability and a favorability is given, and it is `DrawBar(560, 325, 200, 24, …)`. |
| Bubble.ComposeDrawsWholeText | src/bubble.ts:216-218 | The main text's drawn lines concatenate to the whole text, however long. The canvas height stays 600. |
| Bubble.LongTextLeavesTheBox | src/bubble.ts:170-218 | Without a thought, the sixth main line starts at y = 565. Its 26 px text, drawn with textBaseline 'top' (lines 206, 217), runs past the box's bottom edge at 580. A seventh line starts at y = 599, below the edge. Nothing grows to hold them. |
| Plugin.RateLimiter.constructor | src/index.ts:49-50 | The count starts at 0 and the window starts at the given time. |
| Plugin.RateLimiter.Refresh | src/index.ts:87-91 | The window resets (count 0, start now) only when now − lastResetTime > 60000; otherwise nothing changes. The invariant count ≤ max(limit, 0) is kept. |
| Plugin.RateLimiter.Admit | src/index.ts:93-112 | Reached only when count < limit. The count goes up by one and the invariant holds afterwards. |
| Plugin.RateLimiter.Release | src/index.ts:153 | The count goes down by one and the invariant is kept. |
| Plugin.SaturatedForTheMinute | src/index.ts:87-96 | Over any run of checks (`WindowAfter`) made within 60000 ms of the reset, the window is never reset: count and start are unchanged, so a saturated window stays saturated for the whole run (proved by induction). |
| Plugin.WindowBoundaryIsStrict | src/index.ts:88 | A check exactly 60000 ms after the reset keeps the window; one at 60001 ms resets it. |
| Plugin.Accept | src/index.ts:74-84 | The message is passed on when its user (id truthy) or group is blacklisted, when it is neither private nor an @-mention, or when the trimmed text is empty or starts with 'galgame'. In every other case it is answered with the trimmed text. |
| Plugin.AcceptIgnoresPadding | src/index.ts:83-84 | White space added before and after a message, each pad chosen separately, never changes whether it is answered, or with what text. |
| Plugin.TrimPadded | src/index.ts:83 | `trim` removes white-space padding added before and after, each pad chosen independently. |
| Plugin.LastN | src/index.ts:115 | `slice(-n)`: for n > 0 the last min(n, length) entries; as in JavaScript, n = 0 gives the whole array. |
| Plugin.HandleMessage | src/index.ts:72-156 | A gated message is passed on with no state change. A saturated limiter passes the message on after the window check. Otherwise it refuses with "<name> 转过头去，不想理你。" iff the current favorability < the configured minimum, counting nothing. When it answers, it sends a picture iff some attempt answered and sending does not throw; otherwise it reports the network hiccup. A picture counts one reply. A failure (API throw or send throw) counts none. A refusal stores only the user's (possibly new) record. A picture comes from an accepted message and from the attempt `chat` returns, the first that answered after retried failures only: its main text is that answer's content, the stored favorability becomes clamp(old + delta, -100, 100) with delta = clamp(base + r, -5, 5) as in `AnalyzeAffinity`, and the bar, when shown, is `DrawBar(560, 325, 200, 24, …)` of the new favorability and that delta. The limiter and store invariants always hold. |
| Plugin.Ask | src/index.ts:114-124 | The history of the current personality gets the user entry (`AppendCapped`), exactly as `addGlobalMessage` does, and nothing else in the global data changes. `chat` is given that personality's current favorability, showInnerThought and userId (the prompt is `SystemPrompt` of them), and its message list is `BuildMessages` over the last ten entries of the updated history. It replies iff some attempt is the first answered one (`AnsweredAt`), and then the content is that attempt's `ExtractThought` content. The store invariant is kept. |
| Plugin.RecordAnswer | src/index.ts:126-128 | The history gets the assistant entry with the reply content, and nothing else in the global data changes. delta = clamp(base + r, -5, 5), as `analyzeAffinity` computes it. The user store becomes old[id := `WithFavorability(u, p, delta, now)`], so the stored and returned favorability is clamp(old + delta, -100, 100) and no other record changes. The store invariant is kept. |
| Plugin.Draw | src/index.ts:131-140 | The picture's main text is the whole reply content, the name tag names the character, and the bar (present iff showFavorability) is `DrawBar(560, 325, 200, 24, …)` of the given favorability and delta. |
| Plugin.Finish | src/index.ts:126-140 | After `chat`: when it threw, no picture and no state change. Otherwise the history gets the assistant entry, the store becomes old[id := `WithFavorability(u, p, delta, now)`] with delta = clamp(base + r, -5, 5), and the picture satisfies `PictureFor`: main text, new stored favorability and bar all agree with the reply's content. There is a picture iff some attempt answered. The store invariant is kept. |
| Plugin.Converse | src/index.ts:111-140 | The `try` block up to the send: there is a picture iff some attempt answered (`AnsweredAt`), and it is a picture of that first answered attempt as `PictureFor` describes it. The store invariant is kept. |
| Plugin.CheckAdmin | src/index.ts:161-164 | False without a session or a truthy userId; otherwise true iff userId is in admins. |
| Plugin.AliasTableKeys | src/index.ts:174-179 | The map has exactly the eight aliases as own keys. |
| Plugin.AliasesPairUp | src/index.ts:174-179 | Each personality is reached by its display name and by one nickname (萝莉, 御姐, 少妇, 男娘). |
| Plugin.AliasLookupAsWritten | src/index.ts:180 | As written, `map[p]` finds the eight own keys, and also finds every name inherited from Object.prototype. |
| Plugin.InheritedNamePassesGuard | src/index.ts:180-183 | As written, 'constructor' passes the guard although it is not an alias. |
| Plugin.Alias | src/index.ts:174-180 | Corrected lookup: Some iff the argument is truthy and one of the eight aliases. Every accepted name is also accepted as written. |
| Plugin.AliasRejectsInherited | src/index.ts:180 | The corrected lookup rejects every inherited name. |
| Plugin.SwitchCommand | src/index.ts:170-185 | Uses the corrected lookup `Alias` from "## Findings"; the code as written is modelled by `AliasLookupAsWritten`. Without a user → '无法获取用户信息'. A missing or unknown alias → the option list, with no state change. Otherwise the record of platform-userId (created if missing) gets the new currentPersonality, nothing else changes, and the reply names the character. |
| Plugin.ParseToggle | src/index.ts:193-194 | On iff the trimmed, ASCII-lower-cased argument is '开', 'on' or 'true'. Every other argument is off. |
| Plugin.ToggleIgnoresPadding | src/index.ts:193 | White space around the argument never changes its meaning. |
| Plugin.ToggleCommand | src/index.ts:187-213 | Without a user → '无法获取用户信息'. An empty argument → '请输入：开 或 关', with no change. Otherwise the record of platform-userId (created if missing) changes only in the one setting (fav: showFavorability, mind: showInnerThought), which becomes `ParseToggle(s)`, and in lastUpdated = now. The reply says 开启/关闭. |
| Plugin.BlacklistCommand | src/index.ts:216-246 | A non-admin gets '权限不足' and an empty target gets '请输入用户ID'/'请输入群号', both with no change. Otherwise the list becomes `Added`/`Removed` of the target, with the matching confirmation. |
| Plugin.BlockedUserIsIgnored | src/index.ts:74 | Once a user is added to the blacklist, the middleware passes every message from them on. |

## Left out

- Canvas rendering: gradients, `roundRect`, clipping, shadows, fonts and PNG encoding. The model computes the coordinates, colours and texts handed to the canvas, not the pixels.
- The PNG encode/reload round trip, `loadImage` and `fs.existsSync` (src/bubble.ts:92, 120-121, 154). They are I/O; their outcome is the `sprite` parameter.
- Bubble.ScaledSize: a decoded image of zero height gives a 0-high sprite of full width. Whether the canvas library's `getImageData` throws for it (which would make the result null) is not modelled.
- `measureText` is an uninterpreted width function passed in by the caller.
- JavaScript doubles are modelled as mathematical reals (scale, fill width) and integers (favorability, coordinates); rounding is not modelled.
- axios HTTP, `delay`/`setTimeout`, the 60 s timeout and the prompt wording. The POST results are the `outcomes` parameter of `Deepseek.Chat`, and only the facts the prompt depends on are kept.
- Deepseek.ExtractThought: the two regular expressions are not encoded. The match is a parameter, and the guard (disabled or no match) is modelled exactly.
- Deepseek.AnalyzeEmotion: `toLowerCase` is omitted. Every keyword is CJK text or an emoji, which lower-casing does not change.
- Common.ToLowerAscii: it only lower-cases A–Z. No other character lower-cases into the letters of 'on' or 'true', so `ParseToggle` gives the same answer as full `toLowerCase`.
- Koishi itself: `Schema`, command and middleware registration, `h.parse`/`h.transform` (the `body` field is the text with `at` elements removed), and `session.send`.
- The save timer, reading and writing the JSON file, and the dispose hook (src/index.ts:52-69, 248-251). All of this is persistence I/O.
- src/config.ts is not part of this model.
- Data.DataManager.ImportData: an arbitrary parsed JSON value becomes a typed `Snapshot`. A malformed file, which the source would store unchecked, is not covered, and the store invariant is not claimed after an import.
- Data.DataManager.GetUserData: the source returns the stored object itself, so later changes through it show up in the store. The model returns a value, and the methods that change a record write it back themselves.
- Plugin.HandleMessage: on a picture the contract states the main text, the bar and the user's new favorability; on a refusal, the whole new user store. It does not restate the rest of the new store on the picture and failure paths (the two history entries and a newly created record); `Plugin.Ask`, `Plugin.Finish` and `Data.DataManager.GetUserData` state those for the steps they perform.
- It is one sequential run per message. The source awaits between the increment and a failure's decrement, so a window reset in between can push the count below zero. `RateLimiter.Valid` allows that: count ≤ limit, or count ≤ 0.
- One `now` per call. The source calls `Date.now()` separately in several places, and the model does not distinguish those calls.
- `lastInteraction` is never updated by the source after creating a user, and the model keeps it that way.

## Findings

| source | as written | input that shows it | evidently intended | confidence | as-written member | corrected member |
|---|---|---|---|---|---|---|
| src/index.ts:174-183 | `if (!p \|\| !map[p])` reads `map[p]` on a plain object literal. A name inherited from Object.prototype therefore passes the guard. `switchPersonality` then stores that value (e.g. the `Object` function) as the user's current personality. `PERSONALITY_INFO[map[p]].name` then throws, and so does every later message of that user in the middleware (`personalities[personality].favorability`), until they switch again. | `galgame.switch constructor` (likewise `toString`, `valueOf`, `__proto__`, …) | Only the eight aliases switch; any other argument gets the option list. | high, not executed | Plugin.InheritedNamePassesGuard | Plugin.Alias |
