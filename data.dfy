/**
 * The plugin's in-memory store (src/data.ts): per-user records, per-personality
 * favorability, the shared chat histories, the two blacklists and the
 * export/import pair used for persistence.
 */
module Data {
  import opened Common

  datatype Personality = Loli | Ojou | Milf | Danshi

  datatype Emotion = Happy | Sad | Angry | Think

  /** `PERSONALITY_INFO[p].name`, the character's display name. */
  function DisplayName(p: Personality): string {
    match p
    case Loli => "奈奈"
    case Ojou => "蕾娜"
    case Milf => "小百合"
    case Danshi => "小薰"
  }

  /** `PERSONALITY_INFO[p].folderName`, the sprite folder of a personality. */
  function FolderName(p: Personality): string {
    match p
    case Loli => "loli"
    case Ojou => "gril"
    case Milf => "woman"
    case Danshi => "mft"
  }

  /** Each character has its own display name and its own sprite folder. */
  lemma PersonalityInfoDistinct(p: Personality, q: Personality)
    requires p != q
    ensures DisplayName(p) != DisplayName(q)
    ensures FolderName(p) != FolderName(q)
  {
  }

  /** A `Record<Personality, T>`: one value per personality. */
  datatype ByPersonality<T> = ByPersonality(loli: T, ojou: T, milf: T, danshi: T) {

    function Get(p: Personality): T {
      match p
      case Loli => loli
      case Ojou => ojou
      case Milf => milf
      case Danshi => danshi
    }

    function Set(p: Personality, v: T): (r: ByPersonality<T>)
      ensures r.Get(p) == v
      ensures forall q :: q != p ==> r.Get(q) == Get(q)
    {
      match p
      case Loli => this.(loli := v)
      case Ojou => this.(ojou := v)
      case Milf => this.(milf := v)
      case Danshi => this.(danshi := v)
    }
  }

  function Uniform<T>(v: T): (r: ByPersonality<T>)
    ensures forall p :: r.Get(p) == v
  {
    ByPersonality(v, v, v, v)
  }

  datatype PersonalState = PersonalState(favorability: int, lastInteraction: int)

  datatype Settings = Settings(showFavorability: bool, showInnerThought: bool)

  /** A `Partial<UserData['settings']>`: None is a field the caller left out. */
  datatype SettingsPatch = SettingsPatch(showFavorability: Option<bool>, showInnerThought: Option<bool>)

  datatype UserData = UserData(
    userId: string,
    currentPersonality: Personality,
    personalities: ByPersonality<PersonalState>,
    settings: Settings,
    lastUpdated: int)

  datatype Role = User | Assistant | System

  datatype ChatMemory = ChatMemory(
    role: Role,
    content: string,
    uid: Option<string>,
    username: Option<string>,
    timestamp: int)

  datatype GlobalData = GlobalData(
    histories: ByPersonality<seq<ChatMemory>>,
    blacklistUsers: seq<string>,
    blacklistGroups: seq<string>)

  /** The keys a persisted `globalData` object may carry; None is an absent key. */
  datatype GlobalPatch = GlobalPatch(
    histories: Option<ByPersonality<seq<ChatMemory>>>,
    blacklistUsers: Option<seq<string>>,
    blacklistGroups: Option<seq<string>>)

  /** The object `exportData` builds and `importData` reads (`globalHistory` is the older format). */
  datatype Snapshot = Snapshot(
    users: Option<map<string, UserData>>,
    globalData: Option<GlobalPatch>,
    globalHistory: Option<ByPersonality<seq<ChatMemory>>>)

  /** What a DataManager holds: `userStore` and `globalData`. */
  datatype StoreState = StoreState(users: map<string, UserData>, global: GlobalData)

  const HistoryCap := 50
  const MinFavorability := -100
  const MaxFavorability := 100

  const EmptyGlobal := GlobalData(Uniform([]), [], [])
  const EmptyStore := StoreState(map[], EmptyGlobal)

  // ---------------------------------------------------------------------------
  // Users

  /** `createNewUser`: the record a first access creates. */
  function NewUser(userId: string, now: int): (u: UserData)
    ensures u.userId == userId && u.currentPersonality == Loli
    ensures forall p :: u.personalities.Get(p) == PersonalState(0, now)
    ensures u.settings == Settings(false, false) && u.lastUpdated == now
  {
    UserData(userId, Loli, Uniform(PersonalState(0, now)), Settings(false, false), now)
  }

  /** The record `getUserData` returns: the stored one, or a new default one. */
  function Lookup(store: map<string, UserData>, userId: string, now: int): (u: UserData)
    ensures userId in store ==> u == store[userId]
    ensures userId !in store ==> u == NewUser(userId, now)
  {
    if userId in store then store[userId] else NewUser(userId, now)
  }

  predicate FavorabilityInRange(u: UserData) {
    forall p :: MinFavorability <= u.personalities.Get(p).favorability <= MaxFavorability
  }

  /** The record after `updateFavorability(_, p, delta)` at time `now`. */
  function WithFavorability(u: UserData, p: Personality, delta: int, now: int): (r: UserData)
    ensures r.personalities.Get(p).favorability
              == Clamp(u.personalities.Get(p).favorability + delta, MinFavorability, MaxFavorability)
    ensures r.personalities.Get(p).lastInteraction == u.personalities.Get(p).lastInteraction
    ensures forall q :: q != p ==> r.personalities.Get(q) == u.personalities.Get(q)
    ensures r.userId == u.userId && r.currentPersonality == u.currentPersonality
    ensures r.settings == u.settings && r.lastUpdated == now
    ensures FavorabilityInRange(u) ==> FavorabilityInRange(r)
  {
    var s := u.personalities.Get(p);
    var f := Clamp(s.favorability + delta, MinFavorability, MaxFavorability);
    u.(personalities := u.personalities.Set(p, s.(favorability := f)), lastUpdated := now)
  }

  /** A run of `updateFavorability` calls on one user. */
  function ApplyUpdates(u: UserData, updates: seq<(Personality, int)>, now: int): UserData
    decreases |updates|
  {
    if updates == [] then u
    else ApplyUpdates(WithFavorability(u, updates[0].0, updates[0].1, now), updates[1..], now)
  }

  /** Favorabilities that start in [-100, 100] stay there under any run of updates. */
  lemma {:induction false} UpdatesKeepFavorabilityInRange(u: UserData, updates: seq<(Personality, int)>, now: int)
    requires FavorabilityInRange(u)
    ensures FavorabilityInRange(ApplyUpdates(u, updates, now))
    decreases |updates|
  {
    if updates != [] {
      UpdatesKeepFavorabilityInRange(WithFavorability(u, updates[0].0, updates[0].1, now), updates[1..], now);
    }
  }

  /** `Object.assign(settings, patch)`: the supplied fields win, the others stay. */
  function MergeSettings(s: Settings, patch: SettingsPatch): (r: Settings)
    ensures patch.showFavorability.Some? ==> r.showFavorability == patch.showFavorability.value
    ensures patch.showFavorability.None? ==> r.showFavorability == s.showFavorability
    ensures patch.showInnerThought.Some? ==> r.showInnerThought == patch.showInnerThought.value
    ensures patch.showInnerThought.None? ==> r.showInnerThought == s.showInnerThought
  {
    Settings(
      if patch.showFavorability.Some? then patch.showFavorability.value else s.showFavorability,
      if patch.showInnerThought.Some? then patch.showInnerThought.value else s.showInnerThought)
  }

  lemma MergeSettingsIdempotent(s: Settings, patch: SettingsPatch)
    ensures MergeSettings(MergeSettings(s, patch), patch) == MergeSettings(s, patch)
  {
  }

  // ---------------------------------------------------------------------------
  // Histories

  /** `push` then `slice(-50)` when longer than 50: the newest 50 entries are kept. */
  function AppendCapped(h: seq<ChatMemory>, m: ChatMemory): (r: seq<ChatMemory>)
    ensures |r| == Min(HistoryCap, |h| + 1)
    ensures r == (h + [m])[|h| + 1 - |r|..]
    ensures r[|r| - 1] == m
  {
    var all := h + [m];
    if |all| > HistoryCap then all[|all| - HistoryCap..] else all
  }

  // ---------------------------------------------------------------------------
  // Blacklists

  /** `if (!ids.includes(id)) ids.push(id)`. */
  function Added(ids: seq<string>, id: string): (r: seq<string>)
    ensures id in ids ==> r == ids
    ensures id !in ids ==> r == ids + [id]
    ensures id in r
    ensures forall x :: x in r <==> x in ids || x == id
    ensures IsSubsequence(ids, r)
    ensures NoDuplicates(ids) ==> NoDuplicates(r)
  {
    if id in ids then IsSubsequenceOfSelf(ids); ids
    else
      IsSubsequenceOfExtension(ids, [id]);
      assert multiset(ids + [id]) == multiset(ids) + multiset{id};
      ids + [id]
  }

  lemma AddedTwice(ids: seq<string>, id: string)
    ensures Added(Added(ids, id), id) == Added(ids, id)
  {
  }

  /** `ids.filter(x => x !== id)`. */
  function Removed(ids: seq<string>, id: string): (r: seq<string>)
    ensures id !in r
    ensures IsSubsequence(r, ids)
    ensures multiset(r) == multiset(ids)[id := 0]
    ensures NoDuplicates(ids) ==> NoDuplicates(r)
    decreases |ids|
  {
    if ids == [] then []
    else
      var rest := Removed(ids[1..], id);
      assert ids == [ids[0]] + ids[1..];
      assert multiset(ids) == multiset{ids[0]} + multiset(ids[1..]);
      var r := if ids[0] == id then rest else [ids[0]] + rest;
      assert IsSubsequence(r, ids) by {
        if ids[0] != id {
          assert r[0] == ids[0] && r[1..] == rest;
        } else if rest != [] {
          assert rest[0] != ids[0];
        }
      }
      assert multiset(r) == multiset(ids)[id := 0] by {
        if ids[0] != id {
          assert multiset(r) == multiset{ids[0]} + multiset(rest);
        }
      }
      assert NoDuplicates(ids) ==> NoDuplicates(r) by {
        if NoDuplicates(ids) {
          forall x ensures multiset(r)[x] <= 1 {
            assert multiset(ids)[x] <= 1;
          }
        }
      }
      r
  }

  lemma IsSubsequenceOfSelf(s: seq<string>)
    ensures IsSubsequence(s, s)
  {
  }

  lemma {:induction false} IsSubsequenceOfExtension(s: seq<string>, t: seq<string>)
    ensures IsSubsequence(s, s + t)
    decreases |s|
  {
    if s != [] {
      assert (s + t)[1..] == s[1..] + t;
      IsSubsequenceOfExtension(s[1..], t);
    }
  }

  // ---------------------------------------------------------------------------
  // Export and import

  /** `exportData()`. */
  function Export(st: StoreState): (snap: Snapshot)
    ensures snap.users == Some(st.users) && snap.globalHistory.None?
    ensures snap.globalData == Some(GlobalPatch(
              Some(st.global.histories), Some(st.global.blacklistUsers), Some(st.global.blacklistGroups)))
  {
    var g := st.global;
    Snapshot(Some(st.users), Some(GlobalPatch(Some(g.histories), Some(g.blacklistUsers), Some(g.blacklistGroups))), None)
  }

  /** `{ ...global, ...patch }`: a key the patch carries replaces the current one. */
  function Spread(g: GlobalData, patch: GlobalPatch): (r: GlobalData)
    ensures r.histories == (if patch.histories.Some? then patch.histories.value else g.histories)
    ensures r.blacklistUsers == (if patch.blacklistUsers.Some? then patch.blacklistUsers.value else g.blacklistUsers)
    ensures r.blacklistGroups == (if patch.blacklistGroups.Some? then patch.blacklistGroups.value else g.blacklistGroups)
  {
    GlobalData(
      if patch.histories.Some? then patch.histories.value else g.histories,
      if patch.blacklistUsers.Some? then patch.blacklistUsers.value else g.blacklistUsers,
      if patch.blacklistGroups.Some? then patch.blacklistGroups.value else g.blacklistGroups)
  }

  /** `importData(snap)`: imported users override stored ones with the same id. */
  function Import(st: StoreState, snap: Snapshot): (r: StoreState)
    ensures snap.users.Some? ==> r.users.Keys == st.users.Keys + snap.users.value.Keys
    ensures snap.users.Some? ==> forall id :: id in snap.users.value ==> r.users[id] == snap.users.value[id]
    ensures snap.users.Some? ==>
              forall id :: id in st.users && id !in snap.users.value ==> r.users[id] == st.users[id]
    ensures snap.users.None? ==> r.users == st.users
    ensures snap.globalData.Some? ==> r.global == Spread(st.global, snap.globalData.value)
    ensures snap.globalData.None? && snap.globalHistory.Some? ==>
              r.global == st.global.(histories := snap.globalHistory.value)
    ensures snap.globalData.None? && snap.globalHistory.None? ==> r.global == st.global
  {
    var users := if snap.users.Some? then st.users + snap.users.value else st.users;
    var global :=
      if snap.globalData.Some? then Spread(st.global, snap.globalData.value)
      else if snap.globalHistory.Some? then st.global.(histories := snap.globalHistory.value)
      else st.global;
    StoreState(users, global)
  }

  /** Importing an export into any store keeps its other users and takes everything else from the export. */
  lemma ImportOfExport(target: StoreState, st: StoreState)
    ensures Import(target, Export(st)) == StoreState(target.users + st.users, st.global)
  {
  }

  /** Importing an export into a fresh manager reproduces the exported store. */
  lemma ExportImportRoundTrip(st: StoreState)
    ensures Import(EmptyStore, Export(st)) == st
  {
    ImportOfExport(EmptyStore, st);
    assert map[] + st.users == st.users;
  }

  // ---------------------------------------------------------------------------
  // The store

  /** The invariant the store's own operations keep once it holds. */
  ghost predicate Bounded(st: StoreState) {
    && (forall id :: id in st.users ==> FavorabilityInRange(st.users[id]))
    && (forall p :: |st.global.histories.Get(p)| <= HistoryCap)
    && NoDuplicates(st.global.blacklistUsers)
    && NoDuplicates(st.global.blacklistGroups)
  }

  lemma EmptyStoreBounded()
    ensures Bounded(EmptyStore)
  {
  }

  class DataManager {
    var userStore: map<string, UserData>
    var globalData: GlobalData

    ghost function State(): StoreState
      reads this
    {
      StoreState(userStore, globalData)
    }

    constructor ()
      ensures State() == EmptyStore
    {
      userStore := map[];
      globalData := EmptyGlobal;
    }

    /** `getUserData`: creates the default record on first access. */
    method GetUserData(userId: string, now: int) returns (u: UserData)
      modifies this`userStore
      ensures u == Lookup(old(userStore), userId, now)
      ensures userId in old(userStore) ==> userStore == old(userStore)
      ensures userId !in old(userStore) ==> userStore == old(userStore)[userId := u]
      ensures old(Bounded(State())) ==> Bounded(State())
    {
      if userId !in userStore {
        userStore := userStore[userId := NewUser(userId, now)];
      }
      u := userStore[userId];
    }

    /** `getFavorability`. */
    method GetFavorability(userId: string, p: Personality, now: int) returns (f: int)
      modifies this`userStore
      ensures f == Lookup(old(userStore), userId, now).personalities.Get(p).favorability
      ensures userStore == old(userStore)[userId := Lookup(old(userStore), userId, now)]
      ensures old(Bounded(State())) ==> Bounded(State())
    {
      var u := GetUserData(userId, now);
      f := u.personalities.Get(p).favorability;
    }

    /** `updateFavorability`: returns the new, clamped favorability. */
    method UpdateFavorability(userId: string, p: Personality, delta: int, now: int) returns (f: int)
      modifies this`userStore
      ensures var before := Lookup(old(userStore), userId, now);
              f == Clamp(before.personalities.Get(p).favorability + delta, MinFavorability, MaxFavorability)
              && userStore == old(userStore)[userId := WithFavorability(before, p, delta, now)]
      ensures old(Bounded(State())) ==> Bounded(State())
    {
      var u := GetUserData(userId, now);
      var updated := WithFavorability(u, p, delta, now);
      userStore := userStore[userId := updated];
      f := updated.personalities.Get(p).favorability;
    }

    /** `switchPersonality`: only `currentPersonality` changes. */
    method SwitchPersonality(userId: string, p: Personality, now: int)
      modifies this`userStore
      ensures userStore == old(userStore)[userId := Lookup(old(userStore), userId, now).(currentPersonality := p)]
      ensures old(Bounded(State())) ==> Bounded(State())
    {
      var u := GetUserData(userId, now);
      userStore := userStore[userId := u.(currentPersonality := p)];
    }

    /** `updateSettings`: only the supplied settings and `lastUpdated` change. */
    method UpdateSettings(userId: string, patch: SettingsPatch, now: int)
      modifies this`userStore
      ensures var u := Lookup(old(userStore), userId, now);
              userStore == old(userStore)[userId := u.(settings := MergeSettings(u.settings, patch), lastUpdated := now)]
      ensures old(Bounded(State())) ==> Bounded(State())
    {
      var u := GetUserData(userId, now);
      userStore := userStore[userId := u.(settings := MergeSettings(u.settings, patch), lastUpdated := now)];
    }

    /** `addGlobalMessage`: appends to one personality's history, keeping the newest 50. */
    method AddGlobalMessage(p: Personality, role: Role, content: string, uid: Option<string>,
                            username: Option<string>, now: int)
      requires role != System
      modifies this`globalData
      ensures var m := ChatMemory(role, content, uid, username, now);
              globalData == old(globalData).(histories :=
                old(globalData).histories.Set(p, AppendCapped(old(globalData).histories.Get(p), m)))
      ensures |globalData.histories.Get(p)| <= HistoryCap
      ensures forall q :: q != p ==> globalData.histories.Get(q) == old(globalData).histories.Get(q)
      ensures old(Bounded(State())) ==> Bounded(State())
    {
      var m := ChatMemory(role, content, uid, username, now);
      globalData := globalData.(histories := globalData.histories.Set(p, AppendCapped(globalData.histories.Get(p), m)));
    }

    /** `getGlobalHistory`. */
    function GlobalHistory(p: Personality): (h: seq<ChatMemory>)
      reads this
      ensures Bounded(State()) ==> |h| <= HistoryCap
    {
      globalData.histories.Get(p)
    }

    /** `clearGlobalHistory`. */
    method ClearGlobalHistory(p: Personality)
      modifies this`globalData
      ensures globalData == old(globalData).(histories := old(globalData).histories.Set(p, []))
      ensures old(Bounded(State())) ==> Bounded(State())
    {
      globalData := globalData.(histories := globalData.histories.Set(p, []));
    }

    method AddBlacklistUser(userId: string)
      modifies this`globalData
      ensures globalData == old(globalData).(blacklistUsers := Added(old(globalData).blacklistUsers, userId))
      ensures IsUserBlacklisted(userId)
      ensures old(Bounded(State())) ==> Bounded(State())
    {
      globalData := globalData.(blacklistUsers := Added(globalData.blacklistUsers, userId));
    }

    method RemoveBlacklistUser(userId: string)
      modifies this`globalData
      ensures globalData == old(globalData).(blacklistUsers := Removed(old(globalData).blacklistUsers, userId))
      ensures !IsUserBlacklisted(userId)
      ensures old(Bounded(State())) ==> Bounded(State())
    {
      globalData := globalData.(blacklistUsers := Removed(globalData.blacklistUsers, userId));
    }

    function IsUserBlacklisted(userId: string): (b: bool)
      reads this
      ensures b <==> exists i :: 0 <= i < |globalData.blacklistUsers| && globalData.blacklistUsers[i] == userId
    {
      userId in globalData.blacklistUsers
    }

    method AddBlacklistGroup(groupId: string)
      modifies this`globalData
      ensures globalData == old(globalData).(blacklistGroups := Added(old(globalData).blacklistGroups, groupId))
      ensures IsGroupBlacklisted(groupId)
      ensures old(Bounded(State())) ==> Bounded(State())
    {
      globalData := globalData.(blacklistGroups := Added(globalData.blacklistGroups, groupId));
    }

    method RemoveBlacklistGroup(groupId: string)
      modifies this`globalData
      ensures globalData == old(globalData).(blacklistGroups := Removed(old(globalData).blacklistGroups, groupId))
      ensures !IsGroupBlacklisted(groupId)
      ensures old(Bounded(State())) ==> Bounded(State())
    {
      globalData := globalData.(blacklistGroups := Removed(globalData.blacklistGroups, groupId));
    }

    function IsGroupBlacklisted(groupId: string): (b: bool)
      reads this
      ensures b <==> exists i :: 0 <= i < |globalData.blacklistGroups| && globalData.blacklistGroups[i] == groupId
    {
      groupId in globalData.blacklistGroups
    }

    /** `exportData()`. */
    function ExportData(): (snap: Snapshot)
      reads this
      ensures snap == Export(State())
    {
      Export(StoreState(userStore, globalData))
    }

    /** `importData(snap)`. */
    method ImportData(snap: Snapshot)
      modifies this
      ensures State() == Import(old(State()), snap)
    {
      var st := Import(StoreState(userStore, globalData), snap);
      userStore := st.users;
      globalData := st.global;
    }
  }

  /** Exporting one manager and importing into a fresh one copies its users and global data. */
  method CopyStore(source: DataManager) returns (copy: DataManager)
    ensures fresh(copy)
    ensures copy.State() == source.State()
  {
    copy := new DataManager();
    copy.ImportData(source.ExportData());
    ExportImportRoundTrip(source.State());
  }
}
