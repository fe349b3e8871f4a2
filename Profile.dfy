/**
 * The profile page controller `ProfilePage` (js/profile.js): the record it
 * loads, the static achievement and platform catalogs, the earned/connected
 * views derived from them by membership, the stats cards, and toggling a
 * social platform in the persisted list. The date text of the default record
 * is a parameter.
 */
module Profile {
  import opened Wrappers
  import opened Storage
  import opened Text

  /** An entry of the achievement catalog (js/profile.js:18-25); its `earned: false` is never read. */
  datatype Achievement = Achievement(id: int, name: string, icon: string, desc: string)

  /** An entry of the social platform catalog (js/profile.js:26-31). */
  datatype Platform = Platform(id: string, name: string, icon: string, color: string)

  const ACHIEVEMENT_CATALOG: seq<Achievement> := [
    Achievement(1, "First Race", "\U{1F3C1}", "Complete your first race"),
    Achievement(2, "Speed Demon", "\U{26A1}", "Reach 200 mph"),
    Achievement(3, "Coin Collector", "\U{1F4B0}", "Collect 1000 coins"),
    Achievement(4, "Quantum Master", "\U{1F300}", "Generate 10 ZK proofs"),
    Achievement(5, "NFT Hunter", "\U{1F3A8}", "Earn 5 NFTs"),
    Achievement(6, "Social Butterfly", "\U{1F98B}", "Connect all social accounts")
  ]

  const PLATFORM_CATALOG: seq<Platform> := [
    Platform("twitter", "Twitter/X", "\U{1D54F}", "#000000"),
    Platform("discord", "Discord", "\U{1F4AC}", "#5865F2"),
    Platform("telegram", "Telegram", "\U{2708}\U{FE0F}", "#0088cc"),
    Platform("github", "GitHub", "\U{1F468}\U{200D}\U{1F4BB}", "#333333")
  ]

  /** The placeholder address of the default record: "0x" and forty zeros, written in the parts the header shows. */
  const ZERO_ADDRESS: string := "0x0000" + "00000000000000000000000000000000" + "0000"

  /** `getDefaultUserData` (js/profile.js:94-109); `today` is `new Date().toLocaleDateString()`. */
  function DefaultUserData(today: string): (r: UserRecord)
    ensures r.isWalletConnected == Some(false) && r.achievements == Some([])
    ensures r.zkCoins == Some(0) && r.zkProofs == Some(0) && r.bestLap == Some(LapZero)
    ensures r.currentAccount.Some? && r.currentAccount.value.Addr?
    ensures var a := r.currentAccount.value.text; |a| == 42 && a[..2] == "0x" && forall k :: 2 <= k < 42 ==> a[k] == '0'
    ensures r.userProfile == Some(UserProfile(Some("Anonymous"), Some(0), Some(today), Some(0)))
  {
    UserRecord(Some(0), Some(0), Some(LapZero), Some([]), Some(Addr(ZERO_ADDRESS)), Some(false),
               Some(UserProfile(Some("Anonymous"), Some(0), Some(today), Some(0))))
  }

  /**
   * `loadUserData` (js/profile.js:80-92): an absent or unparsable slot gives
   * the default record; a parsed record replaces `userData` as it is, missing
   * keys included. A stored array has none of the seven keys.
   */
  function LoadedUserData(slot: Option<Entry>, today: string): (r: UserRecord)
    ensures slot.None? || slot == Some(Corrupt) ==> r == DefaultUserData(today)
    ensures slot.Some? && slot.value.UserData? ==> r == slot.value.record
    ensures slot.Some? && slot.value.IdList? ==> r == EMPTY_RECORD
  {
    match slot
    case None => DefaultUserData(today)
    case Some(Corrupt) => DefaultUserData(today)
    case Some(UserData(r)) => r
    case Some(IdList(_)) => EMPTY_RECORD
  }

  /**
   * `JSON.parse(localStorage.getItem('connectedSocials')) || []`
   * (js/profile.js:32): an absent slot is the empty list. None when the page
   * cannot be built: unparsable text throws out of the constructor, and an
   * object is not a list.
   */
  function LoadedSocials(slot: Option<Entry>): (r: Option<seq<string>>)
    ensures r.Some? <==> slot.None? || slot.value.IdList?
    ensures slot.None? ==> r == Some([])
    ensures slot.Some? && slot.value.IdList? ==> r == Some(slot.value.ids)
  {
    match slot
    case None => Some([])
    case Some(IdList(ids)) => Some(ids)
    case _ => None
  }

  /** A missing or unparsable record loads as the disconnected, all-zero default. */
  lemma UnreadableRecordLoadsDefault(slot: Option<Entry>, today: string)
    requires slot.None? || slot == Some(Corrupt)
    ensures LoadedUserData(slot, today) == DefaultUserData(today)
    ensures LoadedUserData(slot, today).isWalletConnected == Some(false)
    ensures LoadedUserData(slot, today).currentAccount == Some(Addr(ZERO_ADDRESS))
    ensures LoadedUserData(slot, today).achievements == Some([])
  {
  }

  /** A parsed record is taken whole: no key is filled in from the default. */
  lemma ParsedRecordIsTakenWhole(r: UserRecord, today: string)
    ensures LoadedUserData(Some(UserData(r)), today) == r
  {
  }

  // ---------------------------------------------------------------- views

  /** One achievement as `setupAchievements` renders it. */
  datatype AchievementItem = AchievementItem(achievement: Achievement, earned: bool)

  /**
   * `setupAchievements` (js/profile.js:168-187): one item per catalog entry,
   * in catalog order, earned iff the record lists its name; no list, none earned.
   */
  function AchievementView(catalog: seq<Achievement>, earned: Option<seq<string>>): (v: seq<AchievementItem>)
    ensures |v| == |catalog|
    ensures forall i :: 0 <= i < |catalog| ==>
      v[i].achievement == catalog[i] && (v[i].earned <==> earned.Some? && catalog[i].name in earned.value)
  {
    if catalog == [] then []
    else
      var isEarned := earned.Some? && catalog[0].name in earned.value;
      [AchievementItem(catalog[0], isEarned)] + AchievementView(catalog[1..], earned)
  }

  /** One platform as `setupSocialConnections` renders it. */
  datatype SocialItem = SocialItem(platform: Platform, connected: bool)

  /**
   * `setupSocialConnections` (js/profile.js:189-218): one item per catalog
   * platform, in catalog order, connected iff its id is in the list.
   */
  function SocialView(catalog: seq<Platform>, connected: seq<string>): (v: seq<SocialItem>)
    ensures |v| == |catalog|
    ensures forall i :: 0 <= i < |catalog| ==>
      v[i].platform == catalog[i] && (v[i].connected <==> catalog[i].id in connected)
  {
    if catalog == [] then []
    else [SocialItem(catalog[0], catalog[0].id in connected)] + SocialView(catalog[1..], connected)
  }

  /** A value written into a stats card: a number, `undefined`, or a text. */
  datatype Stat = Amount(n: int) | Unset | Caption(text: string)

  /** A number that may be undefined. */
  function AmountOf(x: Option<int>): Stat {
    if x.Some? then Amount(x.value) else Unset
  }

  /** `bestLap ? `${bestLap}s` : '0s'`: the number 0, an empty text and a missing key show "0s". */
  function LapCaption(bestLap: Option<Lap>): string {
    if bestLap.Some? && bestLap.value.LapText? && bestLap.value.text != "" then bestLap.value.text + "s" else "0s"
  }

  /** `profile?.level || 0`. */
  function LevelOf(profile: Option<UserProfile>): int {
    if profile.Some? then profile.value.level.GetOr(0) else 0
  }

  /** `profile?.totalRaces || 0`. */
  function RacesOf(profile: Option<UserProfile>): int {
    if profile.Some? then profile.value.totalRaces.GetOr(0) else 0
  }

  /** `this.userData.achievements?.length || 0`. */
  function CountOf(achievements: Option<seq<string>>): nat {
    if achievements.Some? then |achievements.value| else 0
  }

  /**
   * The `stats` list of `updateStatsSection` (js/profile.js:152-159): coins,
   * proofs, best lap, level, races, achievement count, in that order.
   */
  function StatsList(coins: Option<int>, proofs: Option<int>, bestLap: Option<Lap>,
                     profile: Option<UserProfile>, achievements: Option<seq<string>>): (stats: seq<Stat>)
    ensures |stats| == 6
    ensures stats[0] == AmountOf(coins) && stats[1] == AmountOf(proofs)
    ensures coins.Some? ==> stats[0] == Amount(coins.value)
    ensures proofs.Some? ==> stats[1] == Amount(proofs.value)
    ensures profile.Some? ==>
      stats[3] == Amount(profile.value.level.GetOr(0)) && stats[4] == Amount(profile.value.totalRaces.GetOr(0))
    ensures stats[2].Caption? && |stats[2].text| >= 2 && stats[2].text[|stats[2].text| - 1] == 's'
    ensures (bestLap.Some? && bestLap.value.LapText? && bestLap.value.text != "") ==> stats[2] == Caption(bestLap.value.text + "s")
    ensures !(bestLap.Some? && bestLap.value.LapText? && bestLap.value.text != "") ==> stats[2] == Caption("0s")
    ensures profile.None? ==> stats[3] == Amount(0) && stats[4] == Amount(0)
    ensures achievements.Some? ==> stats[5] == Amount(|achievements.value|)
    ensures achievements.None? ==> stats[5] == Amount(0)
  {
    [AmountOf(coins), AmountOf(proofs), Caption(LapCaption(bestLap)),
     Amount(LevelOf(profile)), Amount(RacesOf(profile)), Amount(CountOf(achievements))]
  }

  /** The stats of a whole record, as `displayUserStats` passes them on. */
  function RecordStats(u: UserRecord): (stats: seq<Stat>)
    ensures |stats| == 6
    ensures stats == StatsList(u.zkCoins, u.zkProofs, u.bestLap, u.userProfile, u.achievements)
    ensures stats[0] == AmountOf(u.zkCoins) && stats[1] == AmountOf(u.zkProofs)
    ensures stats[5] == Amount(if u.achievements.Some? then |u.achievements.value| else 0)
  {
    StatsList(u.zkCoins, u.zkProofs, u.bestLap, u.userProfile, u.achievements)
  }

  /** The default record shows zero everywhere. */
  lemma DefaultStatsAreZero(today: string)
    ensures RecordStats(DefaultUserData(today)) ==
      [Amount(0), Amount(0), Caption("0s"), Amount(0), Amount(0), Amount(0)]
  {
  }

  /** A record without a profile or achievements still shows 0 for level, races and count. */
  lemma MissingKeysShowZero(u: UserRecord)
    requires u.userProfile.None? && u.achievements.None? && u.bestLap.None?
    ensures RecordStats(u)[2..] == [Caption("0s"), Amount(0), Amount(0), Amount(0)]
  {
  }

  /** The cards after the `forEach`: card i takes stat i when there is one, the rest keep theirs. */
  function WrittenCards(cards: seq<Stat>, stats: seq<Stat>): (r: seq<Stat>)
    ensures |r| == |cards|
    ensures forall i :: 0 <= i < |cards| && i < |stats| ==> r[i] == stats[i]
    ensures forall i :: |stats| <= i < |cards| ==> r[i] == cards[i]
  {
    seq(|cards|, i requires 0 <= i < |cards| => if i < |stats| then stats[i] else cards[i])
  }

  /** The page header of `displayUserStats` (js/profile.js:131-147). */
  datatype Header = Header(title: string, wallet: Option<string>, miniCoins: Option<int>, miniProofs: Option<int>)

  /** An account that JavaScript treats as true: a non-empty address. */
  predicate HasAddress(a: Option<Account>) {
    a.Some? && a.value.Addr? && a.value.text != ""
  }

  /**
   * `displayUserStats`: the username or "Player", the abbreviated wallet only
   * when `currentAccount` is truthy (None: the line is not written), and the
   * two mini counters.
   */
  function DisplayUserStats(u: UserRecord): (h: Header)
    ensures h.wallet.Some? <==> HasAddress(u.currentAccount)
    ensures HasAddress(u.currentAccount) ==> h.wallet == Some("Wallet: " + Abbreviate(u.currentAccount.value.text))
    ensures h.title != ""
    ensures u.userProfile.Some? && u.userProfile.value.username.Some? && u.userProfile.value.username.value != ""
            ==> h.title == u.userProfile.value.username.value
    ensures !(u.userProfile.Some? && u.userProfile.value.username.Some? && u.userProfile.value.username.value != "")
            ==> h.title == "Player"
    ensures h.miniCoins == u.zkCoins && h.miniProofs == u.zkProofs
  {
    var title :=
      if u.userProfile.Some? && u.userProfile.value.username.Some? && u.userProfile.value.username.value != ""
      then u.userProfile.value.username.value else "Player";
    var wallet := if HasAddress(u.currentAccount) then Some("Wallet: " + Abbreviate(u.currentAccount.value.text)) else None;
    Header(title, wallet, u.zkCoins, u.zkProofs)
  }

  /** The default record's header shows the placeholder user and the zero address abbreviated. */
  lemma DefaultHeader(today: string)
    ensures DisplayUserStats(DefaultUserData(today)) ==
      Header("Anonymous", Some("Wallet: 0x0000...0000"), Some(0), Some(0))
  {
    AbbreviateParts("0x0000", "00000000000000000000000000000000", "0000");
    assert "Wallet: " + ("0x0000" + "..." + "0000") == "Wallet: 0x0000...0000";
  }

  // ---------------------------------------------------------------- social toggle

  /** `toggleSocialConnection` on the list: splice out the first occurrence, or push. */
  function Toggled(list: seq<string>, platform: string): (r: seq<string>)
    ensures |r| == if platform in list then |list| - 1 else |list| + 1
    ensures platform in list ==> r == list[..IndexOf(list, platform)] + list[IndexOf(list, platform) + 1..]
    ensures platform !in list ==> r == list + [platform]
  {
    var index := IndexOf(list, platform);
    if index > -1 then list[..index] + list[index + 1..] else list + [platform]
  }

  /** No id occurs twice. */
  predicate NoDup(list: seq<string>) {
    forall i, j :: 0 <= i < j < |list| ==> list[i] != list[j]
  }

  /** The list with every occurrence of `id` dropped, the others in order. */
  function Without(list: seq<string>, id: string): seq<string> {
    if list == [] then [] else (if list[0] == id then [] else [list[0]]) + Without(list[1..], id)
  }

  lemma {:induction false} WithoutConcat(a: seq<string>, b: seq<string>, id: string)
    ensures Without(a + b, id) == Without(a, id) + Without(b, id)
  {
    if a == [] {
      assert a + b == b;
    } else {
      assert (a + b)[1..] == a[1..] + b;
      WithoutConcat(a[1..], b, id);
    }
  }

  lemma {:induction false} WithoutAbsent(list: seq<string>, id: string)
    requires id !in list
    ensures Without(list, id) == list
  {
    if list != [] {
      WithoutAbsent(list[1..], id);
    }
  }

  /** An id that is absent is appended at the end. */
  lemma ToggleAppendsAbsent(list: seq<string>, platform: string)
    requires platform !in list
    ensures Toggled(list, platform) == list + [platform]
  {
  }

  /** Toggling adds one copy of an absent id, or removes one copy of a present id. */
  lemma ToggleCounts(list: seq<string>, platform: string)
    ensures multiset(Toggled(list, platform)) ==
      if platform in list then multiset(list) - multiset{platform} else multiset(list) + multiset{platform}
  {
    if platform in list {
      var i := IndexOf(list, platform);
      assert list == list[..i] + [platform] + list[i + 1..];
    }
  }

  /** Toggling never reorders the other ids. */
  lemma ToggleKeepsOthersInOrder(list: seq<string>, platform: string)
    ensures Without(Toggled(list, platform), platform) == Without(list, platform)
  {
    var i := IndexOf(list, platform);
    if i > -1 {
      assert list == list[..i] + ([platform] + list[i + 1..]);
      WithoutConcat(list[..i], [platform] + list[i + 1..], platform);
      WithoutConcat([platform], list[i + 1..], platform);
      WithoutConcat(list[..i], list[i + 1..], platform);
    } else {
      WithoutConcat(list, [platform], platform);
    }
  }

  /** On a list without duplicates, toggling flips the toggled id's membership and no other. */
  lemma ToggleFlipsMembership(list: seq<string>, platform: string)
    requires NoDup(list)
    ensures platform in Toggled(list, platform) <==> platform !in list
    ensures forall q :: q != platform ==> (q in Toggled(list, platform) <==> q in list)
  {
    var i := IndexOf(list, platform);
    if i > -1 {
      assert list == list[..i] + [list[i]] + list[i + 1..];
      forall k | i + 1 <= k < |list|
        ensures list[k] != platform
      {
      }
      assert platform !in list[i + 1..];
    }
  }

  /** Toggling keeps a list free of duplicates. */
  lemma ToggleKeepsNoDup(list: seq<string>, platform: string)
    requires NoDup(list)
    ensures NoDup(Toggled(list, platform))
  {
    var t := Toggled(list, platform);
    var i := IndexOf(list, platform);
    if i > -1 {
      forall a, b | 0 <= a < b < |t|
        ensures t[a] != t[b]
      {
        var a' := if a < i then a else a + 1;
        var b' := if b < i then b else b + 1;
        assert t[a] == list[a'] && t[b] == list[b'];
      }
    }
  }

  /** Toggling a present id splices out its first occurrence and nothing else. */
  lemma ToggleRemovesFirst(list: seq<string>, platform: string)
    requires platform in list
    ensures exists i :: 0 <= i < |list| && list[i] == platform && platform !in list[..i]
                        && Toggled(list, platform) == list[..i] + list[i + 1..]
  {
    var i := IndexOf(list, platform);
    assert list[i] == platform && platform !in list[..i];
  }

  /** Toggling an absent id twice gives back exactly the list it started from. */
  lemma ToggleTwiceAbsent(list: seq<string>, platform: string)
    requires platform !in list
    ensures Toggled(Toggled(list, platform), platform) == list
  {
    var once := list + [platform];
    assert IndexOf(once, platform) == |list|;
    assert once[..|list|] == list;
  }

  /** On a list without duplicates, toggling a present id removes it: what is left is the list without it. */
  lemma ToggleRemovesOnly(list: seq<string>, platform: string)
    requires NoDup(list) && platform in list
    ensures Toggled(list, platform) == Without(list, platform)
  {
    ToggleFlipsMembership(list, platform);
    WithoutAbsent(Toggled(list, platform), platform);
    ToggleKeepsOthersInOrder(list, platform);
  }

  /**
   * Toggling an id twice restores its membership and the multiset of ids; an
   * absent id leaves the list exactly as it was, a present one ends up last.
   */
  lemma ToggleTwice(list: seq<string>, platform: string)
    requires NoDup(list)
    ensures platform in Toggled(Toggled(list, platform), platform) <==> platform in list
    ensures multiset(Toggled(Toggled(list, platform), platform)) == multiset(list)
    ensures platform !in list ==> Toggled(Toggled(list, platform), platform) == list
    ensures platform in list ==> Toggled(Toggled(list, platform), platform) == Without(list, platform) + [platform]
  {
    if platform in list {
      var once := Toggled(list, platform);
      ToggleRemovesOnly(list, platform);
      ToggleFlipsMembership(list, platform);
      assert platform !in once;
      ToggleAppendsAbsent(once, platform);
      ToggleCounts(list, platform);
    } else {
      ToggleTwiceAbsent(list, platform);
    }
  }

  /** The order is not restored: a present id that was not last moves to the end. */
  lemma ToggleTwiceCanReorder()
    ensures Toggled(Toggled(["twitter", "discord"], "twitter"), "twitter") == ["discord", "twitter"]
  {
    var list := ["twitter", "discord"];
    assert IndexOf(list, "twitter") == 0;
    assert Toggled(list, "twitter") == ["discord"];
    assert IndexOf(["discord"], "twitter") == -1;
  }

  // ---------------------------------------------------------------- the page

  class ProfilePage {
    var userData: UserRecord
    var connectedSocials: seq<string>
    const achievements: seq<Achievement>
    const socialPlatforms: seq<Platform>
    const storage: LocalStorage

    /** `init` once the social list has been read (js/profile.js:16-33). */
    constructor (storage: LocalStorage, socials: seq<string>)
      ensures this.storage == storage && connectedSocials == socials && userData == EMPTY_RECORD
      ensures achievements == ACHIEVEMENT_CATALOG && socialPlatforms == PLATFORM_CATALOG
    {
      this.storage := storage;
      userData := EMPTY_RECORD;
      achievements := ACHIEVEMENT_CATALOG;
      socialPlatforms := PLATFORM_CATALOG;
      connectedSocials := socials;
    }

    /**
     * The constructor's `init` and `loadUserData`; null when reading the
     * social list makes the constructor throw. Storage is only read.
     */
    static method Open(storage: LocalStorage, today: string) returns (page: ProfilePage?)
      ensures LoadedSocials(storage.GetItem(SOCIALS_KEY)).None? ==> page == null
      ensures LoadedSocials(storage.GetItem(SOCIALS_KEY)).Some? ==>
        && page != null && fresh(page) && page.storage == storage
        && page.connectedSocials == LoadedSocials(storage.GetItem(SOCIALS_KEY)).value
        && page.userData == LoadedUserData(storage.GetItem(USER_DATA_KEY), today)
        && page.achievements == ACHIEVEMENT_CATALOG && page.socialPlatforms == PLATFORM_CATALOG
    {
      var socials := LoadedSocials(storage.GetItem(SOCIALS_KEY));
      if socials.None? {
        return null;
      }
      page := new ProfilePage(storage, socials.value);
      page.LoadUserData(today);
    }

    /** `loadUserData` (js/profile.js:80-92). */
    method LoadUserData(today: string)
      modifies this`userData
      ensures userData == LoadedUserData(storage.GetItem(USER_DATA_KEY), today)
    {
      var slot := storage.GetItem(USER_DATA_KEY);
      if slot.Some? && slot.value.UserData? {
        userData := slot.value.record;
      } else if slot.Some? && slot.value.IdList? {
        userData := EMPTY_RECORD;
      } else {
        userData := DefaultUserData(today);
      }
    }

    /** The achievement items the page renders. */
    function AchievementItems(): seq<AchievementItem>
      reads this
    {
      AchievementView(achievements, userData.achievements)
    }

    /** The social items the page renders. */
    function SocialItems(): seq<SocialItem>
      reads this
    {
      SocialView(socialPlatforms, connectedSocials)
    }

    /**
     * `toggleSocialConnection` (js/profile.js:220-233): splice or push, then
     * write the whole list to its slot. Returns the message shown.
     */
    method ToggleSocialConnection(platform: string) returns (message: string)
      modifies this`connectedSocials, storage
      ensures connectedSocials == Toggled(old(connectedSocials), platform)
      ensures storage.slots == old(storage.slots)[SOCIALS_KEY := IdList(connectedSocials)]
      ensures message == platform + (if platform in old(connectedSocials) then " disconnected!" else " connected!")
    {
      var index := IndexOf(connectedSocials, platform);
      if index > -1 {
        connectedSocials := connectedSocials[..index] + connectedSocials[index + 1..];
      } else {
        connectedSocials := connectedSocials + [platform];
      }
      storage.SetItem(SOCIALS_KEY, IdList(connectedSocials));
      message := platform + (if index > -1 then " disconnected!" else " connected!");
    }

    /**
     * `updateStatsSection` (js/profile.js:149-166) over the page's stat
     * cards: the first six cards take the six stats, any further card is
     * left as it was.
     */
    method UpdateStatsSection(cards: array<Stat>, coins: Option<int>, proofs: Option<int>, bestLap: Option<Lap>,
                              profile: Option<UserProfile>)
      modifies cards
      ensures cards[..] == WrittenCards(old(cards[..]), StatsList(coins, proofs, bestLap, profile, userData.achievements))
    {
      var stats := StatsList(coins, proofs, bestLap, profile, userData.achievements);
      for i := 0 to cards.Length
        invariant forall k :: 0 <= k < i ==> cards[k] == if k < |stats| then stats[k] else old(cards[k])
        invariant forall k :: i <= k < cards.Length ==> cards[k] == old(cards[k])
      {
        if i < |stats| {
          cards[i] := stats[i];
        }
      }
    }
  }
}
