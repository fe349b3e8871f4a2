/**
 * What the two pages agree on through the shared `zkSentinelUserData` slot:
 * the record the landing page saves after a wallet connects is the record the
 * profile page loads, and the views it derives from it.
 */
module PageFlow {
  import opened Wrappers
  import opened Storage
  import opened Text
  import opened Landing
  import opened Profile

  /** The earned flags of an achievement view, in catalog order. */
  function EarnedFlags(view: seq<AchievementItem>): (flags: seq<bool>)
    ensures |flags| == |view|
  {
    seq(|view|, i requires 0 <= i < |view| => view[i].earned)
  }

  /** The profile page loads exactly the seven fields the landing page saved. */
  lemma ProfileLoadsWhatLandingSaved(s: Session, today: string)
    ensures LoadedUserData(Some(UserData(Snapshot(s))), today) == Snapshot(s)
  {
  }

  /** Of the six catalog achievements, the four seeded names are exactly the first four. */
  lemma SeedNamesAreFirstFour()
    ensures EarnedFlags(AchievementView(ACHIEVEMENT_CATALOG, Some(SEED_ACHIEVEMENTS)))
            == [true, true, true, true, false, false]
  {
    var view := AchievementView(ACHIEVEMENT_CATALOG, Some(SEED_ACHIEVEMENTS));
    assert SEED_ACHIEVEMENTS[0] == ACHIEVEMENT_CATALOG[0].name;
    assert SEED_ACHIEVEMENTS[1] == ACHIEVEMENT_CATALOG[1].name;
    assert SEED_ACHIEVEMENTS[2] == ACHIEVEMENT_CATALOG[2].name;
    assert SEED_ACHIEVEMENTS[3] == ACHIEVEMENT_CATALOG[3].name;
    assert ACHIEVEMENT_CATALOG[4].name !in SEED_ACHIEVEMENTS by {
      assert ACHIEVEMENT_CATALOG[4].name[0] == 'N';
    }
    assert ACHIEVEMENT_CATALOG[5].name !in SEED_ACHIEVEMENTS by {
      assert |ACHIEVEMENT_CATALOG[5].name| == 16;
    }
    assert EarnedFlags(view)[4] == false && EarnedFlags(view)[5] == false;
  }

  /**
   * After seeding, the profile page shows the first four catalog achievements
   * as earned and the last two as not earned.
   */
  lemma SeededRecordEarnsFirstFour(s: Session, d: SeedDraws, today: string)
    requires ValidDraws(d)
    ensures EarnedFlags(AchievementView(ACHIEVEMENT_CATALOG,
              LoadedUserData(Some(UserData(Snapshot(Seeded(s, d)))), today).achievements))
            == [true, true, true, true, false, false]
  {
    SeedNamesAreFirstFour();
  }

  /** The seeded record's stats cards show values inside the seeding ranges and four achievements. */
  lemma SeededRecordStats(s: Session, d: SeedDraws, today: string)
    requires ValidDraws(d)
    ensures var stats := RecordStats(LoadedUserData(Some(UserData(Snapshot(Seeded(s, d)))), today));
      && stats[0].Amount? && 0 <= stats[0].n <= 9999
      && stats[1].Amount? && 0 <= stats[1].n <= 99
      && stats[2] == Caption(d.bestLap + "s")
      && stats[3].Amount? && 1 <= stats[3].n <= 50
      && stats[4].Amount? && 10 <= stats[4].n <= 509
      && stats[5] == Amount(4)
  {
  }

  /**
   * Both pages abbreviate the same connected account the same way: the
   * landing button and the profile header end in the same text.
   */
  lemma BothPagesShowSameAbbreviation(s: Session, hex: string, d: SeedDraws, today: string)
    requires ValidDraws(d)
    ensures var connected := Seeded(s.(isWalletConnected := true, currentAccount := Addr("0x" + hex)), d);
      var header := DisplayUserStats(LoadedUserData(Some(UserData(Snapshot(connected))), today));
      && header.wallet == Some("Wallet: " + Abbreviate("0x" + hex))
      && ConnectedLabel("0x" + hex) == "Connected:  " + Abbreviate("0x" + hex)
  {
  }

  /**
   * A successful connect on the landing page followed by opening the profile
   * page on the same storage: the profile page sees the connected, seeded
   * record and marks the four seeded achievements as earned.
   */
  method ConnectThenOpenProfile(storage: LocalStorage, draw: real, hex: string, d: SeedDraws, today: string)
    returns (page: ProfilePage?)
    requires InUnit(draw) && ConnectionSucceeds(draw) && ValidDraws(d)
    modifies storage
    ensures page != null <==> LoadedSocials(old(storage.GetItem(SOCIALS_KEY))).Some?
    ensures page != null ==>
      && page.userData.isWalletConnected == Some(true)
      && page.userData.currentAccount == Some(Addr("0x" + hex))
      && page.userData.achievements == Some(SEED_ACHIEVEMENTS)
      && EarnedFlags(page.AchievementItems()) == [true, true, true, true, false, false]
  {
    var landing := new ZKSentinel(storage);
    var notice, buttonText := landing.ConnectWallet("MetaMask", draw, hex, d);
    assert storage.GetItem(USER_DATA_KEY) == Some(UserData(Snapshot(landing.State())));
    assert storage.GetItem(SOCIALS_KEY) == old(storage.GetItem(SOCIALS_KEY));
    page := ProfilePage.Open(storage, today);
    if page != null {
      SeededRecordEarnsFirstFour(landing.State(), d, today);
    }
  }
}
