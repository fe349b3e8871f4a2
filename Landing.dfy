/**
 * The landing page controller `ZKSentinel` (js/main.js): its in-memory
 * progress fields, how they are loaded from and saved to local storage, the
 * simulated wallet connection with its seeding of placeholder stats, the
 * guards on launching the game and opening the profile, and the message
 * form. Random draws, the generated account text, `toFixed` and date text
 * are parameters.
 */
module Landing {
  import opened Wrappers
  import opened Storage
  import opened Text

  /** The seven progress fields of a `ZKSentinel` object, as one value. */
  datatype Session = Session(
    isWalletConnected: bool,
    currentAccount: Account,
    zkCoins: int,
    zkProofs: int,
    bestLap: Lap,
    achievements: seq<string>,
    userProfile: UserProfile)

  /** `userProfile = {}`: a profile object with none of its keys. */
  const EMPTY_PROFILE: UserProfile := UserProfile(None, None, None, None)

  /** The values `init` assigns before loading (js/main.js:20-26). */
  const INITIAL_SESSION: Session := Session(false, Null, 0, 0, LapZero, [], EMPTY_PROFILE)

  /** A stored record that has all seven keys. */
  predicate Complete(r: UserRecord) {
    && r.zkCoins.Some? && r.zkProofs.Some? && r.bestLap.Some? && r.achievements.Some?
    && r.currentAccount.Some? && r.isWalletConnected.Some? && r.userProfile.Some?
  }

  /** The object `saveUserData` builds from the seven fields (js/main.js:601-609). */
  function Snapshot(s: Session): (r: UserRecord)
    ensures Complete(r)
  {
    UserRecord(Some(s.zkCoins), Some(s.zkProofs), Some(s.bestLap), Some(s.achievements),
               Some(s.currentAccount), Some(s.isWalletConnected), Some(s.userProfile))
  }

  /**
   * `Object.assign(this, data)` restricted to the seven fields: every key the
   * stored object has overwrites its field, the profile object as a whole;
   * every other field keeps its value.
   */
  function Merge(s: Session, r: UserRecord): (m: Session)
    ensures r.isWalletConnected.Some? ==> m.isWalletConnected == r.isWalletConnected.value
    ensures r.currentAccount.Some? ==> m.currentAccount == r.currentAccount.value
    ensures r.zkCoins.Some? ==> m.zkCoins == r.zkCoins.value
    ensures r.zkProofs.Some? ==> m.zkProofs == r.zkProofs.value
    ensures r.bestLap.Some? ==> m.bestLap == r.bestLap.value
    ensures r.achievements.Some? ==> m.achievements == r.achievements.value
    ensures r.userProfile.Some? ==> m.userProfile == r.userProfile.value
    ensures Complete(r) ==> Snapshot(m) == r
    ensures r == EMPTY_RECORD ==> m == s
  {
    Session(
      r.isWalletConnected.GetOr(s.isWalletConnected),
      r.currentAccount.GetOr(s.currentAccount),
      r.zkCoins.GetOr(s.zkCoins),
      r.zkProofs.GetOr(s.zkProofs),
      r.bestLap.GetOr(s.bestLap),
      r.achievements.GetOr(s.achievements),
      r.userProfile.GetOr(s.userProfile))
  }

  /**
   * `loadUserData` (js/main.js:585-595): an absent slot, one that does not
   * parse, and a stored array (whose index keys are none of the seven) leave
   * the fields as they were; a stored record is merged onto them.
   */
  function Hydrate(s: Session, slot: Option<Entry>): (h: Session)
    ensures !(slot.Some? && slot.value.UserData?) ==> h == s
    ensures slot.Some? && slot.value.UserData? ==> h == Merge(s, slot.value.record)
  {
    match slot
    case Some(UserData(r)) => Merge(s, r)
    case _ => s
  }

  /** Loading what `saveUserData` wrote restores all seven fields, whatever they were before. */
  lemma LoadRestoresSaved(before: Session, saved: Session)
    ensures Hydrate(before, Some(UserData(Snapshot(saved)))) == saved
  {
  }

  /** A field whose key the stored record lacks keeps the value it had. */
  lemma MergeKeepsMissingFields(s: Session, r: UserRecord)
    ensures r.isWalletConnected.None? ==> Merge(s, r).isWalletConnected == s.isWalletConnected
    ensures r.currentAccount.None? ==> Merge(s, r).currentAccount == s.currentAccount
    ensures r.zkCoins.None? ==> Merge(s, r).zkCoins == s.zkCoins
    ensures r.zkProofs.None? ==> Merge(s, r).zkProofs == s.zkProofs
    ensures r.bestLap.None? ==> Merge(s, r).bestLap == s.bestLap
    ensures r.achievements.None? ==> Merge(s, r).achievements == s.achievements
    ensures r.userProfile.None? ==> Merge(s, r).userProfile == s.userProfile
    ensures Merge(s, EMPTY_RECORD) == s
  {
  }

  /** A missing or corrupt slot leaves the `init` defaults untouched. */
  lemma UnreadableSlotKeepsDefaults(slot: Option<Entry>)
    requires slot.None? || slot == Some(Corrupt)
    ensures Hydrate(INITIAL_SESSION, slot) == INITIAL_SESSION
    ensures !Hydrate(INITIAL_SESSION, slot).isWalletConnected
  {
  }

  /** Saving right after loading a complete record writes that record back unchanged. */
  lemma SaveAfterLoadKeepsRecord(before: Session, r: UserRecord)
    requires Complete(r)
    ensures Snapshot(Hydrate(before, Some(UserData(r)))) == r
  {
  }

  /** Loading the same slot twice is the same as loading it once. */
  lemma HydrateIdempotent(s: Session, slot: Option<Entry>)
    ensures Hydrate(Hydrate(s, slot), slot) == Hydrate(s, slot)
  {
  }

  // ---------------------------------------------------------------- wallet

  /** A `Math.random()` value. */
  predicate InUnit(x: real) {
    0.0 <= x < 1.0
  }

  /**
   * The values `initializeUserData` draws: five `Math.random()` results, the
   * `toFixed(2)` text of the lap time and the locale text of the join date.
   */
  datatype SeedDraws = SeedDraws(
    coins: real,
    proofs: real,
    bestLap: string,
    username: real,
    level: real,
    joinDate: string,
    totalRaces: real)

  /** What the random source and the formatting calls guarantee of those values. */
  predicate ValidDraws(d: SeedDraws) {
    InUnit(d.coins) && InUnit(d.proofs) && InUnit(d.username) && InUnit(d.level)
    && InUnit(d.totalRaces) && d.bestLap != ""
  }

  /** The achievement names every newly connected wallet is given (js/main.js:354). */
  const SEED_ACHIEVEMENTS: seq<string> := ["First Race", "Speed Demon", "Coin Collector", "Quantum Master"]

  /** A generated username: "User" and four decimal digits denoting 1000..9999. */
  predicate IsSeededUsername(u: string) {
    |u| == 8 && u[..4] == "User" && AllDigits(u[4..]) && 1000 <= DecimalValue(u[4..]) <= 9999
  }

  /** `User${Math.floor(Math.random() * 9000) + 1000}`. */
  function SeededUsername(draw: real): (u: string)
    requires InUnit(draw)
    ensures IsSeededUsername(u)
  {
    var n := (draw * 9000.0).Floor + 1000;
    FourDigits(n);
    DecimalRoundTrip(n);
    assert ("User" + DecimalDigits(n))[4..] == DecimalDigits(n);
    "User" + DecimalDigits(n)
  }

  /**
   * `initializeUserData` (js/main.js:350-361): coins, proofs, lap, the four
   * achievements and the profile are all replaced; connection fields are kept.
   */
  function Seeded(s: Session, d: SeedDraws): (r: Session)
    requires ValidDraws(d)
    ensures 0 <= r.zkCoins <= 9999 && 0 <= r.zkProofs <= 99
    ensures r.bestLap.LapText? && r.bestLap.text != ""
    ensures r.achievements == SEED_ACHIEVEMENTS
    ensures r.userProfile.username.Some? && IsSeededUsername(r.userProfile.username.value)
    ensures r.userProfile.level.Some? && 1 <= r.userProfile.level.value <= 50
    ensures r.userProfile.joinDate == Some(d.joinDate)
    ensures r.userProfile.totalRaces.Some? && 10 <= r.userProfile.totalRaces.value <= 509
    ensures r.isWalletConnected == s.isWalletConnected && r.currentAccount == s.currentAccount
  {
    s.(zkCoins := (d.coins * 10000.0).Floor,
       zkProofs := (d.proofs * 100.0).Floor,
       bestLap := LapText(d.bestLap),
       achievements := SEED_ACHIEVEMENTS,
       userProfile := UserProfile(
         Some(SeededUsername(d.username)),
         Some((d.level * 50.0).Floor + 1),
         Some(d.joinDate),
         Some((d.totalRaces * 500.0).Floor + 10)))
  }

  /**
   * Seeding ignores whatever progress was loaded: two sessions with the same
   * connection fields are seeded to the same session by the same draws.
   */
  lemma SeedingOverwritesProgress(s1: Session, s2: Session, d: SeedDraws)
    requires ValidDraws(d)
    requires s1.isWalletConnected == s2.isWalletConnected && s1.currentAccount == s2.currentAccount
    ensures Seeded(s1, d) == Seeded(s2, d)
  {
  }

  /** `simulateWalletConnection`: the promise resolves when `Math.random() > 0.1`. */
  function ConnectionSucceeds(draw: real): (ok: bool)
    ensures ok <==> 0.1 < draw
  {
    draw > 0.1
  }

  /** A notification the page shows. */
  datatype Notice = Success(text: string) | Error(text: string)

  /** What a guarded button does: show an error, or leave for another page. */
  datatype PageAction = Refuse(message: string) | Navigate(target: string)

  /** The text the wallet button shows once connected (js/main.js:311). */
  function ConnectedLabel(account: string): (r: string)
    ensures |r| == 12 + |Abbreviate(account)| && r[..12] == "Connected:  " && r[12..] == Abbreviate(account)
    ensures |account| >= 10 ==> |r| == 25
  {
    "Connected:  " + Abbreviate(account)
  }

  /** The landing page's state that the model keeps. */
  class ZKSentinel {
    var isWalletConnected: bool
    var currentAccount: Account
    var zkCoins: int
    var zkProofs: int
    var bestLap: Lap
    var achievements: seq<string>
    var userProfile: UserProfile
    const storage: LocalStorage

    /** The seven progress fields as one value. */
    function State(): Session
      reads this
    {
      Session(isWalletConnected, currentAccount, zkCoins, zkProofs, bestLap, achievements, userProfile)
    }

    /** The constructor's `init`: defaults, then `loadUserData` (js/main.js:19-29). */
    constructor (storage: LocalStorage)
      ensures this.storage == storage
      ensures State() == Hydrate(INITIAL_SESSION, storage.GetItem(USER_DATA_KEY))
    {
      this.storage := storage;
      isWalletConnected := false;
      currentAccount := Null;
      zkCoins := 0;
      zkProofs := 0;
      bestLap := LapZero;
      achievements := [];
      userProfile := EMPTY_PROFILE;
      new;
      LoadUserData();
    }

    /** `loadUserData` (js/main.js:585-595). */
    method LoadUserData()
      modifies this
      ensures State() == Hydrate(old(State()), storage.GetItem(USER_DATA_KEY))
    {
      var slot := storage.GetItem(USER_DATA_KEY);
      if slot.Some? && slot.value.UserData? {
        var r := slot.value.record;
        isWalletConnected := r.isWalletConnected.GetOr(isWalletConnected);
        currentAccount := r.currentAccount.GetOr(currentAccount);
        zkCoins := r.zkCoins.GetOr(zkCoins);
        zkProofs := r.zkProofs.GetOr(zkProofs);
        bestLap := r.bestLap.GetOr(bestLap);
        achievements := r.achievements.GetOr(achievements);
        userProfile := r.userProfile.GetOr(userProfile);
      }
    }

    /** `saveUserData` (js/main.js:600-611): the seven fields under USER_DATA_KEY, nothing else. */
    method SaveUserData()
      modifies storage
      ensures storage.slots == old(storage.slots)[USER_DATA_KEY := UserData(Snapshot(State()))]
    {
      storage.SetItem(USER_DATA_KEY, UserData(Snapshot(State())));
    }

    /** `initializeUserData` (js/main.js:350-361). */
    method InitializeUserData(d: SeedDraws)
      requires ValidDraws(d)
      modifies this
      ensures State() == Seeded(old(State()), d)
    {
      zkCoins := (d.coins * 10000.0).Floor;
      zkProofs := (d.proofs * 100.0).Floor;
      bestLap := LapText(d.bestLap);
      achievements := SEED_ACHIEVEMENTS;
      userProfile := UserProfile(
        Some(SeededUsername(d.username)),
        Some((d.level * 50.0).Floor + 1),
        Some(d.joinDate),
        Some((d.totalRaces * 500.0).Floor + 10));
    }

    /**
     * `connectWallet` (js/main.js:296-330) with the wait resolved: `draw` is
     * the connection draw, `hex` the generated account digits, `d` the seeding
     * draws. Returns the notification shown and the new wallet button label.
     */
    method ConnectWallet(walletType: string, draw: real, hex: string, d: SeedDraws)
      returns (notice: Notice, buttonText: Option<string>)
      requires InUnit(draw) && ValidDraws(d)
      modifies this, storage
      ensures ConnectionSucceeds(draw) ==>
        && isWalletConnected && currentAccount == Addr("0x" + hex)
        && State() == Seeded(old(State()).(isWalletConnected := true, currentAccount := Addr("0x" + hex)), d)
        && storage.slots == old(storage.slots)[USER_DATA_KEY := UserData(Snapshot(State()))]
        && notice == Success("Connected to " + walletType + "!")
        && buttonText == Some(ConnectedLabel("0x" + hex))
      ensures !ConnectionSucceeds(draw) ==>
        && State() == old(State())
        && storage.slots == old(storage.slots)
        && notice == Error("Failed to connect wallet. Please try again.")
        && buttonText == None
    {
      if !ConnectionSucceeds(draw) {
        notice, buttonText := Error("Failed to connect wallet. Please try again."), None;
        return;
      }
      isWalletConnected := true;
      currentAccount := Addr("0x" + hex);
      buttonText := Some(ConnectedLabel(currentAccount.text));
      notice := Success("Connected to " + walletType + "!");
      InitializeUserData(d);
      SaveUserData();
    }

    /** `launchGame` (js/main.js:366-380): only a connected wallet may go to the game. */
    method LaunchGame() returns (action: PageAction)
      ensures action.Navigate? <==> isWalletConnected
      ensures !isWalletConnected ==> action == Refuse("Please connect your wallet first! ")
      ensures isWalletConnected ==> action == Navigate("loading.html")
    {
      if !isWalletConnected {
        return Refuse("Please connect your wallet first! ");
      }
      action := Navigate("loading.html");
    }

    /** `viewProfile` (js/main.js:385-392): only a connected wallet may open the profile. */
    method ViewProfile() returns (action: PageAction)
      ensures action.Navigate? <==> isWalletConnected
      ensures !isWalletConnected ==> action == Refuse("Please connect your wallet first!")
      ensures isWalletConnected ==> action == Navigate("profile.html")
    {
      if !isWalletConnected {
        return Refuse("Please connect your wallet first!");
      }
      action := Navigate("profile.html");
    }
  }

  // ---------------------------------------------------------------- message form

  /** `\s` of JavaScript regular expressions. */
  predicate IsSpace(c: char) {
    || c == ' ' || '\t' <= c <= '\r' || c == '\U{00A0}' || c == '\U{1680}'
    || '\U{2000}' <= c <= '\U{200A}' || c == '\U{2028}' || c == '\U{2029}'
    || c == '\U{202F}' || c == '\U{205F}' || c == '\U{3000}' || c == '\U{FEFF}'
  }

  /** `[^\s@]`. */
  predicate IsPlain(c: char) {
    !IsSpace(c) && c != '@'
  }

  /** Every character except the one at `at` is in `[^\s@]`. */
  ghost predicate PlainExcept(s: string, at: int) {
    forall k :: 0 <= k < |s| && k != at ==> IsPlain(s[k])
  }

  /**
   * `s` matches `^[^\s@]+@[^\s@]+\.[^\s@]+$`: one '@' with a non-empty local
   * part before it, and after it a '.' with at least one character on each side.
   */
  ghost function EmailPattern(s: string): (matches: bool)
    ensures matches ==> |s| >= 5 && '@' in s && forall k :: 0 <= k < |s| ==> !IsSpace(s[k])
  {
    exists at, dot :: 0 < at && at + 1 < dot && dot + 1 < |s| && s[at] == '@' && s[dot] == '.'
                      && PlainExcept(s, at)
  }

  /** A scan that decides the email pattern (js/main.js:413-414). */
  function ValidEmail(s: string): (ok: bool)
    ensures ok ==> |s| >= 5 && '@' in s && forall k :: 0 <= k < |s| ==> !IsSpace(s[k])
  {
    var at := IndexOf(s, '@');
    && (forall k :: 0 <= k < |s| ==> !IsSpace(s[k]))
    && 0 < at
    && '@' !in s[at + 1..]
    && at + 2 < |s|
    && '.' in s[at + 2..|s| - 1]
  }

  /** The scan accepts exactly the strings the regular expression matches. */
  lemma ValidEmailMatchesPattern(s: string)
    ensures ValidEmail(s) <==> EmailPattern(s)
  {
    var at := IndexOf(s, '@');
    if ValidEmail(s) {
      var domain := s[at + 2..|s| - 1];
      var dot := at + 2 + IndexOf(domain, '.');
      assert s[dot] == domain[dot - at - 2];
      forall k | 0 <= k < |s| && k != at
        ensures IsPlain(s[k])
      {
        if k < at {
          assert s[k] == s[..at][k];
        } else {
          assert s[k] == s[at + 1..][k - at - 1];
        }
      }
      assert PlainExcept(s, at);
    }
    if EmailPattern(s) {
      var a, d :| 0 < a && a + 1 < d && d + 1 < |s| && s[a] == '@' && s[d] == '.' && PlainExcept(s, a);
      assert at == a;
      assert s[at + 2..|s| - 1][d - at - 2] == '.';
      assert forall k :: at + 1 <= k < |s| ==> IsPlain(s[k]);
    }
  }

  /** Why the form was refused. */
  datatype FormError = MissingField | InvalidEmail

  /**
   * The checks of `sendMessage` (js/main.js:405-419), in their order: any
   * empty field first, then the email shape.
   */
  function ValidateMessage(name: string, email: string, message: string): (r: Outcome<FormError>)
    ensures r == Fail(MissingField) <==> name == "" || email == "" || message == ""
    ensures r == Fail(InvalidEmail) <==> name != "" && email != "" && message != "" && !EmailPattern(email)
    ensures r == Pass <==> name != "" && email != "" && message != "" && EmailPattern(email)
  {
    ValidEmailMatchesPattern(email);
    if name == "" || email == "" || message == "" then Fail(MissingField)
    else if !ValidEmail(email) then Fail(InvalidEmail)
    else Pass
  }

  /** `document.getElementById(id)?.value || ''`: a missing input reads as empty. */
  function FieldText(input: Option<string>): (text: string)
    ensures input.None? ==> text == ""
    ensures input.Some? ==> text == input.value
  {
    input.GetOr("")
  }

  /** The transmission status line. */
  datatype Status = Blank | Rejected(reason: FormError) | Transmitting | Transmitted

  /**
   * The form elements `sendMessage` reads and writes: three inputs (None when
   * the element does not exist), the status line if it exists, and the
   * button's loading class.
   */
  class MessagePortal {
    var senderName: Option<string>
    var senderEmail: Option<string>
    var messageContent: Option<string>
    const hasStatusLine: bool
    var status: Status
    var loading: bool
    /** Accepted sends whose 2000 ms wait has not yet ended. */
    ghost var pending: nat

    /** A send is only waiting when the form it read had all three inputs. */
    ghost predicate Valid()
      reads this
    {
      pending > 0 ==> senderName.Some? && senderEmail.Some? && messageContent.Some?
    }

    constructor (senderName: Option<string>, senderEmail: Option<string>, messageContent: Option<string>,
                 hasStatusLine: bool)
      ensures this.senderName == senderName && this.senderEmail == senderEmail
      ensures this.messageContent == messageContent && this.hasStatusLine == hasStatusLine
      ensures status == Blank && !loading && pending == 0 && Valid()
    {
      this.senderName := senderName;
      this.senderEmail := senderEmail;
      this.messageContent := messageContent;
      this.hasStatusLine := hasStatusLine;
      status := Blank;
      loading := false;
      pending := 0;
    }

    /** The status line after writing `s` to it: unchanged when the element does not exist. */
    function Shown(s: Status): Status
      reads this
    {
      if hasStatusLine then s else status
    }

    /**
     * `sendMessage` up to its wait (js/main.js:397-424): a refused form only
     * reports why; an accepted one turns the button to loading and reports
     * transmitting. The inputs are not touched.
     */
    method SendMessage() returns (r: Outcome<FormError>)
      requires Valid()
      modifies this`status, this`loading, this`pending
      ensures Valid()
      ensures pending == old(pending) + (if r.Pass? then 1 else 0)
      ensures r == ValidateMessage(FieldText(senderName), FieldText(senderEmail), FieldText(messageContent))
      ensures r.Fail? ==> loading == old(loading) && status == old(Shown(Rejected(r.error)))
      ensures r.Pass? ==> loading && status == old(Shown(Transmitting))
      ensures r.Pass? ==> senderName.Some? && senderEmail.Some? && messageContent.Some?
    {
      r := ValidateMessage(FieldText(senderName), FieldText(senderEmail), FieldText(messageContent));
      if r.Fail? {
        status := Shown(Rejected(r.error));
        return;
      }
      loading := true;
      status := Shown(Transmitting);
      pending := pending + 1;
    }

    /**
     * The continuation after the 2000 ms wait (js/main.js:429-439): always a
     * success, the loading class removed and all three inputs cleared.
     */
    method FinishTransmission() returns (notice: Notice)
      requires Valid() && pending > 0
      modifies this`status, this`loading, this`senderName, this`senderEmail, this`messageContent, this`pending
      ensures Valid() && pending == old(pending) - 1
      ensures !loading && status == old(Shown(Transmitted))
      ensures senderName == Some("") && senderEmail == Some("") && messageContent == Some("")
      ensures notice == Success("Message transmitted successfully!")
    {
      loading := false;
      status := Shown(Transmitted);
      senderName, senderEmail, messageContent := Some(""), Some(""), Some("");
      notice := Success("Message transmitted successfully!");
      pending := pending - 1;
    }

    /** The status reset 3000 ms later (js/main.js:442-446). */
    method ClearStatus()
      modifies this`status
      ensures status == old(Shown(Blank))
    {
      status := Shown(Blank);
    }
  }
}
