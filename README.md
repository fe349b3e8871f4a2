# ZKSentinel page state, modelled in Dafny

ZKSentinel's front end has two browser pages. The landing page (`ZKSentinel` in
`js/main.js`) and the profile page (`ProfilePage` in `js/profile.js`) share a
user-progress record kept in local storage under `zkSentinelUserData`. The
profile page also keeps a list of linked social platforms under
`connectedSocials`. This project models the state logic beneath the DOM work:

- **Storage** (`Storage.dfy`): the store as a map from slot key to an entry.
  An entry is either unparsable text (`Corrupt`), the seven-key progress
  record (each key may be missing), or a list of ids. An absent key is a slot
  that was never written. `LocalStorage` is the shared object that both pages
  read and write.
- **Landing page** (`Landing.dfy`):
  - `ZKSentinel` is a class with the seven progress fields.
  - Its constructor and `loadUserData` merge the stored record onto the
    `init` defaults, key by key, as `Object.assign` does.
  - `saveUserData` writes the seven fields.
  - The simulated wallet connection takes its success draw, the account digits
    and the seeding draws as parameters.
  - `initializeUserData` re-seeds the placeholder stats.
  - `launchGame` and `viewProfile` refuse to leave the page while no wallet
    is connected.
  - The message form is a pure validator plus the `MessagePortal` class. Its
    `SendMessage` is followed by `FinishTransmission` once the wait is over.
- **Profile page** (`Profile.dfy`):
  - `ProfilePage` replaces its record wholesale with the stored one. An absent
    or unparsable record gives the default record.
  - The static achievement and platform catalogs are mapped to
    earned/connected flags by membership.
  - The stats cards hold six values.
  - The header shows the abbreviated wallet address.
  - `toggleSocialConnection` splices or pushes an id, then writes the whole
    list back to storage.
- **Matrix rain** (`MatrixRain.dfy`): the drop array both pages animate. It
  has one entry per 14-pixel column, is sized once from the width, and is
  advanced each frame by the resetting loop. Each column's random reset draw
  is a boolean parameter.
- **Between the pages** (`PageFlow.dfy`): the profile page loads the record
  the landing page saved. It then shows the four seeded achievements as
  earned, and its stats lie within the seeding ranges.

Random numbers, the generated account digits, `toFixed` text and date text
are all parameters. `Math.random()` values are reals in `[0, 1)`.

Some behaviour of the code that the model keeps as written:

- A successful connect always re-seeds the stats and saves them, overwriting
  any progress loaded before (js/main.js:323-324).
- The pages have no operation that adds one achievement.
- Resizing the window changes only the canvas size (js/main.js:80-83). The
  column count is never recomputed.
- The profile page keeps no handle to its animation interval
  (js/profile.js:77).
- The profile page takes a stored record wholesale, so missing keys are not
  filled in. Only the landing page merges per field.
- Nothing ties `currentAccount` to `isWalletConnected`, and nothing keeps
  `achievements` inside the catalog. The model does not claim either.

## Model

| member | source | states |
|---|---|---|
| Storage.LocalStorage.SetItem | js/profile.js:230 | `setItem` overwrites one slot and leaves every other slot unchanged |
| Text.IndexOf | js/profile.js:222 | `indexOf` returns -1 iff the id is absent. Otherwise it returns a position holding the id with no earlier occurrence |
| Text.Abbreviate | js/profile.js:139 | the abbreviation is the first six characters (all of a shorter address), then "...", then the last four. Its length is min(6,n)+3+min(4,n) |
| Text.AbbreviationHidesOnlyTheMiddle | js/main.js:311 | for an address of at least ten characters, the abbreviation is 13 characters long. Putting the hidden middle back between its two ends rebuilds the address |
| Text.AbbreviateParts | js/profile.js:139 | an address made of a 6-character head, any middle and a 4-character tail abbreviates to head + "..." + tail |
| Text.DecimalDigits | js/main.js:356 | the printed form of a number is a non-empty string of decimal digits with no leading zero |
| Text.DecimalRoundTrip | js/main.js:356 | reading back the printed digits gives the number that was printed |
| Text.FourDigits | js/main.js:356 | every number from 1000 to 9999 prints as exactly four digits |
| MatrixRain.Columns | js/main.js:56-57 | the column count is `ceil(width/14)`: the columns cover the width, and one column fewer would not |
| MatrixRain.ColumnStep | js/main.js:71-74 | a drop becomes old+1 or 1. It restarts at 1 iff its draw fired while drop*14 exceeded the height (a drop already at 0 gives 1 either way) |
| MatrixRain.Frame | js/main.js:67-75 | one frame keeps the number of columns |
| MatrixRain.FrameAt | js/main.js:67-75 | column i after a frame depends only on column i before it and its own reset draw |
| MatrixRain.FrameMovesOrRestarts | js/main.js:71-74 | every drop becomes old+1 or 1. It restarts at 1 whenever its draw fired while drop*14 exceeded the canvas height, and leaves old+1 only then |
| MatrixRain.FrameKeepsPositive | js/main.js:67-75 | a frame keeps every drop at least 1 |
| MatrixRain.Rain.constructor | js/main.js:56-58 | the drop array has `Columns(width)` entries, all 1 |
| MatrixRain.Rain.Resize | js/main.js:80-83 | resizing sets the canvas width and height and leaves the drop array's length and contents as they were |
| MatrixRain.Rain.Draw | js/profile.js:61-75 | the in-place loop leaves the array equal to `Frame` of its old contents, with every drop still at least 1 |
| Landing.Merge | js/main.js:590 | every key the stored record has overwrites its field, the profile object as a whole. Merging a complete record and saving gives that record back, and merging an empty record changes nothing |
| Landing.Hydrate | js/main.js:585-595 | only a stored record changes the fields, by `Merge`. An absent slot, a corrupt slot and a stored array leave them as they were |
| Landing.Snapshot | js/main.js:600-609 | the saved object carries all seven keys |
| Landing.LoadRestoresSaved | js/main.js:585-611 | loading the record `saveUserData` wrote restores all seven fields, whatever they held before |
| Landing.MergeKeepsMissingFields | js/main.js:590 | each field whose key the stored record lacks keeps its value. An empty record changes nothing |
| Landing.UnreadableSlotKeepsDefaults | js/main.js:19-27 | an absent or corrupt slot leaves the `init` defaults as they are, so the wallet stays disconnected |
| Landing.SaveAfterLoadKeepsRecord | js/main.js:585-611 | saving right after loading a record that has all seven keys writes the same record back |
| Landing.HydrateIdempotent | js/main.js:585-595 | loading the same slot twice gives the same state as loading it once |
| Landing.SeededUsername | js/main.js:356 | the generated username is "User" followed by four digits denoting 1000..9999 |
| Landing.Seeded | js/main.js:350-361 | seeding gives coins 0..9999, proofs 0..99, a non-empty lap text, exactly the four seed achievements, a generated username, level 1..50, the injected join date and races 10..509. The connection fields are kept |
| Landing.SeedingOverwritesProgress | js/main.js:323-324 | the seeded state does not depend on the coins, proofs, lap, achievements or profile that were loaded before |
| Landing.ConnectionSucceeds | js/main.js:338 | the simulated connection resolves iff the draw exceeds 0.1, and rejects otherwise |
| Landing.ConnectedLabel | js/main.js:311 | the button text is "Connected:  " (two spaces) followed by the abbreviation, 25 characters for an address of ten or more |
| Landing.ZKSentinel.constructor | js/main.js:19-29 | the new page holds the `init` defaults merged with the stored slot |
| Landing.ZKSentinel.LoadUserData | js/main.js:585-595 | only a stored record changes the fields, and it is merged key by key. Absent, corrupt and array slots change nothing |
| Landing.ZKSentinel.SaveUserData | js/main.js:600-611 | the storage afterwards is the old storage with `zkSentinelUserData` set to the seven fields |
| Landing.ZKSentinel.InitializeUserData | js/main.js:350-361 | the fields afterwards are `Seeded` of the old fields |
| Landing.ZKSentinel.ConnectWallet | js/main.js:296-330 | on a draw above 0.1, the page is connected to "0x"+digits, re-seeded and saved. It shows "Connected to <type>!" and the abbreviated button text. Otherwise the fields and the storage are unchanged and the error notice is returned |
| Landing.ZKSentinel.LaunchGame | js/main.js:366-380 | the page leaves for loading.html iff a wallet is connected. Otherwise it shows the "connect first" error and changes nothing |
| Landing.ZKSentinel.ViewProfile | js/main.js:385-392 | the page leaves for profile.html iff a wallet is connected. Otherwise it shows the "connect first" error and changes nothing |
| Landing.EmailPattern | js/main.js:413 | a string matching `^[^\s@]+@[^\s@]+\.[^\s@]+$` has at least five characters, contains '@' and has no whitespace |
| Landing.ValidEmail | js/main.js:413-414 | a string the scan accepts has at least five characters, contains '@' and has no whitespace |
| Landing.ValidEmailMatchesPattern | js/main.js:413-414 | the scan accepts a string iff it matches `^[^\s@]+@[^\s@]+\.[^\s@]+$`. That means one '@', no whitespace, a non-empty local part, and a '.' with a character on both sides in the domain |
| Landing.FieldText | js/main.js:398-400 | a missing input reads as the empty text, and a present one as its value |
| Landing.ValidateMessage | js/main.js:405-419 | the form fails with "all fields required" iff a field is empty. It fails on the email iff all fields are filled and the email does not match the pattern. It passes otherwise |
| Landing.MessagePortal.SendMessage | js/main.js:397-424 | a refused form only writes its reason to the status line (if there is one) and starts no wait. An accepted form sets the loading class, shows transmitting and starts one wait. Neither touches the inputs |
| Landing.MessagePortal.FinishTransmission | js/main.js:426-439 | it runs only after an accepted send whose wait has not yet ended. The transmission always succeeds, removes the loading class and empties all three inputs |
| Landing.MessagePortal.ClearStatus | js/main.js:441-446 | the status line is blanked if it exists |
| Profile.DefaultUserData | js/profile.js:94-109 | the default record is disconnected, with the zero address ("0x" and forty zeros), 0 coins, 0 proofs, lap 0, no achievements, and the profile "Anonymous", level 0, the given date, 0 races |
| Profile.LoadedUserData | js/profile.js:80-92 | an absent or unparsable slot loads the default record, a parsed record is taken as it is, and a stored array has none of the seven keys |
| Profile.LoadedSocials | js/profile.js:32 | the social list is empty for an absent slot and the stored list for a list. Unparsable text throws out of `init`, and any other slot is treated as a failed construction too |
| Profile.UnreadableRecordLoadsDefault | js/profile.js:80-109 | an absent or unparsable record loads as `getDefaultUserData()`: disconnected, the zero address, no achievements |
| Profile.ParsedRecordIsTakenWhole | js/profile.js:84 | a parsed record becomes `userData` unchanged, and its missing keys stay missing |
| Profile.AchievementView | js/profile.js:174-175 | one item per catalog entry, in catalog order. An item is earned iff its name is in the record's list, and a missing list earns nothing |
| Profile.SocialView | js/profile.js:195-196 | one item per catalog platform, in catalog order. An item is connected iff its id is in the list |
| Profile.StatsList | js/profile.js:152-159 | six values in the order coins, proofs, best lap, level, races, achievement count. Coins and proofs are passed on as they are, `undefined` included. The lap card is the lap text plus "s" when the lap is a non-empty text, and "0s" otherwise. Level and races are the profile's values, 0 when the profile or the key is missing. The count is the list length, 0 without a list |
| Profile.RecordStats | js/profile.js:146 | the record's stats are `StatsList` of its coins, proofs, lap, profile and achievement list: its coins, its proofs and the length of its list (0 without one) among them |
| Profile.WrittenCards | js/profile.js:161-165 | card i takes stat i while there is one, every further card keeps its value, and the number of cards does not change |
| Profile.DefaultStatsAreZero | js/profile.js:94-109 | the default record shows 0, 0, "0s", 0, 0, 0 |
| Profile.MissingKeysShowZero | js/profile.js:155-158 | without a lap, profile or achievement list, the cards show "0s" and 0 for level, races and count |
| Profile.DisplayUserStats | js/profile.js:131-147 | the title is the username when the profile has a non-empty one, and "Player" otherwise. The wallet line is written iff `currentAccount` is a non-empty address, and then it reads "Wallet: " and the abbreviation. The two mini counters are the record's coins and proofs |
| Profile.DefaultHeader | js/profile.js:94-109 | the default record shows "Anonymous" and "Wallet: 0x0000...0000" |
| Profile.Toggled | js/profile.js:222-228 | a present id loses its first occurrence and the list shrinks by one. An absent id is appended and the list grows by one |
| Profile.ToggleAppendsAbsent | js/profile.js:227 | toggling an absent id appends it at the end |
| Profile.ToggleCounts | js/profile.js:222-228 | toggling adds one copy of an absent id or removes one copy of a present id, and nothing else changes in the multiset |
| Profile.ToggleKeepsOthersInOrder | js/profile.js:222-228 | the ids other than the toggled one keep their relative order |
| Profile.ToggleFlipsMembership | js/profile.js:222-228 | on a list without duplicates, the toggled id's membership flips and every other id's stays |
| Profile.ToggleKeepsNoDup | js/profile.js:222-228 | toggling keeps a list free of duplicates |
| Profile.ToggleRemovesFirst | js/profile.js:222-225 | toggling a present id splices out its first occurrence and keeps everything before and after it |
| Profile.ToggleTwiceAbsent | js/profile.js:227 | toggling an absent id twice gives back the original list |
| Profile.ToggleRemovesOnly | js/profile.js:225 | on a list without duplicates, removing a present id leaves the list without it |
| Profile.ToggleTwice | js/profile.js:220-228 | toggling twice restores membership and the multiset. A present id ends up last |
| Profile.ToggleTwiceCanReorder | js/profile.js:220-228 | toggling "twitter" twice in ["twitter", "discord"] gives ["discord", "twitter"], so the order is not restored |
| Profile.ProfilePage.constructor | js/profile.js:16-33 | the page starts with an empty record, the two catalogs and the social list it was given |
| Profile.ProfilePage.Open | js/profile.js:6-8 | the page is built iff the social slot is absent or holds a list. Its list is that slot (empty if absent), and its record is the one `loadUserData` gives |
| Profile.ProfilePage.LoadUserData | js/profile.js:80-92 | the record afterwards is the stored record itself, or the default for an absent or corrupt slot |
| Profile.ProfilePage.ToggleSocialConnection | js/profile.js:220-233 | the list becomes the toggled list, and the whole list is written under `connectedSocials` with no other slot touched. The message says "disconnected" iff the id was present |
| Profile.ProfilePage.UpdateStatsSection | js/profile.js:149-166 | card i takes stat i for the first six cards, and every further card keeps its value |
| PageFlow.ProfileLoadsWhatLandingSaved | js/profile.js:84 | the profile page loads exactly the seven fields the landing page saved |
| PageFlow.SeedNamesAreFirstFour | js/main.js:354 | the four seeded names are exactly the first four of the six catalog achievements |
| PageFlow.SeededRecordEarnsFirstFour | js/profile.js:174-175 | after a connect, the profile shows the first four achievements earned and the last two not |
| PageFlow.SeededRecordStats | js/profile.js:152-159 | after a connect, the profile cards show coins 0..9999, proofs 0..99, the lap text with "s", level 1..50, races 10..509 and 4 achievements |
| PageFlow.BothPagesShowSameAbbreviation | js/main.js:311 | the landing button and the profile header show the same abbreviation of the connected account |
| PageFlow.ConnectThenOpenProfile | js/main.js:322-324 | after a successful connect, a profile page opened on the same storage sees the connected account and the seeded achievements, and marks the first four as earned |

## Left out

- DOM and UI plumbing is not modelled: modals, the hamburger menu and
  navigation, smooth scrolling, notification elements, innerHTML rendering,
  keyboard shortcuts, the avatar modal, the action buttons and
  `setupResponsiveness`. None of it holds state the model needs.
  The success and error notices appear as the values that methods return.
- Canvas drawing, glyph choice and the fade effect are not modelled, because
  they are painting.
- Timers are not modelled. The 33 ms interval, the 300/800/1500/2000/3000 ms
  delays and the clearing of the interval on unload are left out. Each
  delayed continuation is a separate step: `ConnectWallet` resolves the wait
  in one call, and `SendMessage`, `FinishTransmission` and `ClearStatus` are
  three calls. Events that run between steps, such as a second send while
  one is in flight, are not modelled.
- `animateStats` and `handleParallax` are not modelled, because they use
  float interpolation and browser callbacks.
- The JSON text is not modelled. A slot is absent, unparsable or one of the
  two shapes. An empty-string slot behaves like an unparsable one on both
  pages. These cases are not modelled:
  - JSON values of other types, such as `null`, numbers, or a numeric
    `bestLap` other than 0;
  - keys beyond the seven, which `Object.assign` would also copy onto the
    landing page object.
- `Math.random().toString(16)`, `toFixed(2)` and `toLocaleDateString()` are
  parameters, so no format or length is claimed for them.
- `AudioEngine`, `setupTheme` and the `zkSentinelTheme` slot are not
  modelled. The audio engine is external code, and the theme slot is only
  read, with a default of "dark".
- Profile.ProfilePage.Open and Profile.LoadedSocials: an object in the
  `connectedSocials` slot makes `includes` throw later in the constructor,
  but only when the social list element exists (js/profile.js:190-196). The
  model always treats it as a failed construction.
- Landing.MessagePortal.SendMessage assumes that the transmit button exists.
  `sendMessage` can also be triggered by Ctrl+Enter, and without the button
  it would throw when adding the loading class.
- Landing.ZKSentinel.ConnectWallet and Landing.ZKSentinel.LaunchGame do not
  model the loading overlays "Connecting wallet..." (js/main.js:301) and
  "Launching game..." (js/main.js:375). Nothing in js/main.js ever hides
  `#loading-message` again (js/main.js:554-580 only shows it). So after a
  failed connect, the "Connecting wallet..." overlay stays on screen beside
  the error notice.
- Landing.ZKSentinel.ConnectWallet assumes that the wallet button element
  exists. Without it, writing the button text throws after the connection
  fields are set, and the page takes the error path with those two fields
  already changed.
- Several selectors in the source have a space after the dot:
  `'. nav-link'` (js/main.js:120), `'. success-text'` (js/main.js:491),
  `'. profile-info h1'` (js/profile.js:134), `'. stat-mini-value'`
  (js/profile.js:142) and `'. stat-card-value'` (js/profile.js:150). As
  written, these are invalid CSS selectors and `querySelector` throws. The
  model reads them as `.nav-link`, `.success-text` and so on, and does not
  model the paths where they throw. The lines below name the members this
  affects.
- Landing.ZKSentinel.ConnectWallet: the success message (js/main.js:320)
  would throw at js/main.js:491 inside the `try`. The `catch` would then show
  the error notice with the connection fields already set, and nothing would
  be seeded or saved. The model shows the success path.
- Landing.ZKSentinel.ConnectWallet also assumes that the wallet modal exists.
  Without it, `closeWalletModal` (js/main.js:319, 211-212) throws and leaves
  the same partial state.
- Landing.MessagePortal.FinishTransmission: the success message
  (js/main.js:439) would throw after the inputs are cleared, so the status
  reset would never be scheduled.
- Landing.MessagePortal.ClearStatus: with the selector at js/main.js:491 as
  written, this step would never run, because the exception at
  js/main.js:439 comes before it is scheduled. The model reads the selector
  as `.success-text`.
- Profile.ProfilePage.Open builds the page and loads its record. With the
  selectors as written, `displayUserStats` (js/profile.js:134) would throw in
  the constructor before `setupAchievements` and `setupSocialConnections`
  run.
- Profile.DisplayUserStats reads the selectors at js/profile.js:134, 142 and
  150 as class selectors.
- The landing page's constructor would throw at js/main.js:120 whenever
  `#nav-menu` exists, before any listener is installed. The model's
  `Landing.ZKSentinel.constructor` covers only `init` and is unaffected.
- Profile.ProfilePage.UpdateStatsSection writes stat values, not the text a
  card displays. The conversion of numbers and `undefined` to text is not
  modelled.
- The `MatrixRain` widths and heights are whole pixel counts
  (`window.innerWidth`).
