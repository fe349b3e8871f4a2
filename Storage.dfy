/**
 * The browser's local storage as both pages see it: a map from slot key to
 * what the slot holds. The JSON text is not modelled; a slot is absent (key
 * not in the map), holds text that does not parse (Corrupt), or holds one of
 * the two shapes the pages write.
 */
module Storage {
  import opened Wrappers

  /** The slot the progress record lives in (js/main.js:586, 610; js/profile.js:81). */
  const USER_DATA_KEY: string := "zkSentinelUserData"
  /** The slot the list of linked social platforms lives in (js/profile.js:32, 230). */
  const SOCIALS_KEY: string := "connectedSocials"

  /** `currentAccount`: JSON null until a wallet connects, then the address string. */
  datatype Account = Null | Addr(text: string)

  /** `bestLap`: the number 0 before seeding, afterwards the string that toFixed(2) produced. */
  datatype Lap = LapZero | LapText(text: string)

  /** `userProfile`; a key that the stored object lacks is None. */
  datatype UserProfile = UserProfile(
    username: Option<string>,
    level: Option<int>,
    joinDate: Option<string>,
    totalRaces: Option<int>)

  /** The seven-key object stored under USER_DATA_KEY; a key that the stored object lacks is None. */
  datatype UserRecord = UserRecord(
    zkCoins: Option<int>,
    zkProofs: Option<int>,
    bestLap: Option<Lap>,
    achievements: Option<seq<string>>,
    currentAccount: Option<Account>,
    isWalletConnected: Option<bool>,
    userProfile: Option<UserProfile>)

  /** What a present slot holds. */
  datatype Entry = Corrupt | UserData(record: UserRecord) | IdList(ids: seq<string>)

  /** The record with every key missing: what an object without any of the seven keys reads as. */
  const EMPTY_RECORD: UserRecord := UserRecord(None, None, None, None, None, None, None)

  /** `window.localStorage`, shared by every page of the site. */
  class LocalStorage {
    var slots: map<string, Entry>

    constructor (initial: map<string, Entry>)
      ensures slots == initial
    {
      slots := initial;
    }

    /** `getItem`: None when the key was never written. */
    function GetItem(key: string): Option<Entry>
      reads this
    {
      if key in slots then Some(slots[key]) else None
    }

    /** `setItem`: overwrite one slot, leave every other slot as it was. */
    method SetItem(key: string, entry: Entry)
      modifies this
      ensures slots == old(slots)[key := entry]
    {
      slots := slots[key := entry];
    }
  }
}
