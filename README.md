# Escapepod preferences facade and list copy, in Dafny

This project models two pieces of the Escapepod podcast app.

The first is `PreferencesHelper`. It is the typed facade over the app's
SharedPreferences store. For each setting it has a load accessor and a save
accessor. A load reads one key and falls back to that accessor's own default
when the key is absent. A save writes one key. It also stores and restores
the eight-field player-state snapshot. And it has one repair,
`updatePlayerState`: when the episode the snapshot points to has no audio
file, it resets the stored snapshot to `PlayerState()`.

The second is `ArrayList<Long>.copy()`. It builds a new list by adding the
receiver's elements one by one.

Modules, one per concern:

- `Types`: the Kotlin `Int` and `Long` as bounded newtypes, `Float` as a
  32-bit pattern, and `Date` as milliseconds since the epoch.
- `Keys`: one constructor per constant of `Keys` the facade uses. Two
  different names are two different keys, and one name is always the same key.
- `Framework`, `DateTimeHelper`, `CollectionHelper` (in `collaborators.dfy`): the collaborators that
  are not part of this model, written as uninterpreted constants and
  functions. These are the Android default constants, the RFC 2822 date-text
  conversions (section 3.3 of RFC 2822), and the episode lookup. Every
  property below holds for every choice of them.
- `KeyValueStore`: the store as a `map<Key, Value>`. `Value` is a tagged union
  of the five stored types. It has the typed getters with a default, and a
  `SharedPreferences` class whose puts update the map in place.
- `PreferencesHelper`: the loads, as functions of the store. The saves, as
  methods on a `SharedPreferences` object. Each save is specified by the
  function `Written`, which gives the store after one save.
- `ArrayListExt`: an `ArrayList` class holding a `seq<int64>`, and the
  `Copy` method with its loop.

A load of a key that holds a value of the wrong type would throw in Android.
Each load therefore requires its key to be `Readable`. `SavedAll` shows that
any session of saves keeps a type-consistent store type-consistent. So every
load is defined on a store that starts empty, or at least type-consistent,
and is then written only by the facade. The repair keeps this too, because
`Repaired` is either the old store or `Written(s, Snapshot(DefaultPlayerState))`;
`FacadeStoresStayReadable` states the whole claim.

## Model

| member | source | states |
|---|---|---|
| `PreferencesHelper.LoadCurrentMediaId` | app/src/main/java/org/y20k/escapepod/helpers/PreferencesHelper.kt:40-43 | absent key gives `""`; otherwise the stored string |
| `PreferencesHelper.SaveCurrentMediaId` | app/src/main/java/org/y20k/escapepod/helpers/PreferencesHelper.kt:47-52 | writes only `PrefCurrentMediaId`; a later load returns the argument, which defaults to `""` |
| `PreferencesHelper.LoadUpNextMediaId` | app/src/main/java/org/y20k/escapepod/helpers/PreferencesHelper.kt:56-59 | absent key gives `""`; otherwise the stored string |
| `PreferencesHelper.SaveUpNextMediaId` | app/src/main/java/org/y20k/escapepod/helpers/PreferencesHelper.kt:63-68 | writes only `PrefUpNextMediaId`; a later load returns the argument, which defaults to `""` |
| `PreferencesHelper.LoadKeepDebugLog` | app/src/main/java/org/y20k/escapepod/helpers/PreferencesHelper.kt:72-75 | absent key gives `false`; otherwise the stored boolean |
| `PreferencesHelper.SaveKeepDebugLog` | app/src/main/java/org/y20k/escapepod/helpers/PreferencesHelper.kt:79-84 | writes only `PrefKeepDebugLog`; a later load returns the argument, which defaults to `false` |
| `PreferencesHelper.LoadPlayerPlaybackState` | app/src/main/java/org/y20k/escapepod/helpers/PreferencesHelper.kt:88-91 | absent key gives `STATE_STOPPED`; otherwise the stored int |
| `PreferencesHelper.SavePlayerPlaybackState` | app/src/main/java/org/y20k/escapepod/helpers/PreferencesHelper.kt:95-100 | writes only `PrefCurrentPlaybackState`; a later load returns the argument |
| `PreferencesHelper.LoadPlayerPlaybackSpeed` | app/src/main/java/org/y20k/escapepod/helpers/PreferencesHelper.kt:104-107 | absent key gives `1f`; otherwise the stored float |
| `PreferencesHelper.SavePlayerPlaybackSpeed` | app/src/main/java/org/y20k/escapepod/helpers/PreferencesHelper.kt:111-116 | writes only `PrefPlayerStatePlaybackSpeed`; a later load returns the argument |
| `PreferencesHelper.LoadLastUpdateCollection` | app/src/main/java/org/y20k/escapepod/helpers/PreferencesHelper.kt:120-124 | absent key gives `convertFromRfc2822("")`; otherwise the stored text converted back |
| `PreferencesHelper.SaveLastUpdateCollection` | app/src/main/java/org/y20k/escapepod/helpers/PreferencesHelper.kt:128-133 | writes the RFC 2822 text of the date; a later load returns `convertFromRfc2822(convertToRfc2822(d))` |
| `PreferencesHelper.LoadCollectionModificationDate` | app/src/main/java/org/y20k/escapepod/helpers/PreferencesHelper.kt:137-141 | absent key gives `convertFromRfc2822("")`; otherwise the stored text converted back |
| `PreferencesHelper.SaveCollectionModificationDate` | app/src/main/java/org/y20k/escapepod/helpers/PreferencesHelper.kt:145-150 | writes the RFC 2822 text of the date; a later load returns `convertFromRfc2822(convertToRfc2822(d))` |
| `PreferencesHelper.LoadActiveDownloads` | app/src/main/java/org/y20k/escapepod/helpers/PreferencesHelper.kt:154-159 | absent key gives `ACTIVE_DOWNLOADS_EMPTY`; otherwise the stored string |
| `PreferencesHelper.SaveActiveDownloads` | app/src/main/java/org/y20k/escapepod/helpers/PreferencesHelper.kt:163-168 | writes only `PrefActiveDownloads`; a later load returns the argument, which defaults to `""` |
| `PreferencesHelper.LoadPlayerState` | app/src/main/java/org/y20k/escapepod/helpers/PreferencesHelper.kt:172-184 | each field is the value under its key or that field's default; no snapshot key stored gives `PlayerState()`; the up-next id and the speed equal what `loadUpNextMediaId` and `loadPlayerPlaybackSpeed` return |
| `PreferencesHelper.SnapshotEntries` | app/src/main/java/org/y20k/escapepod/helpers/PreferencesHelper.kt:191-198 | the puts write exactly the eight snapshot keys, each with the stored form of its field |
| `PreferencesHelper.PutsAreSnapshotEntries` | app/src/main/java/org/y20k/escapepod/helpers/PreferencesHelper.kt:191-198 | the eight puts in sequence give the same store as the snapshot save |
| `PreferencesHelper.SavePlayerStateRoundTrip` | app/src/main/java/org/y20k/escapepod/helpers/PreferencesHelper.kt:172-200 | loading after saving a snapshot gives back the same snapshot, field by field |
| `PreferencesHelper.SavePlayerState` | app/src/main/java/org/y20k/escapepod/helpers/PreferencesHelper.kt:188-200 | the new store is `Written(old, Snapshot(p))`; a later `loadPlayerState` returns `p` |
| `PreferencesHelper.Entries` | app/src/main/java/org/y20k/escapepod/helpers/PreferencesHelper.kt:47-251 | each save puts exactly its own keys, each with a value of that key's type |
| `PreferencesHelper.Written` | app/src/main/java/org/y20k/escapepod/helpers/PreferencesHelper.kt:47-251 | a save adds exactly its keys, gives them values of their types, and leaves every other key unchanged |
| `PreferencesHelper.WrittenKeepsTypeConsistent` | app/src/main/java/org/y20k/escapepod/helpers/PreferencesHelper.kt:47-251 | one save keeps a type-consistent store type-consistent |
| `PreferencesHelper.SavedAll` | app/src/main/java/org/y20k/escapepod/helpers/PreferencesHelper.kt:47-251 | a session of saves never removes a key and keeps a type-consistent store type-consistent |
| `PreferencesHelper.RepairedKeepsTypeConsistent` | app/src/main/java/org/y20k/escapepod/helpers/PreferencesHelper.kt:204-208 | the repair keeps a type-consistent store type-consistent |
| `PreferencesHelper.FacadeStoresStayReadable` | app/src/main/java/org/y20k/escapepod/helpers/PreferencesHelper.kt:40-251 | from a type-consistent store, after any session of saves every key is readable, the snapshot loads, and a repair keeps the store type-consistent |
| `PreferencesHelper.LoadPlayerStateReadsOnlyItsKeys` | app/src/main/java/org/y20k/escapepod/helpers/PreferencesHelper.kt:172-184 | two stores that agree on the eight snapshot keys load the same snapshot |
| `PreferencesHelper.OtherSavesKeepSnapshotKeys` | app/src/main/java/org/y20k/escapepod/helpers/PreferencesHelper.kt:47-200 | a session of saves that writes no snapshot key leaves each of the eight snapshot keys present or absent as before, with the same value |
| `PreferencesHelper.OtherSavesKeepSnapshot` | app/src/main/java/org/y20k/escapepod/helpers/PreferencesHelper.kt:47-200 | a session of saves that writes no snapshot key leaves the loaded snapshot unchanged |
| `PreferencesHelper.Repaired` | app/src/main/java/org/y20k/escapepod/helpers/PreferencesHelper.kt:204-208 | episode audio empty: the loaded snapshot becomes `PlayerState()` and only snapshot keys change; otherwise the store is unchanged |
| `PreferencesHelper.UpdatePlayerState` | app/src/main/java/org/y20k/escapepod/helpers/PreferencesHelper.kt:204-208 | with an explicit snapshot, the new store is `Repaired(old, collection, playerState)` |
| `PreferencesHelper.UpdateStoredPlayerState` | app/src/main/java/org/y20k/escapepod/helpers/PreferencesHelper.kt:204-208 | with the default argument, the repair is decided on the stored snapshot |
| `PreferencesHelper.RepairIsIdempotent` | app/src/main/java/org/y20k/escapepod/helpers/PreferencesHelper.kt:204-208 | repairing from the stored snapshot twice gives the same store as once |
| `PreferencesHelper.IsHouseKeepingNecessary` | app/src/main/java/org/y20k/escapepod/helpers/PreferencesHelper.kt:224-227 | absent key gives `true`; otherwise the stored boolean |
| `PreferencesHelper.SaveHouseKeepingNecessaryState` | app/src/main/java/org/y20k/escapepod/helpers/PreferencesHelper.kt:231-236 | writes only the housekeeping key; a later check returns the argument, which defaults to `false` |
| `PreferencesHelper.LoadNightModeState` | app/src/main/java/org/y20k/escapepod/helpers/PreferencesHelper.kt:240-242 | absent key gives `MODE_NIGHT_FOLLOW_SYSTEM`; otherwise the stored int |
| `PreferencesHelper.SaveNightModeState` | app/src/main/java/org/y20k/escapepod/helpers/PreferencesHelper.kt:246-251 | writes only `PrefNightModeState`; a later load returns the argument |
| `PreferencesHelper.DefaultsOnEmptyStore` | app/src/main/java/org/y20k/escapepod/helpers/PreferencesHelper.kt:40-242 | on an empty store every load returns its own default: `false` for the debug log, `true` for housekeeping, `1f`, `STATE_STOPPED`, `PlayerState()` |
| `PreferencesHelper.UpNextMediaIdIsShared` | app/src/main/java/org/y20k/escapepod/helpers/PreferencesHelper.kt:63-200 | `saveUpNextMediaId(m)` changes only the snapshot's up-next field, to `m`; saving a snapshot sets `loadUpNextMediaId` |
| `PreferencesHelper.PlaybackSpeedIsShared` | app/src/main/java/org/y20k/escapepod/helpers/PreferencesHelper.kt:111-200 | `savePlayerPlaybackSpeed(x)` changes only the snapshot's speed field, to `x`; saving a snapshot sets `loadPlayerPlaybackSpeed` |
| `PreferencesHelper.CurrentKeysLeaveSnapshot` | app/src/main/java/org/y20k/escapepod/helpers/PreferencesHelper.kt:47-184 | saving the current media id or the current playback state leaves the loaded snapshot unchanged: their keys are not snapshot keys |
| `PreferencesHelper.SnapshotLeavesCurrentKeys` | app/src/main/java/org/y20k/escapepod/helpers/PreferencesHelper.kt:88-200 | saving a snapshot leaves the current media id and the current playback state unchanged |
| `PreferencesHelper.SaveLoadedPlayerStateIsIdentity` | app/src/main/java/org/y20k/escapepod/helpers/PreferencesHelper.kt:172-200 | saving the snapshot just loaded from a store holding all eight keys leaves the store as it was |
| `PreferencesHelper.SaveWithDefaultArguments` | app/src/main/java/org/y20k/escapepod/helpers/PreferencesHelper.kt:47-236 | calls without an argument store the empty media ids and make `isHouseKeepingNecessary` false |
| `ArrayListExt.Copy` | app/src/main/java/org/y20k/escapepod/extensions/ArrayListExt.kt:20-24 | the result is a new object whose elements equal the receiver's, in order, so an empty list copies to an empty list; the receiver is only read (the method has no `modifies` clause) |
| `ArrayListExt.AddAfterCopy` | app/src/main/java/org/y20k/escapepod/extensions/ArrayListExt.kt:19-21 | adding to the original after copying leaves the copy with the old elements |

## Left out

- Listener registration and deregistration (`PreferencesHelper.kt:212-220`): they hand the context to Android's change-notification mechanism and hold no logic of their own.
- `editor.apply()` persists in the background. Here every put is an immediate, atomic write to the map. Disk timing and visibility across threads are not modelled.
- ClassCastException: Android throws it when a key holds a value of another type. Instead, each load requires its key to be `Readable`. `SavedAll` shows that stores written only through the facade always meet this.
- The `?: String()` fallbacks after `getString`: they apply only to a stored null. The facade never puts a null, so the model has no null strings.
- `saveLastUpdateCollection` and `saveCollectionModificationDate` take the current time (`Calendar.getInstance().time`) when the date is omitted. The clock is not modelled, so the date is a required parameter.
- `UpdatePlayerState`: the default argument `loadPlayerState(context)` becomes the separate method `UpdateStoredPlayerState`. A Dafny default argument cannot carry the precondition that loading needs.
- The logging call in `loadActiveDownloads` (`PreferencesHelper.kt:157`).
- The concrete values of the `Keys` constants and of `STATE_STOPPED`, `STATE_HIDDEN` and `MODE_NIGHT_FOLLOW_SYSTEM` are left open. The RFC 2822 conversions and `CollectionHelper.getEpisode` are uninterpreted, and so the model says nothing about what `convertFromRfc2822` makes of `""` or of the text it produced. Of an episode, only `audio` is modelled.
- `PlayerState.kt` is not part of this model. `PlayerState()` is taken to hold, field by field, the defaults that `loadPlayerState` falls back to.
- Float arithmetic: the playback speed is only stored and retrieved.
- `EpisodeEntity.kt` (a Room entity whose unique `guid` and generated `eid` are enforced by Room) and the dialogs `ErrorDialog.kt` and `OpmlImportDialog.kt` (view plumbing).
- `ArrayList` is reduced to its element sequence. Its capacity and the iterator's concurrent-modification check are not modelled.
