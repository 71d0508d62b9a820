/** PreferencesHelper: typed load and save accessors over the app's
    SharedPreferences store, the persisted player-state snapshot, and the
    repair that resets a snapshot whose episode has no audio file. */
module PreferencesHelper {
  import opened Types
  import opened Keys
  import opened Framework
  import opened KeyValueStore
  import opened DateTimeHelper
  import opened CollectionHelper

  /** The type each key is put and got with by the accessors below. */
  function KindOf(k: Key): Kind {
    match k
    case PrefCurrentMediaId => StringKind
    case PrefUpNextMediaId => StringKind
    case PrefKeepDebugLog => BooleanKind
    case PrefCurrentPlaybackState => IntKind
    case PrefPlayerStatePlaybackSpeed => FloatKind
    case PrefLastUpdateCollection => StringKind
    case PrefCollectionModificationDate => StringKind
    case PrefActiveDownloads => StringKind
    case PrefPlayerStateEpisodeMediaId => StringKind
    case PrefPlayerStatePlaybackState => IntKind
    case PrefPlayerStatePlaybackPosition => LongKind
    case PrefPlayerStateEpisodeDuration => LongKind
    case PrefPlayerStateBottomSheetState => IntKind
    case PrefPlayerStateSleepTimerState => IntKind
    case PrefOneTimeHousekeepingNecessary => BooleanKind
    case PrefNightModeState => IntKind
  }

  /** Reading `k` does not throw: it is absent or holds a value of its type. */
  predicate Readable(s: Store, k: Key) {
    k in s ==> KindOfValue(s[k]) == KindOf(k)
  }

  /** Every key holds a value of its type. */
  predicate TypeConsistent(s: Store) {
    forall k :: k in s ==> KindOfValue(s[k]) == KindOf(k)
  }

  // ---------------------------------------------------------------------
  // Single-key accessors
  // ---------------------------------------------------------------------

  function LoadCurrentMediaId(s: Store): (r: string)
    requires Readable(s, PrefCurrentMediaId)
    ensures PrefCurrentMediaId !in s ==> r == ""
    ensures PrefCurrentMediaId in s ==> s[PrefCurrentMediaId] == StringValue(r)
  {
    GetString(s, PrefCurrentMediaId, "")
  }

  function LoadUpNextMediaId(s: Store): (r: string)
    requires Readable(s, PrefUpNextMediaId)
    ensures PrefUpNextMediaId !in s ==> r == ""
    ensures PrefUpNextMediaId in s ==> s[PrefUpNextMediaId] == StringValue(r)
  {
    GetString(s, PrefUpNextMediaId, "")
  }

  function LoadKeepDebugLog(s: Store): (r: bool)
    requires Readable(s, PrefKeepDebugLog)
    ensures PrefKeepDebugLog !in s ==> !r
    ensures PrefKeepDebugLog in s ==> s[PrefKeepDebugLog] == BooleanValue(r)
  {
    GetBoolean(s, PrefKeepDebugLog, false)
  }

  function LoadPlayerPlaybackState(s: Store): (r: int32)
    requires Readable(s, PrefCurrentPlaybackState)
    ensures PrefCurrentPlaybackState !in s ==> r == STATE_STOPPED
    ensures PrefCurrentPlaybackState in s ==> s[PrefCurrentPlaybackState] == IntValue(r)
  {
    GetInt(s, PrefCurrentPlaybackState, STATE_STOPPED)
  }

  function LoadPlayerPlaybackSpeed(s: Store): (r: Float32)
    requires Readable(s, PrefPlayerStatePlaybackSpeed)
    ensures PrefPlayerStatePlaybackSpeed !in s ==> r == ONE_F
    ensures PrefPlayerStatePlaybackSpeed in s ==> s[PrefPlayerStatePlaybackSpeed] == FloatValue(r)
  {
    GetFloat(s, PrefPlayerStatePlaybackSpeed, ONE_F)
  }

  /** The date is stored as RFC 2822 text; an absent key is read as "". */
  function LoadLastUpdateCollection(s: Store): (r: Date)
    requires Readable(s, PrefLastUpdateCollection)
    ensures PrefLastUpdateCollection !in s ==> r == ConvertFromRfc2822("")
    ensures PrefLastUpdateCollection in s ==>
      r == ConvertFromRfc2822(s[PrefLastUpdateCollection].asString)
  {
    ConvertFromRfc2822(GetString(s, PrefLastUpdateCollection, ""))
  }

  function LoadCollectionModificationDate(s: Store): (r: Date)
    requires Readable(s, PrefCollectionModificationDate)
    ensures PrefCollectionModificationDate !in s ==> r == ConvertFromRfc2822("")
    ensures PrefCollectionModificationDate in s ==>
      r == ConvertFromRfc2822(s[PrefCollectionModificationDate].asString)
  {
    ConvertFromRfc2822(GetString(s, PrefCollectionModificationDate, ""))
  }

  function LoadActiveDownloads(s: Store): (r: string)
    requires Readable(s, PrefActiveDownloads)
    ensures PrefActiveDownloads !in s ==> r == ACTIVE_DOWNLOADS_EMPTY
    ensures PrefActiveDownloads in s ==> s[PrefActiveDownloads] == StringValue(r)
  {
    GetString(s, PrefActiveDownloads, ACTIVE_DOWNLOADS_EMPTY)
  }

  function IsHouseKeepingNecessary(s: Store): (r: bool)
    requires Readable(s, PrefOneTimeHousekeepingNecessary)
    ensures PrefOneTimeHousekeepingNecessary !in s ==> r
    ensures PrefOneTimeHousekeepingNecessary in s ==>
      s[PrefOneTimeHousekeepingNecessary] == BooleanValue(r)
  {
    GetBoolean(s, PrefOneTimeHousekeepingNecessary, true)
  }

  function LoadNightModeState(s: Store): (r: int32)
    requires Readable(s, PrefNightModeState)
    ensures PrefNightModeState !in s ==> r == MODE_NIGHT_FOLLOW_SYSTEM
    ensures PrefNightModeState in s ==> s[PrefNightModeState] == IntValue(r)
  {
    GetInt(s, PrefNightModeState, MODE_NIGHT_FOLLOW_SYSTEM)
  }

  // ---------------------------------------------------------------------
  // The player-state snapshot
  // ---------------------------------------------------------------------

  /** org.y20k.escapepod.ui.PlayerState */
  datatype PlayerState = PlayerState(
    episodeMediaId: string,
    playbackState: int32,
    playbackPosition: int64,
    episodeDuration: int64,
    playbackSpeed: Float32,
    upNextEpisodeMediaId: string,
    bottomSheetState: int32,
    sleepTimerState: int32)

  /** `PlayerState()`: every field at the default its key is loaded with. */
  const DefaultPlayerState: PlayerState :=
    PlayerState("", STATE_STOPPED, 0, 0, ONE_F, "", STATE_HIDDEN, STATE_SLEEP_TIMER_STOPPED)

  /** The eight keys the snapshot is stored under. Two of them are shared
      with single-key accessors: the up-next media id and the speed. */
  const PlayerStateKeys: set<Key> := {
    PrefPlayerStateEpisodeMediaId, PrefPlayerStatePlaybackState,
    PrefPlayerStatePlaybackPosition, PrefPlayerStateEpisodeDuration,
    PrefPlayerStatePlaybackSpeed, PrefUpNextMediaId,
    PrefPlayerStateBottomSheetState, PrefPlayerStateSleepTimerState }

  /** The stored form of the field of `p` that lives under key `k`. */
  function FieldValue(p: PlayerState, k: Key): Value
    requires k in PlayerStateKeys
  {
    match k
    case PrefPlayerStateEpisodeMediaId => StringValue(p.episodeMediaId)
    case PrefPlayerStatePlaybackState => IntValue(p.playbackState)
    case PrefPlayerStatePlaybackPosition => LongValue(p.playbackPosition)
    case PrefPlayerStateEpisodeDuration => LongValue(p.episodeDuration)
    case PrefPlayerStatePlaybackSpeed => FloatValue(p.playbackSpeed)
    case PrefUpNextMediaId => StringValue(p.upNextEpisodeMediaId)
    case PrefPlayerStateBottomSheetState => IntValue(p.bottomSheetState)
    case PrefPlayerStateSleepTimerState => IntValue(p.sleepTimerState)
  }

  /** Every field is stored with the type its key is read with. */
  lemma SnapshotFieldKinds(p: PlayerState)
    ensures forall k :: k in PlayerStateKeys ==> KindOfValue(FieldValue(p, k)) == KindOf(k)
  {
  }

  predicate PlayerStateReadable(s: Store) {
    && Readable(s, PrefPlayerStateEpisodeMediaId)
    && Readable(s, PrefPlayerStatePlaybackState)
    && Readable(s, PrefPlayerStatePlaybackPosition)
    && Readable(s, PrefPlayerStateEpisodeDuration)
    && Readable(s, PrefPlayerStatePlaybackSpeed)
    && Readable(s, PrefUpNextMediaId)
    && Readable(s, PrefPlayerStateBottomSheetState)
    && Readable(s, PrefPlayerStateSleepTimerState)
  }

  /** Each field is the value stored under its key, or its default. */
  function LoadPlayerState(s: Store): (r: PlayerState)
    requires PlayerStateReadable(s)
    ensures forall k :: k in PlayerStateKeys && k in s ==> FieldValue(r, k) == s[k]
    ensures forall k :: k in PlayerStateKeys && k !in s ==>
      FieldValue(r, k) == FieldValue(DefaultPlayerState, k)
    ensures PlayerStateKeys !! s.Keys ==> r == DefaultPlayerState
    ensures r.upNextEpisodeMediaId == LoadUpNextMediaId(s)
    ensures r.playbackSpeed == LoadPlayerPlaybackSpeed(s)
  {
    PlayerState(
      GetString(s, PrefPlayerStateEpisodeMediaId, ""),
      GetInt(s, PrefPlayerStatePlaybackState, STATE_STOPPED),
      GetLong(s, PrefPlayerStatePlaybackPosition, 0),
      GetLong(s, PrefPlayerStateEpisodeDuration, 0),
      GetFloat(s, PrefPlayerStatePlaybackSpeed, ONE_F),
      GetString(s, PrefUpNextMediaId, ""),
      GetInt(s, PrefPlayerStateBottomSheetState, STATE_HIDDEN),
      GetInt(s, PrefPlayerStateSleepTimerState, STATE_SLEEP_TIMER_STOPPED))
  }

  /** The eight entries savePlayerState puts, in the order of its puts:
      each snapshot key with the stored form of its field. */
  function SnapshotEntries(p: PlayerState): (e: map<Key, Value>)
    ensures e.Keys == PlayerStateKeys
    ensures forall k :: k in e ==> e[k] == FieldValue(p, k)
  {
    map[PrefPlayerStateEpisodeMediaId := StringValue(p.episodeMediaId),
        PrefPlayerStatePlaybackState := IntValue(p.playbackState),
        PrefPlayerStatePlaybackPosition := LongValue(p.playbackPosition),
        PrefPlayerStateEpisodeDuration := LongValue(p.episodeDuration),
        PrefPlayerStatePlaybackSpeed := FloatValue(p.playbackSpeed),
        PrefUpNextMediaId := StringValue(p.upNextEpisodeMediaId),
        PrefPlayerStateBottomSheetState := IntValue(p.bottomSheetState),
        PrefPlayerStateSleepTimerState := IntValue(p.sleepTimerState)]
  }

  /** Putting the eight entries one after the other, as savePlayerState
      does, adds exactly the snapshot's entries. */
  lemma PutsAreSnapshotEntries(s: Store, p: PlayerState)
    ensures s[PrefPlayerStateEpisodeMediaId := StringValue(p.episodeMediaId)]
             [PrefPlayerStatePlaybackState := IntValue(p.playbackState)]
             [PrefPlayerStatePlaybackPosition := LongValue(p.playbackPosition)]
             [PrefPlayerStateEpisodeDuration := LongValue(p.episodeDuration)]
             [PrefPlayerStatePlaybackSpeed := FloatValue(p.playbackSpeed)]
             [PrefUpNextMediaId := StringValue(p.upNextEpisodeMediaId)]
             [PrefPlayerStateBottomSheetState := IntValue(p.bottomSheetState)]
             [PrefPlayerStateSleepTimerState := IntValue(p.sleepTimerState)]
            == Written(s, Snapshot(p))
  {
  }

  // ---------------------------------------------------------------------
  // Saves, as values: what each save accessor writes
  // ---------------------------------------------------------------------

  /** One call of a save accessor with its argument. */
  datatype Save =
    | CurrentMediaId(mediaId: string)
    | UpNextMediaId(mediaId: string)
    | KeepDebugLog(keepDebugLog: bool)
    | PlayerPlaybackState(playbackState: int32)
    | PlayerPlaybackSpeed(playbackSpeed: Float32)
    | LastUpdateCollection(lastUpdate: Date)
    | CollectionModificationDate(lastSave: Date)
    | ActiveDownloads(activeDownloadsString: string)
    | Snapshot(playerState: PlayerState)
    | HouseKeepingNecessaryState(state: bool)
    | NightModeState(currentState: int32)

  /** The keys a save writes. */
  function KeysWritten(save: Save): set<Key> {
    match save
    case CurrentMediaId(_) => {PrefCurrentMediaId}
    case UpNextMediaId(_) => {PrefUpNextMediaId}
    case KeepDebugLog(_) => {PrefKeepDebugLog}
    case PlayerPlaybackState(_) => {PrefCurrentPlaybackState}
    case PlayerPlaybackSpeed(_) => {PrefPlayerStatePlaybackSpeed}
    case LastUpdateCollection(_) => {PrefLastUpdateCollection}
    case CollectionModificationDate(_) => {PrefCollectionModificationDate}
    case ActiveDownloads(_) => {PrefActiveDownloads}
    case Snapshot(_) => PlayerStateKeys
    case HouseKeepingNecessaryState(_) => {PrefOneTimeHousekeepingNecessary}
    case NightModeState(_) => {PrefNightModeState}
  }

  /** The entries one save puts: one per key it writes, each holding a
      value of that key's type. */
  function Entries(save: Save): (e: map<Key, Value>)
    ensures e.Keys == KeysWritten(save)
    ensures forall k :: k in e ==> KindOfValue(e[k]) == KindOf(k)
  {
    match save
    case CurrentMediaId(m) => map[PrefCurrentMediaId := StringValue(m)]
    case UpNextMediaId(m) => map[PrefUpNextMediaId := StringValue(m)]
    case KeepDebugLog(b) => map[PrefKeepDebugLog := BooleanValue(b)]
    case PlayerPlaybackState(st) => map[PrefCurrentPlaybackState := IntValue(st)]
    case PlayerPlaybackSpeed(sp) => map[PrefPlayerStatePlaybackSpeed := FloatValue(sp)]
    case LastUpdateCollection(d) =>
      map[PrefLastUpdateCollection := StringValue(ConvertToRfc2822(d))]
    case CollectionModificationDate(d) =>
      map[PrefCollectionModificationDate := StringValue(ConvertToRfc2822(d))]
    case ActiveDownloads(a) => map[PrefActiveDownloads := StringValue(a)]
    case Snapshot(p) => SnapshotFieldKinds(p); SnapshotEntries(p)
    case HouseKeepingNecessaryState(b) => map[PrefOneTimeHousekeepingNecessary := BooleanValue(b)]
    case NightModeState(n) => map[PrefNightModeState := IntValue(n)]
  }

  /** The store after one save: it writes exactly its keys, each with a
      value of that key's type, and leaves every other key as it was. */
  function Written(s: Store, save: Save): (r: Store)
    ensures r.Keys == s.Keys + KeysWritten(save)
    ensures forall k :: k in s && k !in KeysWritten(save) ==> r[k] == s[k]
    ensures forall k :: k in KeysWritten(save) ==> KindOfValue(r[k]) == KindOf(k)
  {
    s + Entries(save)
  }

  /** savePlayerState followed by loadPlayerState gives back the snapshot. */
  lemma SavePlayerStateRoundTrip(s: Store, p: PlayerState)
    ensures PlayerStateReadable(Written(s, Snapshot(p)))
    ensures LoadPlayerState(Written(s, Snapshot(p))) == p
  {
  }

  /** A save keeps a type-consistent store type-consistent. */
  lemma WrittenKeepsTypeConsistent(s: Store, save: Save)
    ensures TypeConsistent(s) ==> TypeConsistent(Written(s, save))
  {
  }

  /** The store after a sequence of saves, first to last. Saves never remove
      a key and never break type consistency, so after any session of saves
      on a consistent store every load above is defined. */
  function SavedAll(s: Store, saves: seq<Save>): (r: Store)
    ensures s.Keys <= r.Keys
    ensures TypeConsistent(s) ==> TypeConsistent(r)
    decreases |saves|
  {
    if saves == [] then s
    else
      WrittenKeepsTypeConsistent(s, saves[0]);
      SavedAll(Written(s, saves[0]), saves[1..])
  }

  /** A session of saves none of which writes a snapshot key leaves every
      snapshot key as it was. */
  lemma {:induction false} OtherSavesKeepSnapshotKeys(s: Store, saves: seq<Save>)
    requires forall i :: 0 <= i < |saves| ==> KeysWritten(saves[i]) !! PlayerStateKeys
    ensures forall k :: k in PlayerStateKeys ==> (k in SavedAll(s, saves) <==> k in s)
    ensures forall k :: k in PlayerStateKeys && k in s ==> SavedAll(s, saves)[k] == s[k]
    decreases |saves|
  {
    if saves != [] {
      OtherSavesKeepSnapshotKeys(Written(s, saves[0]), saves[1..]);
    }
  }

  /** Hence such a session leaves the stored snapshot as it was. */
  lemma OtherSavesKeepSnapshot(s: Store, saves: seq<Save>)
    requires PlayerStateReadable(s)
    requires forall i :: 0 <= i < |saves| ==> KeysWritten(saves[i]) !! PlayerStateKeys
    ensures PlayerStateReadable(SavedAll(s, saves))
    ensures LoadPlayerState(SavedAll(s, saves)) == LoadPlayerState(s)
  {
    OtherSavesKeepSnapshotKeys(s, saves);
    LoadPlayerStateReadsOnlyItsKeys(s, SavedAll(s, saves));
  }

  // ---------------------------------------------------------------------
  // The consistency repair
  // ---------------------------------------------------------------------

  /** The store after updatePlayerState: reset to the default snapshot when
      the episode the snapshot refers to has no audio, otherwise unchanged. */
  function Repaired(s: Store, collection: Collection, playerState: PlayerState): (r: Store)
    ensures GetEpisode(collection, playerState.episodeMediaId).audio == "" ==>
      PlayerStateReadable(r) && LoadPlayerState(r) == DefaultPlayerState
    ensures GetEpisode(collection, playerState.episodeMediaId).audio == "" ==>
      r.Keys == s.Keys + PlayerStateKeys &&
      forall k :: k in s && k !in PlayerStateKeys ==> r[k] == s[k]
    ensures GetEpisode(collection, playerState.episodeMediaId).audio != "" ==> r == s
  {
    if GetEpisode(collection, playerState.episodeMediaId).audio == "" then
      SavePlayerStateRoundTrip(s, DefaultPlayerState);
      Written(s, Snapshot(DefaultPlayerState))
    else
      s
  }

  /** The repair keeps a type-consistent store type-consistent: it either
      leaves the store alone or saves the default snapshot. */
  lemma RepairedKeepsTypeConsistent(s: Store, collection: Collection, playerState: PlayerState)
    ensures TypeConsistent(s) ==> TypeConsistent(Repaired(s, collection, playerState))
  {
    WrittenKeepsTypeConsistent(s, Snapshot(DefaultPlayerState));
  }

  /** On a store that starts type-consistent (the empty store, for one),
      after any session of saves every load is defined, the stored snapshot
      can be loaded, and a following repair keeps the store type-consistent. */
  lemma FacadeStoresStayReadable(s: Store, saves: seq<Save>, collection: Collection, playerState: PlayerState)
    requires TypeConsistent(s)
    ensures forall k :: Readable(SavedAll(s, saves), k)
    ensures PlayerStateReadable(SavedAll(s, saves))
    ensures TypeConsistent(Repaired(SavedAll(s, saves), collection, playerState))
  {
    RepairedKeepsTypeConsistent(SavedAll(s, saves), collection, playerState);
  }

  // ---------------------------------------------------------------------
  // Properties relating several accessors
  // ---------------------------------------------------------------------

  /** What every load returns on a store that was never written. The two
      boolean settings have opposite defaults. */
  lemma DefaultsOnEmptyStore()
    ensures LoadCurrentMediaId(map[]) == "" && LoadUpNextMediaId(map[]) == ""
    ensures !LoadKeepDebugLog(map[]) && IsHouseKeepingNecessary(map[])
    ensures LoadPlayerPlaybackState(map[]) == STATE_STOPPED
    ensures LoadPlayerPlaybackSpeed(map[]) == ONE_F
    ensures LoadLastUpdateCollection(map[]) == ConvertFromRfc2822("")
    ensures LoadCollectionModificationDate(map[]) == ConvertFromRfc2822("")
    ensures LoadActiveDownloads(map[]) == ACTIVE_DOWNLOADS_EMPTY
    ensures LoadNightModeState(map[]) == MODE_NIGHT_FOLLOW_SYSTEM
    ensures LoadPlayerState(map[]) == DefaultPlayerState
  {
  }

  /** saveUpNextMediaId changes exactly the up-next field of the stored
      snapshot, and saving a snapshot sets what loadUpNextMediaId returns. */
  lemma UpNextMediaIdIsShared(s: Store, mediaId: string, p: PlayerState)
    requires PlayerStateReadable(s)
    ensures LoadPlayerState(Written(s, UpNextMediaId(mediaId)))
         == LoadPlayerState(s).(upNextEpisodeMediaId := mediaId)
    ensures LoadUpNextMediaId(Written(s, Snapshot(p))) == p.upNextEpisodeMediaId
  {
  }

  /** savePlayerPlaybackSpeed changes exactly the speed field of the stored
      snapshot, and saving a snapshot sets what loadPlayerPlaybackSpeed returns. */
  lemma PlaybackSpeedIsShared(s: Store, speed: Float32, p: PlayerState)
    requires PlayerStateReadable(s)
    ensures LoadPlayerState(Written(s, PlayerPlaybackSpeed(speed)))
         == LoadPlayerState(s).(playbackSpeed := speed)
    ensures LoadPlayerPlaybackSpeed(Written(s, Snapshot(p))) == p.playbackSpeed
  {
  }

  /** loadPlayerState reads the eight snapshot keys and nothing else. */
  lemma LoadPlayerStateReadsOnlyItsKeys(s: Store, t: Store)
    requires PlayerStateReadable(s) && PlayerStateReadable(t)
    requires forall k :: k in PlayerStateKeys ==> (k in s <==> k in t)
    requires forall k :: k in PlayerStateKeys && k in s ==> s[k] == t[k]
    ensures LoadPlayerState(s) == LoadPlayerState(t)
  {
  }

  /** The current media id and the current playback state have keys of their
      own, apart from the snapshot's media id and playback state: saving them
      leaves the stored snapshot as it was. */
  lemma CurrentKeysLeaveSnapshot(s: Store, mediaId: string, state: int32)
    requires PlayerStateReadable(s)
    ensures LoadPlayerState(Written(s, CurrentMediaId(mediaId))) == LoadPlayerState(s)
    ensures LoadPlayerState(Written(s, PlayerPlaybackState(state))) == LoadPlayerState(s)
  {
    LoadPlayerStateReadsOnlyItsKeys(s, Written(s, CurrentMediaId(mediaId)));
    LoadPlayerStateReadsOnlyItsKeys(s, Written(s, PlayerPlaybackState(state)));
  }

  /** Conversely, saving the snapshot leaves the current media id and the
      current playback state as they were. */
  lemma SnapshotLeavesCurrentKeys(s: Store, p: PlayerState)
    requires Readable(s, PrefCurrentMediaId) && Readable(s, PrefCurrentPlaybackState)
    ensures LoadCurrentMediaId(Written(s, Snapshot(p))) == LoadCurrentMediaId(s)
    ensures LoadPlayerPlaybackState(Written(s, Snapshot(p))) == LoadPlayerPlaybackState(s)
  {
  }

  /** Saving the snapshot just loaded from a store that holds all eight keys
      leaves the store as it was. */
  lemma SaveLoadedPlayerStateIsIdentity(s: Store)
    requires PlayerStateReadable(s) && PlayerStateKeys <= s.Keys
    ensures Written(s, Snapshot(LoadPlayerState(s))) == s
  {
  }

  /** Repairing twice, each time from the stored snapshot, is the same as
      repairing once. */
  lemma RepairIsIdempotent(s: Store, collection: Collection)
    requires PlayerStateReadable(s)
    ensures var once := Repaired(s, collection, LoadPlayerState(s));
      PlayerStateReadable(once) &&
      Repaired(once, collection, LoadPlayerState(once)) == once
  {
  }

  // ---------------------------------------------------------------------
  // The accessors that write, on a SharedPreferences object
  // ---------------------------------------------------------------------

  method SaveCurrentMediaId(prefs: SharedPreferences, mediaId: string := "")
    modifies prefs
    ensures prefs.store == Written(old(prefs.store), CurrentMediaId(mediaId))
    ensures LoadCurrentMediaId(prefs.store) == mediaId
  {
    prefs.PutString(PrefCurrentMediaId, mediaId);
  }

  method SaveUpNextMediaId(prefs: SharedPreferences, mediaId: string := "")
    modifies prefs
    ensures prefs.store == Written(old(prefs.store), UpNextMediaId(mediaId))
    ensures LoadUpNextMediaId(prefs.store) == mediaId
  {
    prefs.PutString(PrefUpNextMediaId, mediaId);
  }

  method SaveKeepDebugLog(prefs: SharedPreferences, keepDebugLog: bool := false)
    modifies prefs
    ensures prefs.store == Written(old(prefs.store), KeepDebugLog(keepDebugLog))
    ensures LoadKeepDebugLog(prefs.store) == keepDebugLog
  {
    prefs.PutBoolean(PrefKeepDebugLog, keepDebugLog);
  }

  method SavePlayerPlaybackState(prefs: SharedPreferences, playbackState: int32)
    modifies prefs
    ensures prefs.store == Written(old(prefs.store), PlayerPlaybackState(playbackState))
    ensures LoadPlayerPlaybackState(prefs.store) == playbackState
  {
    prefs.PutInt(PrefCurrentPlaybackState, playbackState);
  }

  method SavePlayerPlaybackSpeed(prefs: SharedPreferences, playbackSpeed: Float32)
    modifies prefs
    ensures prefs.store == Written(old(prefs.store), PlayerPlaybackSpeed(playbackSpeed))
    ensures LoadPlayerPlaybackSpeed(prefs.store) == playbackSpeed
  {
    prefs.PutFloat(PrefPlayerStatePlaybackSpeed, playbackSpeed);
  }

  method SaveLastUpdateCollection(prefs: SharedPreferences, lastUpdate: Date)
    modifies prefs
    ensures prefs.store == Written(old(prefs.store), LastUpdateCollection(lastUpdate))
    ensures LoadLastUpdateCollection(prefs.store) == ConvertFromRfc2822(ConvertToRfc2822(lastUpdate))
  {
    prefs.PutString(PrefLastUpdateCollection, ConvertToRfc2822(lastUpdate));
  }

  method SaveCollectionModificationDate(prefs: SharedPreferences, lastSave: Date)
    modifies prefs
    ensures prefs.store == Written(old(prefs.store), CollectionModificationDate(lastSave))
    ensures LoadCollectionModificationDate(prefs.store) == ConvertFromRfc2822(ConvertToRfc2822(lastSave))
  {
    prefs.PutString(PrefCollectionModificationDate, ConvertToRfc2822(lastSave));
  }

  method SaveActiveDownloads(prefs: SharedPreferences, activeDownloadsString: string := "")
    modifies prefs
    ensures prefs.store == Written(old(prefs.store), ActiveDownloads(activeDownloadsString))
    ensures LoadActiveDownloads(prefs.store) == activeDownloadsString
  {
    prefs.PutString(PrefActiveDownloads, activeDownloadsString);
  }

  method SavePlayerState(prefs: SharedPreferences, playerState: PlayerState)
    modifies prefs
    ensures prefs.store == Written(old(prefs.store), Snapshot(playerState))
    ensures LoadPlayerState(prefs.store) == playerState
  {
    ghost var before := prefs.store;
    prefs.PutString(PrefPlayerStateEpisodeMediaId, playerState.episodeMediaId);
    prefs.PutInt(PrefPlayerStatePlaybackState, playerState.playbackState);
    prefs.PutLong(PrefPlayerStatePlaybackPosition, playerState.playbackPosition);
    prefs.PutLong(PrefPlayerStateEpisodeDuration, playerState.episodeDuration);
    prefs.PutFloat(PrefPlayerStatePlaybackSpeed, playerState.playbackSpeed);
    prefs.PutString(PrefUpNextMediaId, playerState.upNextEpisodeMediaId);
    prefs.PutInt(PrefPlayerStateBottomSheetState, playerState.bottomSheetState);
    prefs.PutInt(PrefPlayerStateSleepTimerState, playerState.sleepTimerState);
    PutsAreSnapshotEntries(before, playerState);
    SavePlayerStateRoundTrip(before, playerState);
  }

  /** updatePlayerState with an explicit snapshot argument. */
  method UpdatePlayerState(prefs: SharedPreferences, collection: Collection, playerState: PlayerState)
    modifies prefs
    ensures prefs.store == Repaired(old(prefs.store), collection, playerState)
  {
    if GetEpisode(collection, playerState.episodeMediaId).audio == "" {
      SavePlayerState(prefs, DefaultPlayerState);
    }
  }

  /** updatePlayerState with its default argument, the stored snapshot. */
  method UpdateStoredPlayerState(prefs: SharedPreferences, collection: Collection)
    requires PlayerStateReadable(prefs.store)
    modifies prefs
    ensures prefs.store == Repaired(old(prefs.store), collection, old(LoadPlayerState(prefs.store)))
  {
    UpdatePlayerState(prefs, collection, LoadPlayerState(prefs.store));
  }

  method SaveHouseKeepingNecessaryState(prefs: SharedPreferences, state: bool := false)
    modifies prefs
    ensures prefs.store == Written(old(prefs.store), HouseKeepingNecessaryState(state))
    ensures IsHouseKeepingNecessary(prefs.store) == state
  {
    prefs.PutBoolean(PrefOneTimeHousekeepingNecessary, state);
  }

  method SaveNightModeState(prefs: SharedPreferences, currentState: int32)
    modifies prefs
    ensures prefs.store == Written(old(prefs.store), NightModeState(currentState))
    ensures LoadNightModeState(prefs.store) == currentState
  {
    prefs.PutInt(PrefNightModeState, currentState);
  }

  /** The save accessors called without their argument store the empty
      media ids and mark housekeeping as done. */
  method SaveWithDefaultArguments(prefs: SharedPreferences)
    modifies prefs
    ensures prefs.store ==
      Written(Written(Written(old(prefs.store),
        CurrentMediaId("")), UpNextMediaId("")), HouseKeepingNecessaryState(false))
    ensures LoadCurrentMediaId(prefs.store) == "" && LoadUpNextMediaId(prefs.store) == ""
    ensures !IsHouseKeepingNecessary(prefs.store)
  {
    SaveCurrentMediaId(prefs);
    SaveUpNextMediaId(prefs);
    SaveHouseKeepingNecessaryState(prefs);
  }
}
