/** The preference keys of `org.y20k.escapepod.Keys`. Their string values are
    not modelled: each constant name is one constructor, so two different
    names are two different keys and one name is always the same key. */
module Keys {
  import opened Types

  datatype Key =
    | PrefCurrentMediaId                 // Keys.PREF_CURRENT_MEDIA_ID
    | PrefUpNextMediaId                  // Keys.PREF_UP_NEXT_MEDIA_ID
    | PrefKeepDebugLog                   // Keys.PREF_KEEP_DEBUG_LOG
    | PrefCurrentPlaybackState           // Keys.PREF_CURRENT_PLAYBACK_STATE
    | PrefPlayerStatePlaybackSpeed       // Keys.PREF_PLAYER_STATE_PLAYBACK_SPEED
    | PrefLastUpdateCollection           // Keys.PREF_LAST_UPDATE_COLLECTION
    | PrefCollectionModificationDate     // Keys.PREF_COLLECTION_MODIFICATION_DATE
    | PrefActiveDownloads                // Keys.PREF_ACTIVE_DOWNLOADS
    | PrefPlayerStateEpisodeMediaId      // Keys.PREF_PLAYER_STATE_EPISODE_MEDIA_ID
    | PrefPlayerStatePlaybackState       // Keys.PREF_PLAYER_STATE_PLAYBACK_STATE
    | PrefPlayerStatePlaybackPosition    // Keys.PREF_PLAYER_STATE_PLAYBACK_POSITION
    | PrefPlayerStateEpisodeDuration     // Keys.PREF_PLAYER_STATE_EPISODE_DURATION
    | PrefPlayerStateBottomSheetState    // Keys.PREF_PLAYER_STATE_BOTTOM_SHEET_STATE
    | PrefPlayerStateSleepTimerState     // Keys.PREF_PLAYER_STATE_SLEEP_TIMER_STATE
    | PrefOneTimeHousekeepingNecessary   // Keys.PREF_ONE_TIME_HOUSEKEEPING_NECESSARY
    | PrefNightModeState                 // Keys.PREF_NIGHT_MODE_STATE

  /** Keys.STATE_SLEEP_TIMER_STOPPED; its value is left open. */
  const STATE_SLEEP_TIMER_STOPPED: int32

  /** Keys.ACTIVE_DOWNLOADS_EMPTY; its value is left open. */
  const ACTIVE_DOWNLOADS_EMPTY: string
}
