/** Constants of the Android libraries the facade uses as defaults. Their
    values are left open: nothing here depends on them. */
module Framework {
  import opened Types

  /** PlaybackStateCompat.STATE_STOPPED */
  const STATE_STOPPED: int32

  /** BottomSheetBehavior.STATE_HIDDEN */
  const STATE_HIDDEN: int32

  /** AppCompatDelegate.MODE_NIGHT_FOLLOW_SYSTEM */
  const MODE_NIGHT_FOLLOW_SYSTEM: int32
}

/** DateTimeHelper: conversion to and from the date-time text of section 3.3
    of RFC 2822. Both directions are uninterpreted functions. */
module DateTimeHelper {
  import opened Types

  const ConvertToRfc2822: Date -> string
  const ConvertFromRfc2822: string -> Date
}

/** CollectionHelper: looks an episode up in the podcast collection by its
    media id. The collection and the lookup are uninterpreted. */
module CollectionHelper {

  /** org.y20k.escapepod.core.Collection */
  type Collection

  /** The one field of a looked-up episode that the facade reads. */
  datatype Episode = Episode(audio: string)

  /** CollectionHelper.getEpisode(collection, mediaId) */
  const GetEpisode: (Collection, string) -> Episode
}
