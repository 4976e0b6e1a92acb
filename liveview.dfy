/** The named events the player hooks push to the LiveView server, with their payloads.
    A hook's `pushEvent` appends one of these to the hook's log of pushed events. */
module LiveView {

  datatype Push =
    | PlaybackStarted
    | PlaybackPaused(time: real)
    | PlaybackRateChanged(rate: real)
    /** `persist` is set when the payload carries `persist: true`. */
    | PlaybackTimeUpdated(time: real, persist: bool)
    | DurationLoaded(duration: real)
    | LoadMedia(mediaId: string)
    | LoadAndPlayMedia(mediaId: string)
}
