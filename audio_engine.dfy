/**
 * The playback engine of one guild, as a state machine: the request queue, the
 * player, the optional voice connection and the two locks. Each event handler
 * of the engine is one atomic transition; the outcomes of waits on timers and
 * of producing audio are parameters.
 */
module Engine {
  import opened Wrappers
  import opened Queue

  /** Why the voice connection dropped; only a WebSocket close carries a code. */
  datatype DisconnectReason = WebSocketClose(closeCode: int) | AdapterUnavailable | EndpointRemoved | Manual

  /** `VoiceConnectionStatus` */
  datatype ConnectionStatus = Signalling | Connecting | Ready | Disconnected(reason: DisconnectReason) | Destroyed

  /**
   * A voice connection: `joinConfig.channelId` and `guildId`, its status, its
   * `rejoinAttempts`, whether the player is subscribed to it, and the track its
   * state listener captured when it was created.
   */
  datatype Connection = Connection(
    channelId: string, guildId: string, status: ConnectionStatus,
    rejoinAttempts: nat, subscribed: bool, track: Track)

  /** The audio player: idle, or playing the audio of a track. */
  datatype PlayerStatus = Idle | Playing(track: Track)

  datatype EngineState = EngineState(
    queue: seq<AudioRequest>, player: PlayerStatus, connection: Option<Connection>,
    queueLock: bool, readyLock: bool)

  /** A fresh `AudioHandler`: empty queue, idle player, no connection, both locks free. */
  const Initial: EngineState := EngineState([], Idle, None, false, false)

  // ---------------------------------------------------------------------------
  // stop() and destroy()

  /** Whether there is a connection that `destroy()` would accept. */
  predicate HasLiveConnection(s: EngineState) {
    s.connection.Some? && s.connection.value.status != Destroyed
  }

  /**
   * `connection.destroy()` on one of the engine's connections: it becomes
   * Destroyed, and its state listener, which the voice library calls at once,
   * runs `stop()`.
   */
  function Destroy(s: EngineState): EngineState
    requires HasLiveConnection(s)
    decreases 1, 0
  {
    Stop(s.(connection := Some(s.connection.value.(status := Destroyed))))
  }

  /**
   * `stop()`: take the queue lock, clear the queue, force the player to stop,
   * destroy a connection that is not already Destroyed, release the lock. The
   * player's Idle event during `stop()` finds the lock held and drains nothing.
   */
  function Stop(s: EngineState): EngineState
    decreases if HasLiveConnection(s) then 1 else 0, 1
  {
    var cleared := s.(queueLock := true, queue := [], player := Idle);
    var torn := if HasLiveConnection(cleared) then Destroy(cleared) else cleared;
    torn.(queueLock := false)
  }

  // ---------------------------------------------------------------------------
  // playRequest()

  /** The errors `playRequest` throws. */
  datatype PlayError =
    | NoRequest                    // the dequeued value is `undefined`; destructuring it throws
    | MissingInteractionOrTrack
    | NotGuildMember
    | NotInChannel
    | AudioFailed                  // the track could not produce its audio

  /** The checks `playRequest` makes before it looks at the connection; `Ok` carries channel, guild and track. */
  function ValidateRequest(request: Option<AudioRequest>): Result<(string, string, Track), PlayError> {
    if request.None? then Err(NoRequest)
    else if request.value.interaction.None? || request.value.track.None? then Err(MissingInteractionOrTrack)
    else
      var interaction := request.value.interaction.value;
      if interaction.member.None? then Err(NotGuildMember)
      else if interaction.member.value.voiceChannel.None? || interaction.guild.None? then Err(NotInChannel)
      else Ok((interaction.member.value.voiceChannel.value, interaction.guild.value, request.value.track.value))
  }

  /** Whether `playRequest` joins a channel anew rather than reusing the connection. */
  predicate NeedsNewConnection(s: EngineState, channelId: string) {
    s.connection.None? || s.connection.value.status == Destroyed || s.connection.value.channelId != channelId
  }

  /**
   * `playRequest`: validate, then either create a connection to the user's
   * channel (whose listener will play the track once Ready, with no `await`
   * here) or hand the track's audio straight to the player. `audioOk` is the
   * outcome of the track's audio-producing action.
   */
  function PlayRequest(s: EngineState, request: Option<AudioRequest>, audioOk: bool): (EngineState, Result<(), PlayError>) {
    match ValidateRequest(request)
    case Err(e) => (s, Err(e))
    case Ok((channelId, guildId, track)) =>
      if NeedsNewConnection(s, channelId) then
        (s.(connection := Some(Connection(channelId, guildId, Signalling, 0, false, track))), Ok(()))
      else if audioOk then
        (s.(player := Playing(track)), Ok(()))
      else
        (s, Err(AudioFailed))
  }

  // ---------------------------------------------------------------------------
  // playNextFromQueue()

  /** How one run of `playNextFromQueue` ends. */
  datatype StepResult =
    | Skipped              // lock held or player busy
    | ConnectionDestroyed  // nothing queued: the connection was torn down
    | Rejected             // nothing queued and the connection already Destroyed: `destroy()` throws
    | Played               // `playRequest` returned
    | Retry                // `playRequest` threw: the catch runs the drain again

  /** One run of `playNextFromQueue` up to its return or its recursive retry. */
  function DrainStep(s: EngineState, audioOk: bool): (EngineState, StepResult) {
    if s.queueLock || !s.player.Idle? then (s, Skipped)
    else if |s.queue| == 0 && s.connection.Some? then
      if s.connection.value.status == Destroyed then (s, Rejected)
      else (Destroy(s), ConnectionDestroyed)
    else
      var next := if |s.queue| == 0 then None else Some(s.queue[0]);
      var locked := s.(queueLock := true, queue := if |s.queue| == 0 then [] else s.queue[1..]);
      var (after, outcome) := PlayRequest(locked, next, audioOk);
      (after.(queueLock := false), if outcome.Ok? then Played else Retry)
  }

  /**
   * How a drain ends: at a step that does not retry, or with the retry budget
   * used up. `enqueue` can also throw before it queues anything, when it reads
   * the title of a request that has no track.
   */
  datatype DrainResult = Finished(step: StepResult) | OutOfBudget | ThrewBeforeQueuing

  /**
   * `playNextFromQueue` with its retries: attempt `k` uses `audioOutcomes[k]`.
   * The source puts no bound on its retries; the length of `audioOutcomes` is
   * how many attempts the model follows.
   */
  function Drain(s: EngineState, audioOutcomes: seq<bool>): (EngineState, DrainResult)
    decreases |audioOutcomes|
  {
    if audioOutcomes == [] then (s, OutOfBudget)
    else
      var (next, r) := DrainStep(s, audioOutcomes[0]);
      if r == Retry then Drain(next, audioOutcomes[1..]) else (next, Finished(r))
  }

  /**
   * `enqueue`: log the track's title, append, then drain. Without a track,
   * reading the title throws and nothing is queued.
   */
  function Enqueue(s: EngineState, request: AudioRequest, audioOutcomes: seq<bool>): (EngineState, DrainResult) {
    if request.track.None? then (s, ThrewBeforeQueuing)
    else Drain(s.(queue := s.queue + [request]), audioOutcomes)
  }

  /** The player's `stateChange` listener: only a change into Idle from another status drains. */
  function OnPlayerStateChange(s: EngineState, newStatus: PlayerStatus, audioOutcomes: seq<bool>): (EngineState, Option<DrainResult>) {
    var moved := s.(player := newStatus);
    if newStatus.Idle? && !s.player.Idle? then
      var (after, r) := Drain(moved, audioOutcomes);
      (after, Some(r))
    else (moved, None)
  }

  // ---------------------------------------------------------------------------
  // the connection's stateChange listener

  /** The close code after which the connection may be resuming on its own. */
  const RESUMABLE_CLOSE_CODE := 4014
  const MAX_REJOIN_ATTEMPTS := 2
  const REJOIN_BACKOFF_MS := 5000
  const RECONNECT_WAIT_MS := 5000
  const READY_WAIT_MS := 20000

  /** The wait before rejoin number `attempts + 1`. */
  function RejoinDelay(attempts: nat): nat {
    (attempts + 1) * REJOIN_BACKOFF_MS
  }

  /**
   * The connection's `stateChange` listener, entered with `newStatus` as the
   * connection's status. `waitOk` says whether the awaited status came in time
   * (Connecting within 5 s after a 4014 close; Ready within 20 s), `audioOk`
   * whether the captured track produced its audio. A rejoin sets the status to
   * Signalling; the listener's own run for that status is a separate event.
   * Reaching Ready resets `rejoinAttempts`, as the voice library does before it
   * emits the change, so only consecutive drops count against the rejoin limit.
   * An error thrown in the Ready branch leaves the listener and reaches no caller.
   */
  function OnConnectionStateChange(s: EngineState, newStatus: ConnectionStatus, waitOk: bool, audioOk: bool): EngineState {
    if s.connection.None? then s
    else
      var c := s.connection.value.(status := newStatus);
      var entered := s.(connection := Some(c));
      match newStatus
      case Disconnected(reason) =>
        if reason == WebSocketClose(RESUMABLE_CLOSE_CODE) then
          if waitOk then entered else Destroy(entered)
        else if c.rejoinAttempts < MAX_REJOIN_ATTEMPTS then
          entered.(connection := Some(c.(rejoinAttempts := c.rejoinAttempts + 1, status := Signalling)))
        else Destroy(entered)
      case Destroyed => Stop(entered)
      case Ready => entered.(connection := Some(c.(rejoinAttempts := 0)))
      case _ =>
        if s.readyLock then entered
        else
          var subscribed := if waitOk then entered.(connection := Some(c.(subscribed := true))) else entered;
          var ended :=
            if waitOk && audioOk then subscribed.(player := Playing(c.track))
            else if HasLiveConnection(subscribed) then Destroy(subscribed)
            else subscribed;
          ended.(readyLock := false)
  }
}
