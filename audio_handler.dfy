/**
 * `AudioHandler`: the object that owns one guild's queue, player, voice
 * connection and locks, and updates them in place. Each method is proved to
 * move the object's state exactly as the matching transition of `Engine` does.
 */
module Handler {
  import opened Wrappers
  import opened Queue
  import opened Engine
  import EngineProperties

  class AudioHandler {
    const queue: AudioQueue
    var player: PlayerStatus
    var connection: Option<Connection>
    var queueLock: bool
    var readyLock: bool

    /** The handler's state as a value of the engine's state machine. */
    function State(): EngineState
      reads this, queue
    {
      EngineState(queue.queue, player, connection, queueLock, readyLock)
    }

    /** A new handler: empty queue, idle player, no connection, both locks free. */
    constructor ()
      ensures State() == Initial && fresh(queue)
    {
      queue := new AudioQueue();
      player := Idle;
      connection := None;
      queueLock := false;
      readyLock := false;
    }

    /** `stop()` */
    method Stop()
      modifies this, queue
      ensures State() == Engine.Stop(old(State()))
      decreases if HasLiveConnection(State()) then 1 else 0, 1
    {
      queueLock := true;
      queue.Clear();
      player := Idle;
      if connection.Some? && connection.value.status != Destroyed {
        DestroyConnection();
      }
      queueLock := false;
    }

    /** `connection.destroy()`, whose Destroyed listener runs `stop()` before it returns. */
    method DestroyConnection()
      requires HasLiveConnection(State())
      modifies this, queue
      ensures State() == Destroy(old(State()))
      decreases 1, 0
    {
      connection := Some(connection.value.(status := Destroyed));
      Stop();
    }

    /** `playRequest()`; the `Err` outcomes are the errors it throws. */
    method PlayRequest(request: Option<AudioRequest>, audioOk: bool) returns (outcome: Result<(), PlayError>)
      modifies this
      ensures (State(), outcome) == Engine.PlayRequest(old(State()), request, audioOk)
    {
      if request.None? {
        return Err(NoRequest);
      }
      var r := request.value;
      if r.interaction.None? || r.track.None? {
        return Err(MissingInteractionOrTrack);
      }
      var interaction := r.interaction.value;
      if interaction.member.None? {
        return Err(NotGuildMember);
      }
      if interaction.member.value.voiceChannel.None? || interaction.guild.None? {
        return Err(NotInChannel);
      }
      var channelId := interaction.member.value.voiceChannel.value;
      var track := r.track.value;
      if connection.None? || connection.value.status == Destroyed || connection.value.channelId != channelId {
        connection := Some(Connection(channelId, interaction.guild.value, Signalling, 0, false, track));
        return Ok(());
      }
      if !audioOk {
        return Err(AudioFailed);
      }
      player := Playing(track);
      return Ok(());
    }

    /** One run of `playNextFromQueue()` up to its return or its retry from the catch. */
    method PlayNextOnce(audioOk: bool) returns (step: StepResult)
      modifies this, queue
      ensures (State(), step) == DrainStep(old(State()), audioOk)
    {
      if queueLock || !player.Idle? {
        return Skipped;
      }
      var empty := queue.IsEmpty();
      if empty && connection.Some? {
        if connection.value.status == Destroyed {
          return Rejected;
        }
        DestroyConnection();
        return ConnectionDestroyed;
      }
      queueLock := true;
      var next := queue.NextRequest();
      var outcome := PlayRequest(next, audioOk);
      queueLock := false;
      step := if outcome.Ok? then Played else Retry;
    }

    /**
     * `playNextFromQueue()` with its retries, the `k`-th attempt using
     * `audioOutcomes[k]`; `OutOfBudget` when every given attempt retried.
     */
    method PlayNextFromQueue(audioOutcomes: seq<bool>) returns (result: DrainResult)
      modifies this, queue
      ensures (State(), result) == Drain(old(State()), audioOutcomes)
    {
      var i := 0;
      while i < |audioOutcomes|
        invariant 0 <= i <= |audioOutcomes|
        invariant Drain(State(), audioOutcomes[i..]) == Drain(old(State()), audioOutcomes)
        decreases |audioOutcomes| - i
      {
        ghost var before := State();
        var step := PlayNextOnce(audioOutcomes[i]);
        assert audioOutcomes[i..][0] == audioOutcomes[i];
        assert audioOutcomes[i..][1..] == audioOutcomes[i + 1..];
        if step != Retry {
          assert Drain(before, audioOutcomes[i..]) == (State(), Finished(step));
          return Finished(step);
        }
        i := i + 1;
      }
      return OutOfBudget;
    }

    /** `enqueue()`: read the track's title for the log, append the request, then drain. */
    method Enqueue(request: AudioRequest, audioOutcomes: seq<bool>) returns (result: DrainResult)
      modifies this, queue
      ensures (State(), result) == Engine.Enqueue(old(State()), request, audioOutcomes)
    {
      if request.track.None? {
        return ThrewBeforeQueuing;
      }
      queue.Enqueue(request);
      result := PlayNextFromQueue(audioOutcomes);
    }

    /** The player's `stateChange` listener; `None` when it does not drain. */
    method OnPlayerStateChange(newStatus: PlayerStatus, audioOutcomes: seq<bool>) returns (result: Option<DrainResult>)
      modifies this, queue
      ensures (State(), result) == Engine.OnPlayerStateChange(old(State()), newStatus, audioOutcomes)
    {
      var wasIdle := player.Idle?;
      player := newStatus;
      if newStatus.Idle? && !wasIdle {
        var r := PlayNextFromQueue(audioOutcomes);
        return Some(r);
      }
      return None;
    }

    /** The connection's `stateChange` listener, entered with the connection in `newStatus`. */
    method OnConnectionStateChange(newStatus: ConnectionStatus, waitOk: bool, audioOk: bool)
      modifies this, queue
      ensures State() == Engine.OnConnectionStateChange(old(State()), newStatus, waitOk, audioOk)
    {
      if connection.None? {
        return;
      }
      connection := Some(connection.value.(status := newStatus));
      match newStatus {
        case Disconnected(reason) =>
          if reason == WebSocketClose(RESUMABLE_CLOSE_CODE) {
            if !waitOk {
              DestroyConnection();
            }
          } else if connection.value.rejoinAttempts < MAX_REJOIN_ATTEMPTS {
            connection := Some(connection.value.(rejoinAttempts := connection.value.rejoinAttempts + 1, status := Signalling));
          } else {
            DestroyConnection();
          }
        case Destroyed =>
          Stop();
        case Ready =>
          connection := Some(connection.value.(rejoinAttempts := 0));
        case _ =>
          if !readyLock {
            readyLock := true;
            if waitOk {
              connection := Some(connection.value.(subscribed := true));
            }
            if waitOk && audioOk {
              player := Playing(connection.value.track);
            } else {
              ghost var locked := State();
              EngineProperties.StopResets(locked.(connection := Some(locked.connection.value.(status := Destroyed))));
              EngineProperties.StopResets(locked.(readyLock := false, connection := Some(locked.connection.value.(status := Destroyed))));
              DestroyConnection();
            }
            readyLock := false;
          }
      }
    }
  }
}
