/** What the playback engine's transitions guarantee, stated over the state machine. */
module EngineProperties {
  import opened Wrappers
  import opened Queue
  import opened Engine

  /**
   * `stop()` always ends with an empty queue, the queue lock free and the player
   * idle; a connection, if there is one, ends Destroyed and is otherwise kept.
   */
  lemma StopResets(s: EngineState)
    ensures Stop(s).queue == [] && !Stop(s).queueLock && Stop(s).player == Idle
    ensures Stop(s).readyLock == s.readyLock
    ensures s.connection.None? ==> Stop(s).connection.None?
    ensures s.connection.Some? ==> Stop(s).connection == Some(s.connection.value.(status := Destroyed))
  {
    var cleared := s.(queueLock := true, queue := [], player := Idle);
    if HasLiveConnection(cleared) {
      var dead := cleared.(connection := Some(cleared.connection.value.(status := Destroyed)));
      assert !HasLiveConnection(dead);
      assert Destroy(cleared) == dead.(queueLock := false);
    }
  }

  /** A second `stop()` changes nothing: it finds the connection Destroyed and does not destroy it again. */
  lemma StopIdempotent(s: EngineState)
    ensures Stop(Stop(s)) == Stop(s)
  {
    StopResets(s);
    StopResets(Stop(s));
  }

  /** The drain changes nothing while the queue lock is held or the player is not idle. */
  lemma DrainSkipsWhenBusy(s: EngineState, audioOutcomes: seq<bool>)
    requires s.queueLock || !s.player.Idle?
    requires audioOutcomes != []
    ensures Drain(s, audioOutcomes) == (s, Finished(Skipped))
  {
  }

  /**
   * With nothing queued and a live connection, the drain destroys the connection
   * (whose listener runs `stop()`) and returns without taking the lock or dequeuing.
   */
  lemma DrainTearsDownWhenEmpty(s: EngineState, audioOutcomes: seq<bool>)
    requires !s.queueLock && s.player.Idle? && s.queue == [] && HasLiveConnection(s)
    requires audioOutcomes != []
    ensures Drain(s, audioOutcomes) == (Destroy(s), Finished(ConnectionDestroyed))
    ensures Destroy(s) == s.(connection := Some(s.connection.value.(status := Destroyed)))
  {
    var dead := s.(connection := Some(s.connection.value.(status := Destroyed)));
    StopResets(dead);
  }

  /** With nothing queued and a Destroyed connection, the drain calls `destroy()` again, which throws. */
  lemma DrainRejectsWhenDestroyed(s: EngineState, audioOutcomes: seq<bool>)
    requires !s.queueLock && s.player.Idle? && s.queue == []
    requires s.connection.Some? && s.connection.value.status == Destroyed
    requires audioOutcomes != []
    ensures Drain(s, audioOutcomes) == (s, Finished(Rejected))
  {
  }

  /**
   * Otherwise the drain takes the lock and dequeues exactly the head, hands it
   * to `playRequest`, and releases the lock whatever the outcome; it retries
   * exactly when `playRequest` threw.
   */
  lemma DrainTakesHead(s: EngineState, audioOk: bool)
    requires !s.queueLock && s.player.Idle? && s.queue != []
    ensures
      var (played, outcome) := PlayRequest(s.(queueLock := true, queue := s.queue[1..]), Some(s.queue[0]), audioOk);
      var (t, r) := DrainStep(s, audioOk);
      t == played.(queueLock := false) && t.queue == s.queue[1..] && !t.queueLock &&
      (r == Retry <==> outcome.Err?) && (r == Played <==> outcome.Ok?)
  {
  }

  /**
   * The failing dequeue: with nothing queued and no connection, the drain takes
   * the lock, dequeues `undefined`, `playRequest` throws, the lock is released
   * and the drain runs again from exactly the same state. Each attempt the
   * model follows retries, so a finite budget always runs out. The model says
   * nothing about what happens after the attempts it follows.
   */
  lemma {:induction false} DrainSpinsWithoutConnection(s: EngineState, audioOutcomes: seq<bool>)
    requires !s.queueLock && s.player.Idle? && s.queue == [] && s.connection.None?
    ensures Drain(s, audioOutcomes) == (s, OutOfBudget)
    decreases |audioOutcomes|
  {
    if audioOutcomes != [] {
      assert DrainStep(s, audioOutcomes[0]) == (s, Retry);
      DrainSpinsWithoutConnection(s, audioOutcomes[1..]);
    }
  }

  /** Every drain, however it ends, leaves the queue lock free when it found it free. */
  lemma {:induction false} DrainReleasesLock(s: EngineState, audioOutcomes: seq<bool>)
    requires !s.queueLock
    ensures !Drain(s, audioOutcomes).0.queueLock
    decreases |audioOutcomes|
  {
    if audioOutcomes != [] {
      var (next, r) := DrainStep(s, audioOutcomes[0]);
      if |s.queue| == 0 && HasLiveConnection(s) && s.player.Idle? {
        StopResets(s.(connection := Some(s.connection.value.(status := Destroyed))));
      }
      assert !next.queueLock;
      if r == Retry {
        DrainReleasesLock(next, audioOutcomes[1..]);
      }
    }
  }

  /**
   * The first request of a fresh engine that carries a track but fails
   * validation (say, the user is in no voice channel) leaves no connection to
   * tear down: every later attempt of the drain dequeues nothing, throws and
   * retries, so every budget of attempts runs out, and the request is gone. A
   * request without a track is not queued at all.
   */
  lemma FirstInvalidRequestSpins(request: AudioRequest, audioOutcomes: seq<bool>)
    requires ValidateRequest(Some(request)).Err?
    requires |audioOutcomes| >= 1
    ensures request.track.Some? ==> Enqueue(Initial, request, audioOutcomes) == (Initial, OutOfBudget)
    ensures request.track.None? ==> Enqueue(Initial, request, audioOutcomes) == (Initial, ThrewBeforeQueuing)
  {
    if request.track.None? { return; }
    var s := Initial.(queue := [request]);
    assert Initial.queue + [request] == [request];
    assert Enqueue(Initial, request, audioOutcomes) == Drain(s, audioOutcomes);
    assert s.queue[1..] == [];
    assert DrainStep(s, audioOutcomes[0]) == (Initial, Retry);
    assert Enqueue(Initial, request, audioOutcomes) == Drain(Initial, audioOutcomes[1..]);
    DrainSpinsWithoutConnection(Initial, audioOutcomes[1..]);
  }

  /** A request that fails validation does not stall the queue: the request behind it is still played. */
  lemma InvalidRequestDoesNotStall(s: EngineState, bad: AudioRequest, good: AudioRequest, audioOutcomes: seq<bool>)
    requires !s.queueLock && s.player.Idle? && s.queue == [bad, good]
    requires ValidateRequest(Some(bad)).Err? && ValidateRequest(Some(good)).Ok?
    requires |audioOutcomes| >= 2 && audioOutcomes[1]
    ensures Drain(s, audioOutcomes).1 == Finished(Played)
    ensures Drain(s, audioOutcomes).0 ==
              PlayRequest(s.(queue := [], queueLock := true), Some(good), true).0.(queueLock := false)
  {
    var (s1, r1) := DrainStep(s, audioOutcomes[0]);
    assert s.queue[1..] == [good];
    assert r1 == Retry && s1 == s.(queue := [good]);
    assert s1.queue[1..] == [];
    assert Drain(s, audioOutcomes) == Drain(s1, audioOutcomes[1..]);
  }

  /**
   * `enqueue` while a drain is busy only appends: the new request is last,
   * earlier ones keep their order. A request without a track throws first and
   * changes nothing.
   */
  lemma EnqueueWhileBusy(s: EngineState, request: AudioRequest, audioOutcomes: seq<bool>)
    requires s.queueLock || !s.player.Idle?
    requires audioOutcomes != []
    ensures request.track.Some? ==> Enqueue(s, request, audioOutcomes) == (s.(queue := s.queue + [request]), Finished(Skipped))
    ensures request.track.None? ==> Enqueue(s, request, audioOutcomes) == (s, ThrewBeforeQueuing)
  {
  }

  /** `enqueue` of a request without a track throws before queuing, whatever the state. */
  lemma TracklessRequestNotQueued(s: EngineState, request: AudioRequest, audioOutcomes: seq<bool>)
    requires request.track.None?
    ensures Enqueue(s, request, audioOutcomes) == (s, ThrewBeforeQueuing)
  {
  }

  /** Only a change into Idle from another status drains; Idle to Idle does nothing else. */
  lemma PlayerIdleDrains(s: EngineState, audioOutcomes: seq<bool>)
    ensures s.player.Idle? ==> OnPlayerStateChange(s, Idle, audioOutcomes) == (s, None)
    ensures !s.player.Idle? ==>
              OnPlayerStateChange(s, Idle, audioOutcomes) ==
              (Drain(s.(player := Idle), audioOutcomes).0, Some(Drain(s.(player := Idle), audioOutcomes).1))
  {
  }

  /** When the last track ends with nothing queued, the connection is destroyed and the engine reset. */
  lemma TrackEndTearsDown(s: EngineState, t: Track, audioOutcomes: seq<bool>)
    requires s.player == Playing(t) && !s.queueLock && s.queue == [] && HasLiveConnection(s)
    requires audioOutcomes != []
    ensures
      var (after, r) := OnPlayerStateChange(s, Idle, audioOutcomes);
      r == Some(Finished(ConnectionDestroyed)) &&
      after == s.(player := Idle, connection := Some(s.connection.value.(status := Destroyed)))
  {
    DrainTearsDownWhenEmpty(s.(player := Idle), audioOutcomes);
  }

  /**
   * The join decision: a valid request leads to a new connection exactly when
   * there is none, it is Destroyed, or it is joined to another channel; then the
   * player is left alone. Otherwise the track's audio goes straight to the player.
   * The queue and the locks are not touched either way.
   */
  lemma JoinDecision(s: EngineState, r: AudioRequest, audioOk: bool, channelId: string, guildId: string, track: Track)
    requires ValidateRequest(Some(r)) == Ok((channelId, guildId, track))
    ensures
      var (t, outcome) := PlayRequest(s, Some(r), audioOk);
      t.queue == s.queue && t.queueLock == s.queueLock && t.readyLock == s.readyLock &&
      (NeedsNewConnection(s, channelId) ==>
         outcome.Ok? && t.player == s.player &&
         t.connection == Some(Connection(channelId, guildId, Signalling, 0, false, track))) &&
      (!NeedsNewConnection(s, channelId) ==>
         t.connection == s.connection &&
         (audioOk ==> outcome.Ok? && t.player == Playing(track)) &&
         (!audioOk ==> outcome == Err(AudioFailed) && t == s))
  {
  }

  /** `playRequest` throws before looking at the connection when the request is malformed, and changes nothing. */
  lemma ValidationFailsFirst(s: EngineState, r: Option<AudioRequest>, audioOk: bool)
    requires ValidateRequest(r).Err?
    ensures PlayRequest(s, r, audioOk) == (s, Err(ValidateRequest(r).error))
  {
  }

  /** The three ways validation fails, in the order they are checked. */
  lemma ValidationCases(r: AudioRequest)
    ensures (r.interaction.None? || r.track.None?) ==> ValidateRequest(Some(r)) == Err(MissingInteractionOrTrack)
    ensures (r.interaction.Some? && r.track.Some? && r.interaction.value.member.None?) ==>
              ValidateRequest(Some(r)) == Err(NotGuildMember)
    ensures (r.interaction.Some? && r.track.Some? && r.interaction.value.member.Some? &&
             (r.interaction.value.member.value.voiceChannel.None? || r.interaction.value.guild.None?)) ==>
              ValidateRequest(Some(r)) == Err(NotInChannel)
    ensures ValidateRequest(None) == Err(NoRequest)
  {
  }

  /**
   * Without an `await` on the new-connection path the queue lock is released
   * before the connection is Ready: a second request for the same channel,
   * enqueued meanwhile, goes straight to the player, and the first request's
   * track replaces it once the connection's listener sees it connect.
   */
  lemma SecondRequestOvertakesFirst(channelId: string, guildId: string, t1: Track, t2: Track)
    ensures
      var i := Interaction(Some(GuildMember(Some(channelId))), Some(guildId));
      var (s1, r1) := Enqueue(Initial, AudioRequest(Some(i), Some(t1)), [true]);
      var (s2, r2) := Enqueue(s1, AudioRequest(Some(i), Some(t2)), [true]);
      var s3 := OnConnectionStateChange(s2, Connecting, true, true);
      r1 == Finished(Played) && !s1.queueLock && s1.player == Idle &&
      s1.connection == Some(Connection(channelId, guildId, Signalling, 0, false, t1)) &&
      r2 == Finished(Played) && s2.player == Playing(t2) && s2.queue == [] &&
      s3.player == Playing(t1)
  {
  }

  /**
   * Rejoining is bounded: from a fresh connection, two drops that are not a 4014
   * close each rejoin (attempts 1, then 2, after 5 s and 10 s), and the third
   * drop destroys the connection and resets the engine.
   */
  lemma RejoinBudget(s: EngineState, reason: DisconnectReason, waitOk: bool, audioOk: bool)
    requires s.connection.Some? && s.connection.value.rejoinAttempts == 0
    requires reason != WebSocketClose(RESUMABLE_CLOSE_CODE)
    ensures
      var s1 := OnConnectionStateChange(s, Disconnected(reason), waitOk, audioOk);
      var s2 := OnConnectionStateChange(s1, Disconnected(reason), waitOk, audioOk);
      var s3 := OnConnectionStateChange(s2, Disconnected(reason), waitOk, audioOk);
      s1.connection.Some? && s1.connection.value.rejoinAttempts == 1 && s1.connection.value.status == Signalling &&
      s2.connection.Some? && s2.connection.value.rejoinAttempts == 2 && s2.connection.value.status == Signalling &&
      s3.connection.Some? && s3.connection.value.status == Destroyed && s3.connection.value.rejoinAttempts == 2 &&
      s3.queue == [] && !s3.queueLock && s3.player == Idle &&
      RejoinDelay(0) == 5000 && RejoinDelay(1) == 10000
  {
    var s2 := OnConnectionStateChange(OnConnectionStateChange(s, Disconnected(reason), waitOk, audioOk), Disconnected(reason), waitOk, audioOk);
    var c := s2.connection.value.(status := Disconnected(reason));
    StopResets(s2.(connection := Some(c.(status := Destroyed))));
  }

  /**
   * Only consecutive drops count: a connection that used up its rejoins and
   * then became Ready again rejoins at its next drop, as at its first.
   */
  lemma RecoveryResetsRejoins(s: EngineState, reason: DisconnectReason, waitOk: bool, audioOk: bool)
    requires s.connection.Some?
    requires reason != WebSocketClose(RESUMABLE_CLOSE_CODE)
    ensures
      var s1 := OnConnectionStateChange(s, Ready, waitOk, audioOk);
      var s2 := OnConnectionStateChange(s1, Disconnected(reason), waitOk, audioOk);
      s1 == s.(connection := Some(s.connection.value.(status := Ready, rejoinAttempts := 0))) &&
      s2 == s.(connection := Some(s.connection.value.(status := Signalling, rejoinAttempts := 1)))
  {
  }

  /**
   * A request that fails validation while the handler still holds a Destroyed
   * connection: the first attempt throws and is dropped, the retry finds the
   * queue empty and calls `destroy()` again, which throws out of the drain.
   */
  lemma StaleConnectionRejects(s: EngineState, request: AudioRequest, audioOutcomes: seq<bool>)
    requires s.connection.Some? && s.connection.value.status == Destroyed
    requires s.queue == [] && !s.queueLock && s.player.Idle?
    requires ValidateRequest(Some(request)).Err?
    requires |audioOutcomes| >= 2
    ensures request.track.Some? ==> Engine.Enqueue(s, request, audioOutcomes) == (s, Finished(Rejected))
    ensures request.track.None? ==> Engine.Enqueue(s, request, audioOutcomes) == (s, ThrewBeforeQueuing)
  {
    if request.track.None? { return; }
    var s0 := s.(queue := s.queue + [request]);
    assert s0.queue[1..] == [];
    assert DrainStep(s0, audioOutcomes[0]) == (s, Retry);
    assert DrainStep(s, audioOutcomes[1..][0]) == (s, Rejected);
    assert Drain(s, audioOutcomes[1..]) == (s, Finished(Rejected));
  }

  /** A 4014 close that is not followed by Connecting within 5 s destroys the connection; one that is changes nothing more. */
  lemma ResumableClose(s: EngineState, audioOk: bool)
    requires s.connection.Some?
    ensures
      var d := Disconnected(WebSocketClose(RESUMABLE_CLOSE_CODE));
      var c := s.connection.value;
      OnConnectionStateChange(s, d, true, audioOk) == s.(connection := Some(c.(status := d))) &&
      OnConnectionStateChange(s, d, false, audioOk) == s.(connection := Some(c.(status := Destroyed)), queue := [], player := Idle, queueLock := false)
  {
    var d := Disconnected(WebSocketClose(RESUMABLE_CLOSE_CODE));
    StopResets(s.(connection := Some(s.connection.value.(status := Destroyed))));
  }

  /** Destroyed runs `stop()`. */
  lemma DestroyedStops(s: EngineState, waitOk: bool, audioOk: bool)
    requires s.connection.Some?
    ensures OnConnectionStateChange(s, Destroyed, waitOk, audioOk) == Stop(s.(connection := Some(s.connection.value.(status := Destroyed))))
  {
  }

  /**
   * A connection that connects becomes Ready in time: the player is subscribed
   * and plays the track the connection was created for. If Ready does not come
   * within 20 s, or the audio fails, the connection is destroyed and the engine
   * reset. The ready lock is free afterwards either way.
   */
  lemma ConnectingOutcomes(s: EngineState, st: ConnectionStatus, waitOk: bool, audioOk: bool)
    requires s.connection.Some? && !s.readyLock && (st == Connecting || st == Signalling)
    ensures
      var t := OnConnectionStateChange(s, st, waitOk, audioOk);
      var c := s.connection.value;
      !t.readyLock &&
      (waitOk && audioOk ==>
         t == s.(connection := Some(c.(status := st, subscribed := true)), player := Playing(c.track))) &&
      (!(waitOk && audioOk) ==>
         t.connection.Some? && t.connection.value.status == Destroyed &&
         t.connection.value.subscribed == (waitOk || c.subscribed) &&
         t.queue == [] && !t.queueLock && t.player == Idle)
  {
    var c := s.connection.value.(status := st);
    var entered := s.(connection := Some(c));
    var subscribed := if waitOk then entered.(connection := Some(c.(subscribed := true))) else entered;
    StopResets(subscribed.(connection := Some(subscribed.connection.value.(status := Destroyed))));
  }

  /** Repeated Connecting events are ignored while the ready lock is held. */
  lemma ReadyLockGuards(s: EngineState, st: ConnectionStatus, waitOk: bool, audioOk: bool)
    requires s.connection.Some? && s.readyLock && (st == Connecting || st == Signalling)
    ensures OnConnectionStateChange(s, st, waitOk, audioOk) == s.(connection := Some(s.connection.value.(status := st)))
  {
  }

  /** The ready lock is released on every exit of every transition that found it free. */
  lemma {:induction false} ReadyLockReleased(s: EngineState, st: ConnectionStatus, waitOk: bool, audioOk: bool, audioOutcomes: seq<bool>)
    requires !s.readyLock
    ensures !OnConnectionStateChange(s, st, waitOk, audioOk).readyLock
    ensures !Drain(s, audioOutcomes).0.readyLock
    ensures !Stop(s).readyLock
    decreases |audioOutcomes|
  {
    StopResets(s);
    if s.connection.Some? {
      var c := s.connection.value.(status := st);
      var e := s.(connection := Some(c));
      StopResets(e.(connection := Some(c.(status := Destroyed))));
      StopResets(e.(connection := Some(c.(status := Destroyed, subscribed := true))));
    }
    if audioOutcomes != [] {
      var (next, r) := DrainStep(s, audioOutcomes[0]);
      if |s.queue| == 0 && HasLiveConnection(s) && s.player.Idle? && !s.queueLock {
        StopResets(s.(connection := Some(s.connection.value.(status := Destroyed))));
      }
      assert !next.readyLock;
      if r == Retry {
        ReadyLockReleased(next, st, waitOk, audioOk, audioOutcomes[1..]);
      }
    }
  }
}
