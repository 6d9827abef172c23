/**
 * The per-guild request queue: a first-in first-out list of play requests that
 * is appended to, popped at the front and cleared in place.
 */
module Queue {
  import opened Wrappers

  /** A member of a guild as seen by the bot: the voice channel they are in, if any. */
  datatype GuildMember = GuildMember(voiceChannel: Option<string>)

  /**
   * The command or message a request came from: its author as a guild member
   * (`None` when `interaction.member` is not a `GuildMember`) and its guild.
   */
  datatype Interaction = Interaction(member: Option<GuildMember>, guild: Option<string>)

  /**
   * A playable track: its title and the locator (file path or remote address)
   * from which its audio-producing action obtains the stream.
   */
  datatype Track = Track(title: string, source: string)

  /** `AudioRequest`: the interaction to answer and the track to play; either may be missing. */
  datatype AudioRequest = AudioRequest(interaction: Option<Interaction>, track: Option<Track>)

  /** `AudioQueue`: the `queue` array, mutated by `push` and `shift` and replaced by `clear`. */
  class AudioQueue {
    var queue: seq<AudioRequest>

    /** A fresh queue is empty. */
    constructor ()
      ensures queue == []
    {
      queue := [];
    }

    /** Drops every pending request. */
    method Clear()
      modifies this
      ensures queue == []
    {
      queue := [];
    }

    method IsEmpty() returns (empty: bool)
      ensures empty <==> |queue| == 0
    {
      empty := |queue| == 0;
    }

    method Length() returns (n: nat)
      ensures n == |queue|
    {
      n := |queue|;
    }

    /** Appends at the tail: the earlier requests keep their places. */
    method Enqueue(request: AudioRequest)
      modifies this
      ensures queue == old(queue) + [request]
    {
      queue := queue + [request];
    }

    /** `shift`: removes and returns the head, or returns `undefined` on an empty queue. */
    method NextRequest() returns (next: Option<AudioRequest>)
      modifies this
      ensures old(queue) == [] ==> next == None && queue == []
      ensures old(queue) != [] ==> next == Some(old(queue)[0]) && queue == old(queue)[1..]
    {
      if queue == [] {
        next := None;
      } else {
        next := Some(queue[0]);
        queue := queue[1..];
      }
    }
  }

  /** One use of a queue by its owner: append a request, or take the next one. */
  datatype QueueOp = Push(request: AudioRequest) | Pop

  /** The requests pushed by a run of operations, in order. */
  function Pushed(ops: seq<QueueOp>): seq<AudioRequest> {
    if ops == [] then []
    else Pushed(ops[..|ops| - 1]) + (if ops[|ops| - 1].Push? then [ops[|ops| - 1].request] else [])
  }

  /**
   * FIFO law: run any mix of appends and pops on a fresh queue. The requests that
   * come out are served in the order they went in, and the ones still pending
   * follow them: `served + pending` is exactly the sequence of appended requests.
   */
  method ServeInOrder(ops: seq<QueueOp>) returns (served: seq<AudioRequest>, pending: seq<AudioRequest>)
    ensures served + pending == Pushed(ops)
    ensures served == Pushed(ops)[..|served|]
  {
    var q := new AudioQueue();
    served := [];
    var i := 0;
    while i < |ops|
      invariant 0 <= i <= |ops|
      invariant served + q.queue == Pushed(ops[..i])
    {
      assert ops[..i + 1][..i] == ops[..i];
      match ops[i] {
        case Push(r) =>
          ghost var before := q.queue;
          q.Enqueue(r);
          assert served + q.queue == (served + before) + [r];
        case Pop =>
          ghost var before := q.queue;
          var next := q.NextRequest();
          if next.Some? {
            assert before == [next.value] + q.queue;
            served := served + [next.value];
          }
      }
      i := i + 1;
    }
    assert ops[..|ops|] == ops;
    pending := q.queue;
  }
}
