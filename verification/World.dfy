/**
 Everything outside a client: the clock, the server and the embedder's callbacks.

 A world fixes how each of them behaves for a whole run: the i-th clock reading, the fate of the i-th
 request, and the answer to each callback as a function of all the calls made so far. Since nothing is
 assumed of these functions, a statement about all worlds is a statement about all runs.
 */
module Surroundings {
  import opened Wrappers
  import opened Messages

  /** How a HEAD request comes out: an answer with some status, or no answer. */
  datatype HeadResult = Status(code: nat) | Unreachable(error: string)

  /** How a POST request comes out: a decoded reply, or a failure anywhere on the way. */
  datatype PostResult = Delivered(reply: ServerToAgent) | Failed(error: string)

  /** What a websocket receive yields: a message, or anything that is not one. */
  datatype Frame = Inbound(msg: ServerToAgent) | Unusable

  /** A call made to the embedder's callbacks. */
  datatype Call =
    | GetConfiguration
    | GetFeatures
    | OnLoop
    | OnError(msg: ServerToAgent)
    | OnHealthCheck(msg: ServerToAgent)
    | OnCommand(msg: ServerToAgent)
    | OnAgentRemoteConfig(msg: ServerToAgent)
    | OnConnectionSettingsOffers(msg: ServerToAgent)
    | OnPackagesAvailable(msg: ServerToAgent)

  /** What a callback returns: perhaps a value, or an error, which the clients only log. */
  datatype Answer<+T> = Answered(value: Option<T>) | Refused(error: string)

  datatype World = World(
    instanceId: string,
    description: Blob,
    retryLimit: nat,
    clock: nat -> nat,
    head: nat -> HeadResult,
    post: nat -> PostResult,
    frame: nat -> Frame,
    configuration: seq<Call> -> Answer<Blob>,
    features: seq<Call> -> (nat, nat),
    reply: seq<Call> -> Answer<AgentToServer>)

  /** A world in use: how many clock readings, requests and frames it has given, and the calls made to the callbacks. */
  class Environment {
    const world: World
    var ticks: nat
    var heads: nat
    var posts: nat
    var frames: nat
    var calls: seq<Call>

    constructor (world: World)
      ensures this.world == world
      ensures ticks == heads == posts == frames == 0 && calls == []
    {
      this.world := world;
      ticks, heads, posts, frames := 0, 0, 0, 0;
      calls := [];
    }

    method Now() returns (t: nat)
      modifies this`ticks
      ensures t == world.clock(old(ticks)) && ticks == old(ticks) + 1
    {
      t := world.clock(ticks);
      ticks := ticks + 1;
    }

    method Head() returns (r: HeadResult)
      modifies this`heads
      ensures r == world.head(old(heads)) && heads == old(heads) + 1
    {
      r := world.head(heads);
      heads := heads + 1;
    }

    method Post() returns (r: PostResult)
      modifies this`posts
      ensures r == world.post(old(posts)) && posts == old(posts) + 1
    {
      r := world.post(posts);
      posts := posts + 1;
    }

    method Receive() returns (r: Frame)
      modifies this`frames
      ensures r == world.frame(old(frames)) && frames == old(frames) + 1
    {
      r := world.frame(frames);
      frames := frames + 1;
    }

    method Tell(call: Call)
      modifies this`calls
      ensures calls == old(calls) + [call]
    {
      calls := calls + [call];
    }
  }
}
