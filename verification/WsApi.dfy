/**
 The embedder's handle on a websocket client, tied to the client's runs as the HTTP handle is.
 */
module WsApi {
  import opened Surroundings
  import opened WsModel
  import opened WsRuns
  import opened WsTransport

  class Api {
    const client: WsClient
    ghost var polls: nat

    /** The client is where its world takes it in as many triggers as the handle was polled. */
    ghost predicate Valid()
      reads this, client, client.env
    {
      client.View() == Run(client.env.world, polls)
    }

    constructor (world: World)
      ensures Valid() && fresh(client) && fresh(client.env)
      ensures client.env.world == world && polls == 0
    {
      var env := new Environment(world);
      client := new WsClient(env);
      polls := 0;
    }

    method Poll()
      requires Valid()
      modifies this, client, client.env
      ensures Valid() && polls == old(polls) + 1
    {
      hide WsModel.Trigger;
      RunTriggers(client.env.world, polls);
      client.Trigger();
      polls := polls + 1;
    }
  }
}
