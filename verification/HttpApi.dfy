/**
 The embedder's handle on an HTTP client, and the link from the client's methods to the runs that the
 statements about whole runs speak of.
 */
module HttpApi {
  import opened Surroundings
  import opened HttpModel
  import opened HttpRuns
  import opened HttpTransport

  class Api {
    const client: HttpClient
    ghost var polls: nat

    /** The client is where its world takes it in as many triggers as the handle was polled. */
    ghost predicate Valid()
      reads this, client, client.env
    {
      client.View() == Run(client.env.world, polls)
    }

    constructor (world: World)
      ensures Valid() && fresh(client) && fresh(client.env)
      ensures client.env.world == world && polls == 0
    {
      var env := new Environment(world);
      client := new HttpClient(env);
      polls := 0;
    }

    method Poll()
      requires Valid()
      modifies this, client, client.env
      ensures Valid() && polls == old(polls) + 1
    {
      hide HttpModel.Trigger;
      RunTriggers(client.env.world, polls);
      client.Trigger();
      polls := polls + 1;
    }
  }
}
