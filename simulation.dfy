/** simulation.ts: the agent list, bounds-checked agent moves and the start/stop/tick loop. */
module Simulation {
  import opened Grid
  import opened Entities

  /** The module's `agents` list as it is built at load time: one rooster at (5,10). */
  method InitialAgents() returns (agents: seq<Agent>)
    ensures |agents| == 1 && fresh(agents[0])
    ensures agents[0].id == "agent-1"
    ensures agents[0].location == Point(5, 10)
    ensures agents[0].appearance == Appearance("rooster")
  {
    agents := [];
    var a := new Agent("agent-1", Point(5, 10), Appearance("rooster"));
    agents := agents + [a];
  }

  /** Where `moveAgentTo(agent, p)` leaves an agent found at `from`. */
  function MovedTo(from: Location, p: Point): Location
  {
    if GameMap.InBounds(p) then p else from
  }

  /** A move request never takes an agent out of the map. */
  lemma MovedToStaysInBounds(from: Location, p: Point)
    requires GameMap.InBounds(from)
    ensures GameMap.InBounds(MovedTo(from, p))
  {
  }

  /** `moveAgentTo(agent, p)`: go to p when it is inside the map, else stay. */
  method MoveAgentTo(agent: Agent, p: Point)
    modifies agent
    ensures agent.location == MovedTo(old(agent.location), p)
    ensures GameMap.InBounds(p) ==> agent.location == p
    ensures !GameMap.InBounds(p) ==> agent.location == old(agent.location)
    ensures agent.appearance == old(agent.appearance)
  {
    if GameMap.InBounds(p) {
      agent.location := Point(p.x, p.y);
    }
  }

  /** The location one `tick` gives agent 0: one step east, if that stays inside. */
  function TickStep(l: Location): Location
  {
    MovedTo(l, Point(l.x + 1, l.y))
  }

  /** A tick moves east by one exactly when that is inside the map, and never changes y. */
  lemma TickStepMoves(l: Location)
    ensures TickStep(l).y == l.y
    ensures TickStep(l).x == (if GameMap.InBounds(Point(l.x + 1, l.y)) then l.x + 1 else l.x)
  {
  }

  /** The location of agent 0 after n ticks from l. */
  function AfterTicks(l: Location, n: nat): Location
    decreases n
  {
    if n == 0 then l else TickStep(AfterTicks(l, n - 1))
  }

  /** From the initial (5,10), agent 0 walks east and stops at the map's
      right edge: after n ticks it stands at (min(5 + n, 10), 10). */
  lemma {:induction false} TicksFromStart(n: nat)
    ensures AfterTicks(Point(5, 10), n) == Point(if 5 + n < 10 then 5 + n else 10, 10)
    decreases n
  {
    if n > 0 {
      TicksFromStart(n - 1);
    }
  }

  /** Any number of ticks keeps an agent that starts inside the map inside it. */
  lemma {:induction false} TicksStayInBounds(l: Location, n: nat)
    requires GameMap.InBounds(l)
    ensures GameMap.InBounds(AfterTicks(l, n))
    decreases n
  {
    if n > 0 {
      TicksStayInBounds(l, n - 1);
      MovedToStaysInBounds(AfterTicks(l, n - 1), Point(AfterTicks(l, n - 1).x + 1, AfterTicks(l, n - 1).y));
    }
  }

  /** The `loop` object: the interval handle (0 while stopped) and two pause flags. */
  class Loop {
    var intervalID: int
    var userPaused: bool
    var systemPaused: bool

    constructor ()
      ensures intervalID == 0 && !userPaused && !systemPaused
    {
      intervalID := 0;
      userPaused := false;
      systemPaused := false;
    }

    /** `start()`: a running loop is left alone; a stopped one takes the
        handle the host's `setInterval` returned, which is never 0. */
    method Start(handle: int)
      requires handle != 0
      modifies this
      ensures old(intervalID) != 0 ==> intervalID == old(intervalID)
      ensures old(intervalID) == 0 ==> intervalID == handle
      ensures intervalID != 0
      ensures userPaused == old(userPaused) && systemPaused == old(systemPaused)
    {
      if intervalID != 0 {
        return;
      }
      intervalID := handle;
    }

    /** `stop()`: a stopped loop is left alone; a running one forgets its handle. */
    method Stop()
      modifies this
      ensures intervalID == 0
      ensures userPaused == old(userPaused) && systemPaused == old(systemPaused)
    {
      if intervalID == 0 {
        return;
      }
      intervalID := 0;
    }

    /** `tick()`: agent 0 takes one step east if that stays inside the map.
        Nothing else changes: not the loop, not the other agents. */
    method Tick(agents: seq<Agent>)
      requires |agents| > 0
      modifies agents[0]
      ensures agents[0].location == TickStep(old(agents[0].location))
      ensures agents[0].appearance == old(agents[0].appearance)
      ensures forall i :: 0 < i < |agents| && agents[i] != agents[0] ==>
        agents[i].location == old(agents[i].location)
      ensures unchanged(this)
    {
      var agent := agents[0];
      MoveAgentTo(agent, Point(agent.location.x + 1, agent.location.y));
    }
  }
}
