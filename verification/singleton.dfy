/**
 * The process-wide LiveBrowserMgrWin instance: GetInstance creates it on
 * first use, Shutdown destroys it. The two close-timer ids are fields of the
 * instance; nothing in the compiled code ever sets them, so they stay 0.
 */
module Singleton {
  import opened Wrappers

  /**
   * One manager object. `id` stands for the object's identity over its
   * lifetime (not its address, which a later `new` may reuse after
   * `delete`): two instances are the same object exactly when their ids agree.
   */
  datatype LiveBrowserMgrWin = LiveBrowserMgrWin(id: nat, heartbeatTimerId: nat, timeoutTimerId: nat)

  /** The static `s_instance` pointer, plus how many objects were ever created. */
  datatype Globals = Globals(instance: Option<LiveBrowserMgrWin>, created: nat)

  /** Program start: no instance yet. */
  const Startup: Globals := Globals(None, 0)

  /** Every instance ever handed out was created before now and has idle timers. */
  ghost predicate Valid(g: Globals) {
    g.instance.Some? ==>
      && g.instance.value.id < g.created
      && g.instance.value.heartbeatTimerId == 0
      && g.instance.value.timeoutTimerId == 0
  }

  datatype GetInstanceResult = GetInstanceResult(globals: Globals, mgr: LiveBrowserMgrWin)

  /**
   * GetInstance: returns the existing instance untouched, or constructs a new
   * object (both timer ids 0) and stores it.
   */
  function GetInstance(g: Globals): (r: GetInstanceResult)
    ensures r.globals.instance == Some(r.mgr)
    ensures g.instance.Some? ==> r.mgr == g.instance.value && r.globals == g
    ensures g.instance.None? ==>
      && r.mgr.heartbeatTimerId == 0 && r.mgr.timeoutTimerId == 0
      && r.mgr.id == g.created && r.globals.created == g.created + 1
  {
    match g.instance
    case Some(mgr) => GetInstanceResult(g, mgr)
    case None =>
      var mgr := LiveBrowserMgrWin(g.created, 0, 0);
      GetInstanceResult(Globals(Some(mgr), g.created + 1), mgr)
  }

  /** Shutdown: deletes the instance and clears the pointer. */
  function Shutdown(g: Globals): (r: Globals)
    ensures r.instance.None?
    ensures r.created == g.created
  {
    Globals(None, g.created)
  }

  /** GetInstance is idempotent: a second call returns the same object and changes nothing. */
  lemma GetInstanceIdempotent(g: Globals)
    ensures var first := GetInstance(g);
      GetInstance(first.globals) == first
  {
  }

  /** After Shutdown, GetInstance constructs a new object, never the one that was deleted. */
  lemma ShutdownThenGetInstanceIsFresh(g: Globals)
    requires Valid(g) && g.instance.Some?
    ensures GetInstance(Shutdown(g)).mgr.id != g.instance.value.id
    ensures GetInstance(Shutdown(g)).mgr.heartbeatTimerId == 0
    ensures GetInstance(Shutdown(g)).mgr.timeoutTimerId == 0
  {
  }

  /** The calls the rest of the module makes on the singleton. */
  datatype Call = CallGetInstance | CallShutdown

  function Step(g: Globals, c: Call): Globals {
    match c
    case CallGetInstance => GetInstance(g).globals
    case CallShutdown => Shutdown(g)
  }

  function Run(g: Globals, calls: seq<Call>): Globals
    decreases |calls|
  {
    if |calls| == 0 then g else Run(Step(g, calls[0]), calls[1..])
  }

  /**
   * In every state reachable from startup, any live instance has both timer
   * ids 0 (so the heartbeat and timeout getters report 0) and is the most
   * recently created object or an earlier one.
   */
  lemma {:induction false} RunPreservesValid(g: Globals, calls: seq<Call>)
    requires Valid(g)
    ensures Valid(Run(g, calls))
    ensures Run(g, calls).created >= g.created
    decreases |calls|
  {
    if |calls| != 0 {
      RunPreservesValid(Step(g, calls[0]), calls[1..]);
    }
  }

  /** From program start, any sequence of calls leaves the timer ids at 0. */
  lemma ReachableTimersIdle(calls: seq<Call>)
    ensures var g := Run(Startup, calls);
      g.instance.Some? ==> g.instance.value.heartbeatTimerId == 0 && g.instance.value.timeoutTimerId == 0
  {
    RunPreservesValid(Startup, calls);
  }
}
