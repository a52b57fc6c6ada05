/** The running system as an object: the tables the transactions write, and where every process stands. */
module System {
  import opened Schema
  import opened World
  import opened Machine
  import opened Reach

  class System {
    var bindings: seq<Binding>
    var binds: seq<PendingBind>
    var inbox: seq<Inbox>
    var pendings: seq<Pending>
    var deliveries: seq<Delivery>
    var jobs: seq<Job>
    var callbacks: set<nat>
    var nextId: nat
    var cfg: Config
    var daemon: Daemon
    var stops: map<nat, StopPc>
    var cores: map<nat, Core>
    var hist: History

    function T(): Tables
      reads this
    {
      Tables(bindings, binds, inbox, pendings, deliveries, jobs, callbacks, nextId)
    }

    function W(): World
      reads this
    {
      World(T(), cfg, daemon, stops, cores, hist)
    }

    /** The system got here by a run from an empty database. */
    ghost predicate Valid()
      reads this
    {
      Reached(W())
    }

    constructor (config: Config)
      ensures W() == Initial(config) && Valid()
    {
      hide Next, Run;
      bindings, binds, inbox, pendings, deliveries, jobs, callbacks, nextId := [], [], [], [], [], [], {}, 0;
      cfg, daemon, stops, cores := config, Down, map[], map[];
      hist := History(map[], map[], {}, {}, {}, {}, {}, {});
      new;
      ReachedInitially(config);
    }

    /** A transaction's ROLLBACK. */
    method Restore(t: Tables)
      modifies this
      ensures W() == old(W()).(t := t)
    {
      bindings, binds, inbox, pendings := t.bindings, t.binds, t.inbox, t.pendings;
      deliveries, jobs, callbacks, nextId := t.deliveries, t.jobs, t.callbacks, t.nextId;
    }

    /** Other processes take these steps meanwhile. */
    method Others(acts: seq<Act>)
      modifies this
      ensures (hide Next, Run; W() == Run(old(W()), acts))
      ensures old(Valid()) ==> Valid()
    {
      hide Next, Run;
      if Reached(W()) { ReachedRun(W(), acts); }
      var w := Run(W(), acts);
      Restore(w.t);
      cfg, daemon, stops, cores, hist := w.cfg, w.daemon, w.stops, w.cores, w.hist;
    }
  }
}
