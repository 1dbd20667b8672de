/** The imperative updater inside a run: whatever it leaves on disk is reachable, hence invariant. */
module Service {
  import opened LocalPolicy
  import opened Runtime
  import opened Worlds
  import opened Commands
  import opened Runs
  import opened Machines
  import opened Updaters
  import Safety

  method Serve(u: Updater, p: Policy, c: Command, ghost w: World) returns (r: Ended, ghost v: World)
    requires ValidPolicy(p) && Reachable(p, w) && w.state.disk == u.disk && CommandOk(w.env, c)
    modifies u
    ensures v == Next(p, w, Run(c, old(u.io))) && v.state.disk == u.disk
    ensures Reachable(p, v) && Inv(p, v.env, v.state)
  {
    ghost var luck := u.io;
    hide ValidPolicy, Reachable, Performed, Inv;
    r := u.Perform(p, c);
    v := Next(p, w, Run(c, luck));
    assert v.state.disk == u.disk by {
      Safety.DoAllDisk(Started(p, w, c), Performed(p, w.state.disk, c, luck));
      assert Started(p, w, c).disk == w.state.disk by {
        hide Watch, Noting, Quiet;
      }
    }
    hide Next, CommandOk;
    ReachableStep(p, w, Run(c, luck));
    ReachableInv(p, v);
  }
}
