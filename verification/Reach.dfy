/** States reached by a run from an empty database; every claim of Safety holds in them. */
module Reach {
  import opened Schema
  import opened World
  import opened Machine
  import Safety

  ghost predicate Reached(w: World) {
    exists cfg: Config, acts: seq<Act> :: w == Safety.After(cfg, acts)
  }

  lemma ReachedInitially(cfg: Config)
    ensures Reached(Initial(cfg))
  {
    hide Next;
    assert Safety.After(cfg, []) == Initial(cfg);
  }

  lemma ReachedRun(w: World, acts: seq<Act>)
    requires Reached(w)
    ensures Reached(Run(w, acts))
  {
    hide Next, Run;
    var cfg, before :| w == Safety.After(cfg, before);
    RunAppend(Initial(cfg), before, acts);
    assert Run(w, acts) == Safety.After(cfg, before + acts);
  }

  lemma ReachedNext(w: World, a: Act)
    requires Reached(w)
    ensures Reached(Next(w, a))
  {
    hide *;
    ReachedRun(w, [a]);
    RunIsNext(w, a);
  }

  lemma SoundWhenReached(w: World)
    requires Reached(w)
    ensures Safety.Sound(w)
  {
    hide Next, Run;
    var cfg, acts :| w == Safety.After(cfg, acts);
    Safety.ReachedIsSound(cfg, acts);
  }
}
