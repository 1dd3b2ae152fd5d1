/** Extending a run by the steps of one handler, to show what can follow a given world. */
module Extending {
  import opened Wrappers
  import opened Protocol

  /** `acts` leads from `w0` to `base`, but with one more handler in flight and `events` already on the trail. */
  ghost predicate Reaches(w0: World, acts: seq<Action>, base: World, t: nat, f: Flight, events: seq<Event>) {
    IsRun(w0, acts) && After(w0, acts) == World(base.history, base.flights[t := f], base.trail + events)
  }

  /** One more step of that handler, which stores and sends nothing. */
  lemma Turn(w0: World, acts: seq<Action>, base: World, t: nat, f: Flight, sent: seq<Event>, env: Env, stage: Stage)
    returns (acts': seq<Action>)
    requires Reaches(w0, acts, base, t, f, sent) && f.sid in base.history && base.history[f.sid] != []
    requires EffectOf(f, env) == Skip(Continue(stage))
    ensures Reaches(w0, acts', base, t, f.(stage := stage), sent)
  {
    RunSnoc(w0, acts, Advance(t, env));
    acts' := acts + [Advance(t, env)];
    assert base.trail + sent + [] == base.trail + sent;
    assert base.flights[t := f][t := f.(stage := stage)] == base.flights[t := f.(stage := stage)];
  }

  const GOOD := Env(true, None, true, 500, "", 0)
  const BAD := Env(false, None, true, 500, "", 0)
}
