/** A syncSystemEnv call that runs alone, failing anywhere or not at all, is one of the
    interleavings of its steps, and ends as the call does. */
module SystemEnvAlone {
  import opened Text
  import opened SystemEnv
  import opened SystemEnvInterleaved

  /** The only task, in this phase of entry k. */
  function One(g: Progress, m: set<Ref>, f: Frame, k: nat, phase: Phase): Home
  {
    Home(g.tree, m, map[0 := Task(f, g.manifest, k, phase)])
  }

  function Over(tree: Tree, m: set<Ref>): Home
  {
    Home(tree, m, map[])
  }

  /** Where a call stands once entry k is behind it. */
  function Settled(g: Progress, m: set<Ref>, f: Frame, k: nat): Home
  {
    if g.ok then One(g, m, f, k, Ready) else Over(g.tree, m)
  }

  // ---------------------------------------------------------------- one step each

  lemma DoNext(s: State, g: Progress, m: set<Ref>, f: Frame, k: nat, frames: iset<Frame>)
    requires Reachable(s, One(g, m, f, k, Ready), frames) && k < Total(f)
    ensures var t := Chosen(Task(f, g.manifest, k, Ready));
      Reachable(s, if t.Some? then Home(g.tree, m, map[0 := t.value]) else Over(g.tree, m), frames)
  {
    var h := One(g, m, f, k, Ready);
    var h' := ReachNext(s, h, Next(0), frames);
    assert map[0 := h.tasks[0]] - {0} == map[];
  }

  lemma DoWrite(s: State, g: Progress, m: set<Ref>, f: Frame, k: nat, phase: Phase, p: Place, c: Option<Content>,
                frames: iset<Frame>)
    requires Reachable(s, One(g, m, f, k, phase), frames)
    requires var t := Task(f, g.manifest, k, phase); Writing(t) && Aim(t) == Some(p)
    ensures Reachable(s, One(g.(tree := SetPlace(g.tree, p, c)), m, f, k, phase), frames)
  {
    var h' := ReachNext(s, One(g, m, f, k, phase), Write(0, c), frames);
  }

  lemma DoFinish(s: State, g: Progress, m: set<Ref>, f: Frame, k: nat, phase: Phase, frames: iset<Frame>)
    requires Reachable(s, One(g, m, f, k, phase), frames) && Writing(Task(f, g.manifest, k, phase))
    ensures var t := Task(f, g.manifest, k, phase);
      Reachable(s, Home(if phase.Removing? then g.tree - {Aim(t).value} else g.tree, m, map[0 := Done(t)]), frames)
  {
    var h' := ReachNext(s, One(g, m, f, k, phase), Finish(0), frames);
  }

  lemma DoFail(s: State, g: Progress, m: set<Ref>, f: Frame, k: nat, phase: Phase, frames: iset<Frame>)
    requires Reachable(s, One(g, m, f, k, phase), frames) && Writing(Task(f, g.manifest, k, phase))
    ensures Reachable(s, Over(g.tree, m), frames)
  {
    var h := One(g, m, f, k, phase);
    var h' := ReachNext(s, h, Fail(0), frames);
    assert map[0 := h.tasks[0]] - {0} == map[];
  }

  // ---------------------------------------------------------------- an install

  lemma {:induction false} Stats(s: State, g: Progress, m: set<Ref>, f: Frame, k: nat, n: nat, frames: iset<Frame>)
    requires k < |f.installs| && n < |Places(f.installs[k])| && Reachable(s, One(g, m, f, k, Looking(n)), frames)
    requires forall j :: 0 <= j < n ==> Places(f.installs[k])[j] !in g.tree
    ensures if Exists(g.tree, f.installs[k]) && !f.overwrite then Reachable(s, One(g, m, f, k + 1, Ready), frames)
            else Reachable(s, One(g, m, f, k, Fetching), frames)
    decreases |Places(f.installs[k])| - n
  {
    var places := Places(f.installs[k]);
    var h' := ReachNext(s, One(g, m, f, k, Looking(n)), Look(0), frames);
    if places[n] in g.tree {
      assert Exists(g.tree, f.installs[k]);
    } else if n + 1 < |places| {
      Stats(s, g, m, f, k, n + 1, frames);
    } else {
      assert !Exists(g.tree, f.installs[k]);
    }
  }

  /** Entry k is recorded, and the next one is up. */
  lemma Recorded(g: Progress, m: set<Ref>, f: Frame, k: nat, phase: Phase)
    requires k < |f.installs| && (phase.Mirroring? || (phase.Fetching? && f.installs[k].kind.Plugin?))
    requires Writing(Task(f, g.manifest, k, phase))
    ensures Done(Task(f, g.manifest, k, phase)) == Task(f, g.manifest + {f.installs[k]}, k + 1, Ready)
  {
  }

  lemma MirrorRun(s: State, g: Progress, m: set<Ref>, f: Frame, k: nat, content: Option<Content>, mirror: Mirror,
                  frames: iset<Frame>)
    requires k < |f.installs| && f.installs[k].kind.Skill? && Reachable(s, One(g, m, f, k, Mirroring), frames)
    ensures var p := Places(f.installs[k])[1];
      match mirror
      case Mirrored =>
        var t := Task(f, g.manifest + {f.installs[k]}, k + 1, Ready);
        Reachable(s, Home(SetPlace(g.tree, p, content), m, map[0 := t]), frames)
      case MirrorFailed(left) => Reachable(s, Over(SetPlace(g.tree, p, left), m), frames)
  {
    var p := Places(f.installs[k])[1];
    var c := if mirror.Mirrored? then content else mirror.left;
    DoWrite(s, g, m, f, k, Mirroring, p, c, frames);
    var g1 := g.(tree := SetPlace(g.tree, p, c));
    if mirror.Mirrored? {
      DoFinish(s, g1, m, f, k, Mirroring, frames);
      Recorded(g1, m, f, k, Mirroring);
    } else {
      DoFail(s, g1, m, f, k, Mirroring, frames);
    }
  }

  lemma FetchRun(s: State, g: Progress, m: set<Ref>, f: Frame, k: nat, content: Option<Content>, frames: iset<Frame>)
    requires k < |f.installs| && Reachable(s, One(g, m, f, k, Fetching), frames)
    ensures var g1 := g.(tree := SetPlace(g.tree, Places(f.installs[k])[0], content));
      && Reachable(s, One(g1, m, f, k, Fetching), frames) && Reachable(s, Over(g1.tree, m), frames)
      && Reachable(s, if f.installs[k].kind.Skill? then One(g1, m, f, k, Mirroring)
                      else One(g1.(manifest := g.manifest + {f.installs[k]}), m, f, k + 1, Ready), frames)
  {
    var g1 := g.(tree := SetPlace(g.tree, Places(f.installs[k])[0], content));
    DoWrite(s, g, m, f, k, Fetching, Places(f.installs[k])[0], content, frames);
    DoFail(s, g1, m, f, k, Fetching, frames);
    DoFinish(s, g1, m, f, k, Fetching, frames);
    if f.installs[k].kind.Plugin? {
      Recorded(g1, m, f, k, Fetching);
    }
  }

  /** From the fetch on, by outcome. */
  lemma FetchSettles(s: State, g: Progress, m: set<Ref>, f: Frame, k: nat, out: Fetch, frames: iset<Frame>)
    requires g.ok && k < |f.installs| && f.installs[k].name != [] && Reachable(s, One(g, m, f, k, Fetching), frames)
    requires !(Exists(g.tree, f.installs[k]) && !f.overwrite)
    ensures Reachable(s, Settled(InstallOne(g, f.installs[k], f.overwrite, out), m, f, k + 1), frames)
  {
    match out
    case NoDirectory => DoFail(s, g, m, f, k, Fetching, frames);
    case FetchFailed(left) => FetchRun(s, g, m, f, k, left, frames);
    case Fetched(content, mirror) =>
      FetchRun(s, g, m, f, k, content, frames);
      if f.installs[k].kind.Skill? {
        var g1 := g.(tree := SetPlace(g.tree, Places(f.installs[k])[0], content));
        MirrorRun(s, g1, m, f, k, content, mirror, frames);
      }
  }

  lemma InstallSettles(s: State, g: Progress, m: set<Ref>, f: Frame, k: nat, out: Fetch, frames: iset<Frame>)
    requires g.ok && k < |f.installs| && Reachable(s, One(g, m, f, k, Ready), frames)
    ensures Reachable(s, Settled(InstallOne(g, f.installs[k], f.overwrite, out), m, f, k + 1), frames)
  {
    DoNext(s, g, m, f, k, frames);
    if f.installs[k].name != [] {
      Stats(s, g, m, f, k, 0, frames);
      if !(Exists(g.tree, f.installs[k]) && !f.overwrite) {
        FetchSettles(s, g, m, f, k, out, frames);
      }
    }
  }

  lemma InstallSettlesNext(s: State, h: Progress, m: set<Ref>, f: Frame, k: nat, out: Fetch, frames: iset<Frame>)
    requires k < |f.installs| && Reachable(s, Settled(h, m, f, k), frames)
    ensures var h' := if h.ok then InstallOne(h, f.installs[k], f.overwrite, out) else h;
      Reachable(s, Settled(h', m, f, k + 1), frames)
  {
    if h.ok {
      InstallSettles(s, h, m, f, k, out, frames);
    }
  }

  lemma {:induction false} InstallsSettle(s: State, g: Progress, m: set<Ref>, f: Frame, o: Outcomes, n: nat,
                                          frames: iset<Frame>)
    requires g.ok && Fits(f, o) && n <= |f.installs| && Reachable(s, One(g, m, f, 0, Ready), frames)
    ensures Reachable(s, Settled(InstallFirst(g, f, o, n), m, f, n), frames)
  {
    if n > 0 {
      InstallsSettle(s, g, m, f, o, n - 1, frames);
      InstallSettlesNext(s, InstallFirst(g, f, o, n - 1), m, f, n - 1, o.fetches[n - 1], frames);
    }
  }

  // ---------------------------------------------------------------- a removal

  /** Entry number of the j-th removal. */
  function Removal(f: Frame, j: nat): nat
  {
    |f.installs| + j
  }

  /** The first n directories go, one after another. */
  lemma {:induction false} Clears(s: State, g: Progress, m: set<Ref>, f: Frame, j: nat, n: nat, frames: iset<Frame>)
    requires j < |f.removes| && f.removes[j].Some? && n < |Places(f.removes[j].value)|
    requires Reachable(s, One(g, m, f, Removal(f, j), Removing(0)), frames)
    ensures var places := Places(f.removes[j].value);
      Reachable(s, One(g.(tree := Without(g.tree, places, n)), m, f, Removal(f, j), Removing(n)), frames)
  {
    if n > 0 {
      Clears(s, g, m, f, j, n - 1, frames);
      var places := Places(f.removes[j].value);
      DoFinish(s, g.(tree := Without(g.tree, places, n - 1)), m, f, Removal(f, j), Removing(n - 1), frames);
    }
  }

  lemma RemovalSettles(s: State, g: Progress, m: set<Ref>, f: Frame, j: nat, out: SystemEnv.Removal,
                       frames: iset<Frame>)
    requires g.ok && j < |f.removes| && f.removes[j].Some? && f.removes[j].value in g.manifest
    requires Reachable(s, One(g, m, f, Removal(f, j), Removing(0)), frames)
    ensures Reachable(s, Settled(RemoveOne(g, f.removes[j], out), m, f, Removal(f, j) + 1), frames)
  {
    var places := Places(f.removes[j].value);
    if out.RemoveFailed? && out.at < |places| {
      var g1 := g.(tree := Without(g.tree, places, out.at));
      Clears(s, g, m, f, j, out.at, frames);
      DoWrite(s, g1, m, f, Removal(f, j), Removing(out.at), places[out.at], out.left, frames);
      var g2 := g1.(tree := SetPlace(g1.tree, places[out.at], out.left));
      DoFail(s, g2, m, f, Removal(f, j), Removing(out.at), frames);
    } else {
      var n := |places| - 1;
      Clears(s, g, m, f, j, n, frames);
      DoFinish(s, g.(tree := Without(g.tree, places, n)), m, f, Removal(f, j), Removing(n), frames);
    }
  }

  lemma RemoveSettles(s: State, g: Progress, m: set<Ref>, f: Frame, j: nat, out: SystemEnv.Removal, frames: iset<Frame>)
    requires g.ok && j < |f.removes| && Reachable(s, One(g, m, f, Removal(f, j), Ready), frames)
    ensures Reachable(s, Settled(RemoveOne(g, f.removes[j], out), m, f, Removal(f, j) + 1), frames)
  {
    DoNext(s, g, m, f, Removal(f, j), frames);
    if f.removes[j].Some? && f.removes[j].value in g.manifest {
      RemovalSettles(s, g, m, f, j, out, frames);
    }
  }

  lemma RemoveSettlesNext(s: State, h: Progress, m: set<Ref>, f: Frame, j: nat, out: SystemEnv.Removal,
                          frames: iset<Frame>)
    requires j < |f.removes| && Reachable(s, Settled(h, m, f, Removal(f, j)), frames)
    ensures var h' := if h.ok then RemoveOne(h, f.removes[j], out) else h;
      Reachable(s, Settled(h', m, f, Removal(f, j + 1)), frames)
  {
    if h.ok {
      RemoveSettles(s, h, m, f, j, out, frames);
      assert Removal(f, j) + 1 == Removal(f, j + 1);
    }
  }

  lemma {:induction false} RemovesSettle(s: State, g: Progress, m: set<Ref>, f: Frame, o: Outcomes, n: nat,
                                         frames: iset<Frame>)
    requires Fits(f, o) && n <= |f.removes| && Reachable(s, Settled(g, m, f, Removal(f, 0)), frames)
    ensures Reachable(s, Settled(RemoveFirst(g, f, o, n), m, f, Removal(f, n)), frames)
  {
    if n > 0 {
      RemovesSettle(s, g, m, f, o, n - 1, frames);
      RemoveSettlesNext(s, RemoveFirst(g, f, o, n - 1), m, f, n - 1, o.removals[n - 1], frames);
    }
  }

  // ---------------------------------------------------------------- the whole call

  lemma Starts(s: State, f: Frame, o: Outcomes, frames: iset<Frame>)
    requires f in frames
    ensures Reachable(s, One(SystemEnv.Begin(s, o), s.manifest, f, 0, Ready), frames)
  {
    assert ValidRun(AtRest(s), [], frames) && Exec(AtRest(s), [], frames) == AtRest(s);
    var h := ReachNext(s, AtRest(s), SystemEnvInterleaved.Begin(0, f, o.readable), frames);
  }

  lemma Saves(s: State, g: Progress, m: set<Ref>, f: Frame, save: SystemEnv.Save, frames: iset<Frame>)
    requires Reachable(s, One(g, m, f, Total(f), Ready), frames)
    ensures Reachable(s, Over(g.tree, if save.Saved? then g.manifest else if save.Garbled? then {} else m), frames)
  {
    var h := One(g, m, f, Total(f), Ready);
    var h' := ReachNext(s, h, SystemEnvInterleaved.Save(0, save), frames);
    assert map[0 := h.tasks[0]] - {0} == map[];
  }

  /** Whatever the outcomes, the interleaved system can end as the call does, with nothing
      left running. */
  lemma CallIsInterleaving(s: State, f: Frame, o: Outcomes, frames: iset<Frame>)
    requires Fits(f, o) && f in frames
    ensures Reachable(s, AtRest(Call(s, f, o)), frames)
  {
    var b := SystemEnv.Begin(s, o);
    Starts(s, f, o, frames);
    InstallsSettle(s, b, s.manifest, f, o, |f.installs|, frames);
    RemovesSettle(s, InstallFirst(b, f, o, |f.installs|), s.manifest, f, o, |f.removes|, frames);
    if Work(s, f, o).ok {
      Saves(s, Work(s, f, o), s.manifest, f, o.save, frames);
    }
  }
}
