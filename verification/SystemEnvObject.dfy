/** The code of syncSystemEnv (execution/systemenv.go) over the home directory it changes. */
module SystemEnvObject {
  import opened Text
  import opened SystemEnv
  import opened SystemEnvOutcome

  /** syncSystemEnv over the home directory it changes. */
  class Home {
    var tree: Tree
    var manifest: set<Ref>

    constructor (tree: Tree, manifest: set<Ref>)
      ensures this.tree == tree && this.manifest == manifest
    {
      this.tree, this.manifest := tree, manifest;
    }

    function Snapshot(): State
      reads this
    {
      State(tree, manifest)
    }

    method Stat(ref: Ref) returns (existing: bool)
      ensures existing <==> Exists(tree, ref)
    {
      var places := Places(ref);
      existing := false;
      for i := 0 to |places|
        invariant !existing
        invariant forall j :: 0 <= j < i ==> places[j] !in tree
      {
        if places[i] in tree {
          existing := true;
          break;
        }
      }
    }

    method Install(ref: Ref, overwrite: bool, out: Fetch, ledger: set<Ref>, report: seq<Touch>)
      returns (ledger': set<Ref>, report': seq<Touch>, ok: bool)
      requires ref.name != []
      modifies this`tree
      ensures Progress(tree, ledger', report', ok) ==
              InstallOne(Progress(old(tree), ledger, report, true), ref, overwrite, out)
      ensures InstallShown(Progress(old(tree), ledger, report, true), Progress(tree, ledger', report', ok), ref,
                           overwrite, out)
    {
      InstallShows(Progress(tree, ledger, report, true), ref, overwrite, out);
      var places := Places(ref);
      ledger', report', ok := ledger, report, true;
      var existing := Stat(ref);
      if existing && !overwrite {
        report' := report + [Skipped(ref)];
        return;
      }
      match out
      case NoDirectory => ok := false;
      case FetchFailed(left) =>
        tree := SetPlace(tree, places[0], left);
        ok := false;
      case Fetched(content, mirror) =>
        tree := SetPlace(tree, places[0], content);
        for i := 1 to |places|
          invariant ok && tree == if i == 1 then SetPlace(old(tree), places[0], content)
                                  else SetPlace(SetPlace(old(tree), places[0], content), places[1], content)
          invariant i > 1 ==> ref.kind.Skill? && mirror.Mirrored?
          invariant |places| == if ref.kind.Skill? then 2 else 1
        {
          if mirror.MirrorFailed? {
            tree := SetPlace(tree, places[i], mirror.left);
            ok := false;
            return;
          }
          tree := SetPlace(tree, places[i], content);
        }
        ledger' := ledger + {ref};
        report' := report + [Installed(ref)];
    }

    method Remove(ref: Ref, out: Removal) returns (ok: bool)
      modifies this`tree
      ensures ok <==> !(out.RemoveFailed? && out.at < |Places(ref)|)
      ensures tree == if ok then Without(old(tree), Places(ref), |Places(ref)|)
                      else SetPlace(Without(old(tree), Places(ref), out.at), Places(ref)[out.at], out.left)
    {
      var places := Places(ref);
      for i := 0 to |places|
        invariant tree == Without(old(tree), places, i)
        invariant out.RemoveFailed? ==> out.at >= i
      {
        if out.RemoveFailed? && out.at == i {
          tree := SetPlace(tree, places[i], out.left);
          return false;
        }
        tree := tree - {places[i]};
      }
      return true;
    }

    method InstallAll(f: Frame, o: Outcomes, ledger0: set<Ref>)
      returns (ledger: set<Ref>, touched: seq<Touch>, ok: bool)
      requires Fits(f, o)
      modifies this`tree
      ensures Progress(tree, ledger, touched, ok) ==
              InstallFirst(Progress(old(tree), ledger0, [], true), f, o, |f.installs|)
    {
      ledger, touched, ok := ledger0, [], true;
      ghost var g := Progress(old(tree), ledger0, [], true);
      for i := 0 to |f.installs|
        invariant ok && Progress(tree, ledger, touched, true) == InstallFirst(g, f, o, i)
      {
        if f.installs[i].name != [] {
          ledger, touched, ok := Install(f.installs[i], f.overwrite, o.fetches[i], ledger, touched);
          if !ok {
            InstallStops(g, f, o, i + 1);
            return;
          }
        }
      }
    }

    method RemoveAll(f: Frame, o: Outcomes, ledger0: set<Ref>, touched0: seq<Touch>)
      returns (ledger: set<Ref>, touched: seq<Touch>, ok: bool)
      requires Fits(f, o)
      modifies this`tree
      ensures Progress(tree, ledger, touched, ok) ==
              RemoveFirst(Progress(old(tree), ledger0, touched0, true), f, o, |f.removes|)
    {
      ledger, touched, ok := ledger0, touched0, true;
      ghost var g := Progress(old(tree), ledger0, touched0, true);
      for i := 0 to |f.removes|
        invariant ok && Progress(tree, ledger, touched, true) == RemoveFirst(g, f, o, i)
      {
        if f.removes[i].None? || f.removes[i].value !in ledger {
          ok := false;
        } else {
          ok := Remove(f.removes[i].value, o.removals[i]);
        }
        if !ok {
          RemoveStops(g, f, o, i + 1);
          return;
        }
        ledger := ledger - {f.removes[i].value};
        touched := touched + [Removed(f.removes[i].value)];
      }
    }

    method SyncSystemEnv(f: Frame, o: Outcomes) returns (touched: seq<Touch>, ok: bool)
      requires Fits(f, o)
      modifies this
      ensures Snapshot() == Call(old(Snapshot()), f, o)
      ensures touched == Work(old(Snapshot()), f, o).touched && ok == (Work(old(Snapshot()), f, o).ok && o.save.Saved?)
      ensures ok ==> WorkShown(old(Snapshot()), Progress(tree, manifest, touched, true), f, o)
      ensures !ok ==> manifest == old(manifest) || (manifest == {} && o.save.Garbled?)
      ensures AllGood(f, o) && o.save.Saved? ==>
        (ok <==>
          forall j :: 0 <= j < |f.removes| ==>
            && f.removes[j].Some?
            && (f.removes[j].value in Ledger(old(Snapshot()), o) || Installed(f.removes[j].value) in touched)
            && forall k :: 0 <= k < j ==> f.removes[k] != f.removes[j])
    {
      if Work(Snapshot(), f, o).ok {
        WorkShows(Snapshot(), f, o);
      }
      if AllGood(f, o) {
        WorkSucceeds(Snapshot(), f, o);
      }
      var ledger := if o.readable then manifest else {};
      ledger, touched, ok := InstallAll(f, o, ledger);
      ghost var h := Progress(tree, ledger, touched, ok);
      if !ok {
        RemoveStops(h, f, o, 0);
        return;
      }
      ledger, touched, ok := RemoveAll(f, o, ledger, touched);
      if !ok {
        return;
      }
      ok := o.save.Saved?;
      if o.save.Saved? {
        manifest := ledger;
      } else if o.save.Garbled? {
        manifest := {};
      }
    }
  }
}
