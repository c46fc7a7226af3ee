/** What any sequence of syncSystemEnv calls leaves alone. */
module SystemEnvSafety {
  import opened Text
  import opened SystemEnv

  predicate Hits(ref: Ref, own: set<Place>)
  {
    exists p :: p in Places(ref) && p in own
  }

  /** The manifest claims nothing of the operator's, and the operator's files are as in base. */
  ghost predicate Apart(tree: Tree, manifest: set<Ref>, own: set<Place>, base: Tree)
  {
    && (forall r :: r in manifest ==> !Hits(r, own))
    && (forall p :: p in own ==> p in tree && p in base && tree[p] == base[p])
  }

  predicate Untouched(tree: Tree, own: set<Place>, base: Tree)
  {
    forall p :: p in own ==> (p in tree <==> p in base) && (p in base ==> tree[p] == base[p])
  }

  /** No frame overwrites a resource that shares a directory with the operator's. */
  ghost predicate Careful(frames: iset<Frame>, own: set<Place>)
  {
    forall f, i :: f in frames && f.overwrite && 0 <= i < |f.installs| && f.installs[i].name != [] ==>
        !Hits(f.installs[i], own)
  }

  // ---------------------------------------------------------------- one call

  lemma InstallKeeps(g: Progress, ref: Ref, overwrite: bool, out: Fetch, own: set<Place>, base: Tree)
    requires Apart(g.tree, g.manifest, own, base)
    requires overwrite && ref.name != [] ==> !Hits(ref, own)
    ensures var h := InstallOne(g, ref, overwrite, out); Apart(h.tree, h.manifest, own, base)
  {
    if !(Exists(g.tree, ref) && !overwrite) && ref.name != [] {
      assert !Hits(ref, own);
      assert Places(ref)[0] !in own;
      assert ref.kind.Skill? ==> Places(ref)[1] !in own;
    }
  }

  lemma {:induction false} InstallsKeep(g: Progress, f: Frame, o: Outcomes, n: nat, own: set<Place>, base: Tree)
    requires Fits(f, o) && n <= |f.installs| && Apart(g.tree, g.manifest, own, base) && Careful(iset{f}, own)
    ensures var h := InstallFirst(g, f, o, n); Apart(h.tree, h.manifest, own, base)
  {
    if n > 0 {
      InstallsKeep(g, f, o, n - 1, own, base);
      InstallKeeps(InstallFirst(g, f, o, n - 1), f.installs[n - 1], f.overwrite, o.fetches[n - 1], own, base);
    }
  }

  lemma {:induction false} WithoutIs(tree: Tree, places: seq<Place>, n: nat)
    requires n <= |places|
    ensures Without(tree, places, n) == tree - (set i | 0 <= i < n :: places[i])
  {
    if n > 0 {
      WithoutIs(tree, places, n - 1);
    }
  }

  lemma RemoveKeeps(g: Progress, target: Option<Ref>, out: Removal, own: set<Place>, base: Tree)
    requires Apart(g.tree, g.manifest, own, base)
    ensures var h := RemoveOne(g, target, out); Apart(h.tree, h.manifest, own, base)
  {
    if target.Some? && target.value in g.manifest {
      var places := Places(target.value);
      assert forall i :: 0 <= i < |places| ==> places[i] !in own;
      forall n | 0 <= n <= |places|
        ensures forall p :: p in own && p in g.tree ==>
                p in Without(g.tree, places, n) && Without(g.tree, places, n)[p] == g.tree[p]
      {
        WithoutIs(g.tree, places, n);
      }
    }
  }

  lemma {:induction false} RemovesKeep(g: Progress, f: Frame, o: Outcomes, n: nat, own: set<Place>, base: Tree)
    requires Fits(f, o) && n <= |f.removes| && Apart(g.tree, g.manifest, own, base)
    ensures var h := RemoveFirst(g, f, o, n); Apart(h.tree, h.manifest, own, base)
  {
    if n > 0 {
      RemovesKeep(g, f, o, n - 1, own, base);
      RemoveKeeps(RemoveFirst(g, f, o, n - 1), f.removes[n - 1], o.removals[n - 1], own, base);
    }
  }

  /** One call, failing anywhere or not at all, keeps the operator's files and keeps the
      manifest off them. */
  lemma CallKeeps(s: State, f: Frame, o: Outcomes, own: set<Place>, base: Tree)
    requires Fits(f, o) && Apart(s.tree, s.manifest, own, base) && Careful(iset{f}, own)
    ensures Apart(Call(s, f, o).tree, Call(s, f, o).manifest, own, base)
  {
    InstallsKeep(Begin(s, o), f, o, |f.installs|, own, base);
    RemovesKeep(InstallFirst(Begin(s, o), f, o, |f.installs|), f, o, |f.removes|, own, base);
  }

  // ---------------------------------------------------------------- any sequence of calls

  datatype Request = Request(frame: Frame, outcomes: Outcomes)

  ghost predicate Legal(calls: seq<Request>, frames: iset<Frame>)
  {
    forall i :: 0 <= i < |calls| ==> calls[i].frame in frames && Fits(calls[i].frame, calls[i].outcomes)
  }

  ghost function After(s: State, calls: seq<Request>, frames: iset<Frame>): State
    requires Legal(calls, frames)
    decreases |calls|
  {
    if calls == [] then s
    else After(Call(s, calls[0].frame, calls[0].outcomes), calls[1..], frames)
  }

  lemma {:induction false} CallsKeep(s: State, calls: seq<Request>, frames: iset<Frame>, own: set<Place>, base: Tree)
    requires Legal(calls, frames) && Careful(frames, own) && Apart(s.tree, s.manifest, own, base)
    ensures Apart(After(s, calls, frames).tree, After(s, calls, frames).manifest, own, base)
    decreases |calls|
  {
    if calls != [] {
      CallKeeps(s, calls[0].frame, calls[0].outcomes, own, base);
      CallsKeep(Call(s, calls[0].frame, calls[0].outcomes), calls[1..], frames, own, base);
    }
  }

  // ---------------------------------------------------------------- overwriting

  /** Every fetch succeeds with the same content, every removal succeeds. */
  function Smooth(f: Frame, c: Content): Outcomes
  {
    Outcomes(true, seq(|f.installs|, i => Fetched(Some(c), Mirrored)), seq(|f.removes|, i => RemovedAll), Saved)
  }

  lemma {:induction false} Overwritten(g: Progress, f: Frame, c: Content, k: nat, p: Place, n: nat)
    requires g.ok && f.overwrite && k < n <= |f.installs| && f.installs[k].name != [] && p in Places(f.installs[k])
    ensures var h := InstallFirst(g, f, Smooth(f, c), n); h.ok && p in h.tree && h.tree[p] == c
    decreases n
  {
    var o := Smooth(f, c);
    InstallsGoOn(g, f, c, n - 1);
    if n - 1 > k {
      Overwritten(g, f, c, k, p, n - 1);
    }
  }

  lemma {:induction false} InstallsGoOn(g: Progress, f: Frame, c: Content, n: nat)
    requires g.ok && n <= |f.installs|
    ensures InstallFirst(g, f, Smooth(f, c), n).ok
  {
    if n > 0 {
      InstallsGoOn(g, f, c, n - 1);
    }
  }

  lemma {:induction false} StaysReplaced(g: Progress, f: Frame, c: Content, p: Place, n: nat)
    requires n <= |f.removes| && (p in g.tree ==> g.tree[p] == c)
    ensures var h := RemoveFirst(g, f, Smooth(f, c), n); p in h.tree ==> h.tree[p] == c
  {
    if n > 0 {
      StaysReplaced(g, f, c, p, n - 1);
      var h := RemoveFirst(g, f, Smooth(f, c), n - 1);
      if f.removes[n - 1].Some? {
        WithoutIs(h.tree, Places(f.removes[n - 1].value), |Places(f.removes[n - 1].value)|);
      }
    }
  }

  lemma OverwriteReplaces(s: State, f: Frame, k: nat, p: Place) returns (o: Outcomes)
    requires f.overwrite && k < |f.installs| && f.installs[k].name != [] && p in Places(f.installs[k]) && p in s.tree
    ensures Fits(f, o) && !(p in Call(s, f, o).tree && Call(s, f, o).tree[p] == s.tree[p])
  {
    var c := s.tree[p] + "'";
    o := Smooth(f, c);
    Overwritten(Begin(s, o), f, c, k, p, |f.installs|);
    StaysReplaced(InstallFirst(Begin(s, o), f, o, |f.installs|), f, c, p, |f.removes|);
    assert |c| != |s.tree[p]|;
  }

  /** The operator's resource directories survive every sequence of calls, failing part-way
      or not and whatever the manifest file turns into, exactly when no frame overwrites a
      name whose directory is the operator's. */
  lemma OperatorFilesExactly(s: State, frames: iset<Frame>, own: set<Place>)
    requires Apart(s.tree, s.manifest, own, s.tree)
    ensures (forall calls :: Legal(calls, frames) ==> Untouched(After(s, calls, frames).tree, own, s.tree)) <==>
            Careful(frames, own)
  {
    if Careful(frames, own) {
      forall calls | Legal(calls, frames)
        ensures Untouched(After(s, calls, frames).tree, own, s.tree)
      {
        CallsKeep(s, calls, frames, own, s.tree);
      }
    } else {
      var f, k :| f in frames && f.overwrite && 0 <= k < |f.installs| && f.installs[k].name != [] &&
          Hits(f.installs[k], own);
      var p :| p in Places(f.installs[k]) && p in own;
      var o := OverwriteReplaces(s, f, k, p);
      var calls := [Request(f, o)];
      assert Legal(calls, frames);
      assert After(s, calls, frames) == Call(s, f, o) by {
        assert calls[1..] == [];
      }
    }
  }

  /** Without overwrite, the frames do not matter at all. */
  lemma OperatorFilesSafe(s: State, calls: seq<Request>, frames: iset<Frame>, own: set<Place>)
    requires Legal(calls, frames) && Apart(s.tree, s.manifest, own, s.tree)
    requires forall f :: f in frames ==> !f.overwrite
    ensures Untouched(After(s, calls, frames).tree, own, s.tree)
    ensures forall r :: r in After(s, calls, frames).manifest ==> !Hits(r, own)
  {
    CallsKeep(s, calls, frames, own, s.tree);
  }

  // ---------------------------------------------------------------- the report

  predicate Explains(touched: seq<Touch>, p: Place)
  {
    exists i :: 0 <= i < |touched| && !touched[i].Skipped? && p in Places(touched[i].ref)
  }

  /** While the call goes on, every directory that differs from base is accounted for. */
  ghost predicate Explained(g: Progress, base: Tree)
  {
    g.ok ==> forall p ::
      Explains(g.touched, p) || ((p in g.tree <==> p in base) && (p in base && p in g.tree ==> g.tree[p] == base[p]))
  }

  lemma ExplainsMore(touched: seq<Touch>, more: Touch, p: Place)
    ensures Explains(touched, p) ==> Explains(touched + [more], p)
    ensures !more.Skipped? && p in Places(more.ref) ==> Explains(touched + [more], p)
  {
    var all := touched + [more];
    if Explains(touched, p) {
      var i :| 0 <= i < |touched| && !touched[i].Skipped? && p in Places(touched[i].ref);
      assert all[i] == touched[i];
    }
    assert all[|touched|] == more;
  }

  lemma InstallExplained(g: Progress, ref: Ref, overwrite: bool, out: Fetch, base: Tree)
    requires g.ok && Explained(g, base)
    ensures Explained(InstallOne(g, ref, overwrite, out), base)
  {
    var h := InstallOne(g, ref, overwrite, out);
    if h.ok && h != g {
      forall p
        ensures Explains(h.touched, p) ||
                ((p in h.tree <==> p in base) && (p in base && p in h.tree ==> h.tree[p] == base[p]))
      {
        ExplainsMore(g.touched, h.touched[|g.touched|], p);
        InstallLocal(g, ref, overwrite, out, p);
      }
    }
  }

  lemma InstallLocal(g: Progress, ref: Ref, overwrite: bool, out: Fetch, p: Place)
    ensures var h := InstallOne(g, ref, overwrite, out);
      || (h.touched == g.touched + [Installed(ref)] && p in Places(ref))
      || !h.ok
      || ((p in h.tree <==> p in g.tree) && (p in g.tree && p in h.tree ==> h.tree[p] == g.tree[p]))
  {
  }

  lemma RemoveExplained(g: Progress, target: Option<Ref>, out: Removal, base: Tree)
    requires g.ok && Explained(g, base)
    ensures Explained(RemoveOne(g, target, out), base)
  {
    var h := RemoveOne(g, target, out);
    if h.ok {
      var ref := target.value;
      WithoutIs(g.tree, Places(ref), |Places(ref)|);
      forall p
        ensures Explains(g.touched, p) ==> Explains(h.touched, p)
        ensures p in Places(ref) ==> Explains(h.touched, p)
      {
        ExplainsMore(g.touched, Removed(ref), p);
      }
    }
  }

  lemma {:induction false} InstallsExplained(g: Progress, f: Frame, o: Outcomes, n: nat, base: Tree)
    requires Fits(f, o) && n <= |f.installs| && g.ok && Explained(g, base)
    ensures Explained(InstallFirst(g, f, o, n), base)
  {
    if n > 0 {
      InstallsExplained(g, f, o, n - 1, base);
      var h := InstallFirst(g, f, o, n - 1);
      if h.ok {
        InstallExplained(h, f.installs[n - 1], f.overwrite, o.fetches[n - 1], base);
      }
    }
  }

  lemma {:induction false} RemovesExplained(g: Progress, f: Frame, o: Outcomes, n: nat, base: Tree)
    requires Fits(f, o) && n <= |f.removes| && Explained(g, base)
    ensures Explained(RemoveFirst(g, f, o, n), base)
  {
    if n > 0 {
      RemovesExplained(g, f, o, n - 1, base);
      var h := RemoveFirst(g, f, o, n - 1);
      if h.ok {
        RemoveExplained(h, f.removes[n - 1], o.removals[n - 1], base);
      }
    }
  }

  /** After a call without error, every directory that changed belongs to a resource the
      report says was installed or removed. */
  lemma ReportComplete(s: State, f: Frame, o: Outcomes, p: Place)
    requires Fits(f, o) && Work(s, f, o).ok && !Explains(Work(s, f, o).touched, p)
    ensures p in Call(s, f, o).tree <==> p in s.tree
    ensures p in s.tree ==> Call(s, f, o).tree[p] == s.tree[p]
  {
    InstallsExplained(Begin(s, o), f, o, |f.installs|, s.tree);
    RemovesExplained(InstallFirst(Begin(s, o), f, o, |f.installs|), f, o, |f.removes|, s.tree);
  }

  // ---------------------------------------------------------------- install, then remove

  /** Installing a new resource puts it everywhere and into the manifest, and removing it again
      leaves files and manifest as they were. */
  lemma InstallThenRemove(s: State, ref: Ref, c: Content)
    requires ref.name != [] && !Exists(s.tree, ref) && ref !in s.manifest
    ensures var add, drop := Frame([ref], [], false), Frame([], [Some(ref)], false);
      Call(Call(s, add, Smooth(add, c)), drop, Smooth(drop, c)) == s
    ensures var add := Frame([ref], [], false); var s1 := Call(s, add, Smooth(add, c));
      && s1 != s && s1.manifest == s.manifest + {ref}
      && (forall p :: p in Places(ref) ==> p in s1.tree && s1.tree[p] == c)
      && (forall p :: p !in Places(ref) ==>
            (p in s1.tree <==> p in s.tree) && (p in s.tree ==> s1.tree[p] == s.tree[p]))
  {
    var add, drop := Frame([ref], [], false), Frame([], [Some(ref)], false);
    var s1 := Call(s, add, Smooth(add, c));
    assert InstallFirst(Begin(s, Smooth(add, c)), add, Smooth(add, c), 0) == Begin(s, Smooth(add, c));
    assert s1.manifest == s.manifest + {ref};
    var b := Begin(s1, Smooth(drop, c));
    assert RemoveFirst(b, drop, Smooth(drop, c), 0) == b;
    WithoutIs(s1.tree, Places(ref), |Places(ref)|);
    assert Call(s1, drop, Smooth(drop, c)).tree == s.tree;
  }
}
