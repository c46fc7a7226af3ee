/** What one syncSystemEnv call does to files, manifest and report, resource by resource. */
module SystemEnvOutcome {
  import opened Text
  import opened SystemEnv

  function At(tree: Tree, p: Place): Option<Content>
  {
    if p in tree then Some(tree[p]) else None
  }

  // ---------------------------------------------------------------- one install

  /** The fetch, and for a skill the mirror copy, succeeded. */
  predicate Landed(ref: Ref, out: Fetch)
  {
    out.Fetched? && (ref.kind.Skill? ==> out.mirror.Mirrored?)
  }

  /** Some directory of the resource is there and may not be replaced. */
  predicate Barred(tree: Tree, ref: Ref, overwrite: bool)
  {
    !overwrite && exists p :: p in Places(ref) && p in tree
  }

  /** A barred resource is skipped. Any other one ends in all its directories, in the
      manifest and in the report, or ends the call; nothing else is touched. */
  ghost predicate InstallShown(g: Progress, h: Progress, ref: Ref, overwrite: bool, out: Fetch)
  {
    if Barred(g.tree, ref, overwrite) then h == g.(touched := g.touched + [Skipped(ref)])
    else
      && (forall p :: p !in Places(ref) ==> At(h.tree, p) == At(g.tree, p))
      && (h.ok <==> Landed(ref, out))
      && (!h.ok ==> h.manifest == g.manifest && h.touched == g.touched)
      && (h.ok ==>
            && (forall p :: p in Places(ref) ==> At(h.tree, p) == out.content)
            && h.manifest == g.manifest + {ref} && h.touched == g.touched + [Installed(ref)])
  }

  lemma InstallShows(g: Progress, ref: Ref, overwrite: bool, out: Fetch)
    requires g.ok && ref.name != []
    ensures InstallShown(g, InstallOne(g, ref, overwrite, out), ref, overwrite, out)
  {
  }

  // ---------------------------------------------------------------- one removal

  /** A parsed target in the manifest whose directories all go is removed; anything else ends
      the call. */
  ghost predicate RemoveShown(g: Progress, h: Progress, target: Option<Ref>, out: Removal)
  {
    && (h.ok <==> target.Some? && target.value in g.manifest
                  && (out.RemovedAll? || out.at >= |Places(target.value)|))
    && (!h.ok ==> h.manifest == g.manifest && h.touched == g.touched)
    && (h.ok ==>
          && (forall p :: At(h.tree, p) == if p in Places(target.value) then None else At(g.tree, p))
          && h.manifest == g.manifest - {target.value} && h.touched == g.touched + [Removed(target.value)])
  }

  lemma {:induction false} WithoutAt(tree: Tree, places: seq<Place>, n: nat, p: Place)
    requires n <= |places|
    ensures At(Without(tree, places, n), p) == if p in places[..n] then None else At(tree, p)
  {
    if n > 0 {
      WithoutAt(tree, places, n - 1, p);
      assert places[..n] == places[..n - 1] + [places[n - 1]];
    }
  }

  lemma RemoveShows(g: Progress, target: Option<Ref>, out: Removal)
    requires g.ok
    ensures RemoveShown(g, RemoveOne(g, target, out), target, out)
  {
    if target.Some? {
      var places := Places(target.value);
      assert places[..|places|] == places;
      forall p
        ensures At(Without(g.tree, places, |places|), p) == if p in places then None else At(g.tree, p)
      {
        WithoutAt(g.tree, places, |places|, p);
      }
    }
  }

  // ---------------------------------------------------------------- the install loop

  /** Entry i names a resource. */
  predicate Named(f: Frame, i: nat)
  {
    i < |f.installs| && f.installs[i].name != []
  }

  predicate Disjoint(a: Ref, b: Ref)
  {
    forall p :: p in Places(a) ==> p !in Places(b)
  }

  /** No other entry of the frame shares a directory with this one. */
  predicate Lone(f: Frame, i: nat)
  {
    && Named(f, i)
    && (forall j :: 0 <= j < |f.installs| && j != i && f.installs[j].name != [] ==>
          Disjoint(f.installs[i], f.installs[j]))
    && (forall j :: 0 <= j < |f.removes| && f.removes[j].Some? ==> Disjoint(f.installs[i], f.removes[j].value))
  }

  lemma InstallNext(g: Progress, f: Frame, o: Outcomes, n: nat)
    requires Fits(f, o) && n < |f.installs| && InstallFirst(g, f, o, n + 1).ok
    ensures InstallFirst(g, f, o, n).ok
    ensures if f.installs[n].name == [] then InstallFirst(g, f, o, n + 1) == InstallFirst(g, f, o, n)
            else InstallShown(InstallFirst(g, f, o, n), InstallFirst(g, f, o, n + 1), f.installs[n], f.overwrite,
                              o.fetches[n])
  {
    if f.installs[n].name != [] {
      InstallShows(InstallFirst(g, f, o, n), f.installs[n], f.overwrite, o.fetches[n]);
    }
  }

  /** No entry from m up to n has this directory. */
  predicate Spared(f: Frame, m: nat, n: nat, p: Place)
    requires n <= |f.installs|
  {
    forall j :: m <= j < n && f.installs[j].name != [] ==> p !in Places(f.installs[j])
  }

  /** From entry m to entry n, as long as the call goes on: report and manifest only grow, and
      a spared directory stays as it is. */
  lemma {:induction false} InstallsGrow(g: Progress, f: Frame, o: Outcomes, m: nat, n: nat, p: Place)
    requires Fits(f, o) && m <= n <= |f.installs| && InstallFirst(g, f, o, n).ok
    ensures var a, b := InstallFirst(g, f, o, m), InstallFirst(g, f, o, n);
      && a.ok && a.touched <= b.touched && a.manifest <= b.manifest
      && (Spared(f, m, n, p) ==> At(b.tree, p) == At(a.tree, p))
    decreases n - m
  {
    if m < n {
      InstallNext(g, f, o, n - 1);
      InstallsGrow(g, f, o, m, n - 1, p);
      if Spared(f, m, n, p) {
        assert Spared(f, m, n - 1, p);
      }
    }
  }

  /** One of the first n entries names this resource. */
  predicate Entry(f: Frame, n: nat, r: Ref)
  {
    exists j: nat :: j < n && Named(f, j) && f.installs[j] == r
  }

  /** Only entries of the frame are reported, each is, and the manifest gains exactly the
      installed ones. */
  ghost predicate Reported(g: Progress, h: Progress, f: Frame, n: nat)
  {
    && (forall t :: t in h.touched ==> !t.Removed? && Entry(f, n, t.ref))
    && (forall r :: Entry(f, n, r) ==> Skipped(r) in h.touched || Installed(r) in h.touched)
    && (forall r :: r in h.manifest <==> r in g.manifest || Installed(r) in h.touched)
  }

  lemma EntryNext(f: Frame, n: nat, r: Ref)
    requires n < |f.installs|
    ensures Entry(f, n + 1, r) <==> Entry(f, n, r) || (Named(f, n) && f.installs[n] == r)
  {
    if Entry(f, n, r) {
      var j: nat :| j < n && Named(f, j) && f.installs[j] == r;
      assert j < n + 1;
    }
    if Entry(f, n + 1, r) {
      var j: nat :| j < n + 1 && Named(f, j) && f.installs[j] == r;
      assert j < n || j == n;
    }
  }

  lemma ReportedNext(g: Progress, a: Progress, h: Progress, f: Frame, n: nat, t: Touch)
    requires n < |f.installs| && Named(f, n) && Reported(g, a, f, n) && h.touched == a.touched + [t]
    requires t in {Skipped(f.installs[n]), Installed(f.installs[n])}
    requires h.manifest == if t.Installed? then a.manifest + {f.installs[n]} else a.manifest
    ensures Reported(g, h, f, n + 1)
  {
    forall r
      ensures Entry(f, n + 1, r) <==> Entry(f, n, r) || f.installs[n] == r
    {
      EntryNext(f, n, r);
    }
    assert forall x :: x in h.touched <==> x in a.touched || x == t;
  }

  lemma ReportedSkip(g: Progress, h: Progress, f: Frame, n: nat)
    requires n < |f.installs| && !Named(f, n) && Reported(g, h, f, n)
    ensures Reported(g, h, f, n + 1)
  {
    forall r
      ensures Entry(f, n + 1, r) <==> Entry(f, n, r)
    {
      EntryNext(f, n, r);
    }
  }

  lemma ReportedStep(g: Progress, f: Frame, o: Outcomes, n: nat)
    requires Fits(f, o) && n < |f.installs| && InstallFirst(g, f, o, n + 1).ok
    requires Reported(g, InstallFirst(g, f, o, n), f, n)
    ensures Reported(g, InstallFirst(g, f, o, n + 1), f, n + 1)
  {
    var a, h := InstallFirst(g, f, o, n), InstallFirst(g, f, o, n + 1);
    InstallNext(g, f, o, n);
    if Named(f, n) {
      ReportedNext(g, a, h, f, n, h.touched[|a.touched|]);
    } else {
      ReportedSkip(g, h, f, n);
    }
  }

  lemma {:induction false} InstallsReport(g: Progress, f: Frame, o: Outcomes, n: nat)
    requires Fits(f, o) && n <= |f.installs| && InstallFirst(g, f, o, n).ok && g.touched == []
    ensures Reported(g, InstallFirst(g, f, o, n), f, n)
  {
    if n > 0 {
      assert InstallFirst(g, f, o, n - 1).ok;
      InstallsReport(g, f, o, n - 1);
      ReportedStep(g, f, o, n - 1);
    }
  }

  /** A lone entry after the loop. */
  ghost predicate EntryShown(before: Tree, h: Progress, f: Frame, o: Outcomes, i: nat)
    requires Fits(f, o) && Named(f, i)
  {
    var ref := f.installs[i];
    if Barred(before, ref, f.overwrite) then
      && Skipped(ref) in h.touched && Installed(ref) !in h.touched
      && (forall p :: p in Places(ref) ==> At(h.tree, p) == At(before, p))
    else
      && Landed(ref, o.fetches[i]) && Installed(ref) in h.touched && Skipped(ref) !in h.touched && ref in h.manifest
      && (forall p :: p in Places(ref) ==> At(h.tree, p) == o.fetches[i].content)
  }

  lemma LoneSeesStart(g: Progress, f: Frame, o: Outcomes, i: nat)
    requires Fits(f, o) && Lone(f, i) && InstallFirst(g, f, o, i).ok
    ensures forall p :: p in Places(f.installs[i]) ==> At(InstallFirst(g, f, o, i).tree, p) == At(g.tree, p)
    ensures Barred(InstallFirst(g, f, o, i).tree, f.installs[i], f.overwrite) <==>
            Barred(g.tree, f.installs[i], f.overwrite)
  {
    forall p | p in Places(f.installs[i])
      ensures At(InstallFirst(g, f, o, i).tree, p) == At(g.tree, p)
    {
      InstallsGrow(g, f, o, 0, i, p);
      assert Spared(f, 0, i, p);
    }
  }

  lemma LoneStays(g: Progress, f: Frame, o: Outcomes, i: nat)
    requires Fits(f, o) && Lone(f, i) && InstallFirst(g, f, o, |f.installs|).ok
    ensures forall p :: p in Places(f.installs[i]) ==>
              At(InstallFirst(g, f, o, |f.installs|).tree, p) == At(InstallFirst(g, f, o, i + 1).tree, p)
  {
    forall p | p in Places(f.installs[i])
      ensures At(InstallFirst(g, f, o, |f.installs|).tree, p) == At(InstallFirst(g, f, o, i + 1).tree, p)
    {
      InstallsGrow(g, f, o, i + 1, |f.installs|, p);
      assert Spared(f, i + 1, |f.installs|, p);
    }
  }

  lemma SelfOverlaps(ref: Ref)
    ensures !Disjoint(ref, ref)
  {
    assert Places(ref)[0] in Places(ref);
  }

  /** A lone entry is reported by itself alone. */
  lemma {:induction false} ReportedOnce(g: Progress, f: Frame, o: Outcomes, i: nat, n: nat)
    requires Fits(f, o) && Lone(f, i) && n <= |f.installs| && InstallFirst(g, f, o, n).ok && g.touched == []
    ensures var ref, h := f.installs[i], InstallFirst(g, f, o, n);
      if n <= i then Skipped(ref) !in h.touched && Installed(ref) !in h.touched
      else
        && (Skipped(ref) in h.touched <==> Barred(InstallFirst(g, f, o, i).tree, ref, f.overwrite))
        && (Installed(ref) in h.touched <==> !Barred(InstallFirst(g, f, o, i).tree, ref, f.overwrite))
  {
    if n > 0 {
      InstallNext(g, f, o, n - 1);
      ReportedOnce(g, f, o, i, n - 1);
      SelfOverlaps(f.installs[i]);
    }
  }

  lemma EntryShows(g: Progress, f: Frame, o: Outcomes, i: nat)
    requires Fits(f, o) && Lone(f, i) && InstallFirst(g, f, o, |f.installs|).ok && g.touched == []
    ensures EntryShown(g.tree, InstallFirst(g, f, o, |f.installs|), f, o, i)
  {
    InstallsGrow(g, f, o, i + 1, |f.installs|, Places(f.installs[i])[0]);
    InstallNext(g, f, o, i);
    LoneSeesStart(g, f, o, i);
    LoneStays(g, f, o, i);
    ReportedOnce(g, f, o, i, |f.installs|);
  }

  // ---------------------------------------------------------------- the removal loop

  lemma RemoveNext(g: Progress, f: Frame, o: Outcomes, n: nat)
    requires Fits(f, o) && n < |f.removes| && RemoveFirst(g, f, o, n + 1).ok
    ensures RemoveFirst(g, f, o, n).ok
    ensures RemoveShown(RemoveFirst(g, f, o, n), RemoveFirst(g, f, o, n + 1), f.removes[n], o.removals[n])
  {
    RemoveShows(RemoveFirst(g, f, o, n), f.removes[n], o.removals[n]);
  }

  /** Among the first n targets. */
  predicate Target(f: Frame, n: nat, r: Ref)
    requires n <= |f.removes|
  {
    exists j :: 0 <= j < n && f.removes[j] == Some(r)
  }

  predicate Cleared(f: Frame, n: nat, p: Place)
    requires n <= |f.removes|
  {
    exists j :: 0 <= j < n && f.removes[j].Some? && p in Places(f.removes[j].value)
  }

  lemma TargetNext(f: Frame, n: nat)
    requires n < |f.removes|
    ensures forall r :: Target(f, n + 1, r) <==> Target(f, n, r) || f.removes[n] == Some(r)
    ensures forall p :: Cleared(f, n + 1, p) <==>
              Cleared(f, n, p) || (f.removes[n].Some? && p in Places(f.removes[n].value))
  {
    forall r
      ensures Target(f, n + 1, r) <==> Target(f, n, r) || f.removes[n] == Some(r)
    {
      if Target(f, n, r) {
        var j :| 0 <= j < n && f.removes[j] == Some(r);
        assert j < n + 1;
      }
    }
    forall p
      ensures Cleared(f, n + 1, p) <==> Cleared(f, n, p) || (f.removes[n].Some? && p in Places(f.removes[n].value))
    {
      if Cleared(f, n, p) {
        var j :| 0 <= j < n && f.removes[j].Some? && p in Places(f.removes[j].value);
        assert j < n + 1;
      }
    }
  }

  /** The targets are gone from files and manifest, each is reported, and nothing else is
      touched. */
  ghost predicate RemovedShown(g: Progress, h: Progress, f: Frame, n: nat)
    requires n <= |f.removes|
  {
    && (forall p :: At(h.tree, p) == if Cleared(f, n, p) then None else At(g.tree, p))
    && (forall r :: r in h.manifest <==> r in g.manifest && !Target(f, n, r))
    && (forall t :: t in h.touched <==> t in g.touched || (t.Removed? && Target(f, n, t.ref)))
    && (forall j :: 0 <= j < n ==> f.removes[j].Some? && f.removes[j].value in g.manifest)
  }

  lemma RemovedNone(g: Progress, f: Frame)
    ensures RemovedShown(g, g, f, 0)
  {
  }

  lemma RemovedNext(g: Progress, a: Progress, h: Progress, f: Frame, n: nat, out: Removal)
    requires n < |f.removes| && RemovedShown(g, a, f, n) && RemoveShown(a, h, f.removes[n], out) && h.ok
    ensures RemovedShown(g, h, f, n + 1)
  {
    TargetNext(f, n);
    var t := Removed(f.removes[n].value);
    assert forall x :: x in h.touched <==> x in a.touched || x == t;
    assert forall j :: 0 <= j < n + 1 ==> f.removes[j].Some? && f.removes[j].value in g.manifest;
  }

  lemma RemovedStep(g: Progress, f: Frame, o: Outcomes, n: nat)
    requires Fits(f, o) && n < |f.removes| && RemoveFirst(g, f, o, n + 1).ok
    requires RemovedShown(g, RemoveFirst(g, f, o, n), f, n)
    ensures RemovedShown(g, RemoveFirst(g, f, o, n + 1), f, n + 1)
  {
    RemoveNext(g, f, o, n);
    RemovedNext(g, RemoveFirst(g, f, o, n), RemoveFirst(g, f, o, n + 1), f, n, o.removals[n]);
  }

  lemma {:induction false} RemovesShow(g: Progress, f: Frame, o: Outcomes, n: nat)
    requires Fits(f, o) && n <= |f.removes| && RemoveFirst(g, f, o, n).ok
    ensures g.ok && RemovedShown(g, RemoveFirst(g, f, o, n), f, n)
  {
    if n == 0 {
      RemovedNone(g, f);
    } else {
      assert RemoveFirst(g, f, o, n - 1).ok;
      RemovesShow(g, f, o, n - 1);
      RemovedStep(g, f, o, n - 1);
    }
  }

  // ---------------------------------------------------------------- a whole call

  /** What a call that did its work leaves. */
  ghost predicate WorkShown(s: State, h: Progress, f: Frame, o: Outcomes)
    requires Fits(f, o)
  {
    && (forall i: nat :: Lone(f, i) ==> EntryShown(s.tree, h, f, o, i))
    && (forall i: nat :: Named(f, i) ==> Skipped(f.installs[i]) in h.touched || Installed(f.installs[i]) in h.touched)
    && (forall j :: 0 <= j < |f.removes| ==> f.removes[j].Some? && RemovalShown(h, f.removes[j].value))
    && (forall r :: r in h.manifest <==>
          (r in Ledger(s, o) || Installed(r) in h.touched) && Removed(r) !in h.touched)
  }

  predicate RemovalShown(h: Progress, r: Ref)
  {
    Removed(r) in h.touched && r !in h.manifest && forall p :: p in Places(r) ==> p !in h.tree
  }

  /** The manifest as the call read it. */
  function Ledger(s: State, o: Outcomes): set<Ref>
  {
    if o.readable then s.manifest else {}
  }

  lemma LoneNotCleared(f: Frame, i: nat)
    requires Lone(f, i)
    ensures forall p :: p in Places(f.installs[i]) ==> !Cleared(f, |f.removes|, p)
    ensures !Target(f, |f.removes|, f.installs[i])
  {
    SelfOverlaps(f.installs[i]);
  }

  lemma EntryStays(before: Tree, g: Progress, h: Progress, f: Frame, o: Outcomes, i: nat)
    requires Fits(f, o) && Lone(f, i) && EntryShown(before, g, f, o, i) && RemovedShown(g, h, f, |f.removes|)
    ensures EntryShown(before, h, f, o, i)
  {
    LoneNotCleared(f, i);
  }

  lemma TargetsShown(g: Progress, h: Progress, f: Frame, j: nat)
    requires RemovedShown(g, h, f, |f.removes|) && j < |f.removes|
    ensures f.removes[j].Some? && RemovalShown(h, f.removes[j].value)
  {
    var r := f.removes[j].value;
    assert Target(f, |f.removes|, r);
    forall p | p in Places(r)
      ensures p !in h.tree
    {
      assert Cleared(f, |f.removes|, p);
      assert At(h.tree, p).None?;
    }
  }

  lemma WorkShows(s: State, f: Frame, o: Outcomes)
    requires Fits(f, o) && Work(s, f, o).ok
    ensures WorkShown(s, Work(s, f, o), f, o)
  {
    var b, n := Begin(s, o), |f.installs|;
    var g, h := InstallFirst(b, f, o, n), Work(s, f, o);
    RemovesShow(g, f, o, |f.removes|);
    InstallsReport(b, f, o, n);
    forall i: nat | Named(f, i)
      ensures Skipped(f.installs[i]) in h.touched || Installed(f.installs[i]) in h.touched
    {
      assert Entry(f, n, f.installs[i]);
    }
    forall i: nat | Lone(f, i)
      ensures EntryShown(s.tree, h, f, o, i)
    {
      EntryShows(b, f, o, i);
      EntryStays(s.tree, g, h, f, o, i);
    }
    forall j | 0 <= j < |f.removes|
      ensures f.removes[j].Some? && RemovalShown(h, f.removes[j].value)
    {
      TargetsShown(g, h, f, j);
    }
  }

  // ---------------------------------------------------------------- when a call succeeds

  /** Every fetch, copy and removal the call can meet succeeds. */
  predicate AllGood(f: Frame, o: Outcomes)
    requires Fits(f, o)
  {
    && (forall i :: 0 <= i < |f.installs| ==> Landed(f.installs[i], o.fetches[i]))
    && (forall j :: 0 <= j < |f.removes| ==> o.removals[j].RemovedAll?)
  }

  /** The first n targets parse, are the platform's, and are named once. */
  predicate Removable(manifest: set<Ref>, f: Frame, n: nat)
    requires n <= |f.removes|
  {
    forall j :: 0 <= j < n ==>
      f.removes[j].Some? && f.removes[j].value in manifest && forall k :: 0 <= k < j ==> f.removes[k] != f.removes[j]
  }

  lemma {:induction false} InstallsSucceed(g: Progress, f: Frame, o: Outcomes, n: nat)
    requires Fits(f, o) && AllGood(f, o) && n <= |f.installs| && g.ok
    ensures InstallFirst(g, f, o, n).ok
  {
    if n > 0 {
      InstallsSucceed(g, f, o, n - 1);
      if f.installs[n - 1].name != [] {
        InstallShows(InstallFirst(g, f, o, n - 1), f.installs[n - 1], f.overwrite, o.fetches[n - 1]);
      }
    }
  }

  lemma RemovableNext(g: Progress, a: Progress, f: Frame, n: nat)
    requires n < |f.removes| && Removable(g.manifest, f, n) && RemovedShown(g, a, f, n)
    ensures Removable(g.manifest, f, n + 1) <==> f.removes[n].Some? && f.removes[n].value in a.manifest
  {
    var target := f.removes[n];
    if target.Some? && Target(f, n, target.value) {
      var k :| 0 <= k < n && f.removes[k] == target;
      assert !Removable(g.manifest, f, n + 1);
    }
  }

  lemma {:induction false} RemovesSucceed(g: Progress, f: Frame, o: Outcomes, n: nat)
    requires Fits(f, o) && AllGood(f, o) && n <= |f.removes| && g.ok
    ensures RemoveFirst(g, f, o, n).ok <==> Removable(g.manifest, f, n)
  {
    if n > 0 {
      RemovesSucceed(g, f, o, n - 1);
      var a := RemoveFirst(g, f, o, n - 1);
      if a.ok {
        RemovesShow(g, f, o, n - 1);
        RemoveShows(a, f.removes[n - 1], o.removals[n - 1]);
        RemovableNext(g, a, f, n - 1);
      }
    }
  }

  /** Removals report removals only. */
  lemma {:induction false} RemovesReport(g: Progress, f: Frame, o: Outcomes, n: nat)
    requires Fits(f, o) && n <= |f.removes|
    ensures var h := RemoveFirst(g, f, o, n); forall t: Touch :: !t.Removed? ==> (t in h.touched <==> t in g.touched)
  {
    if n > 0 {
      RemovesReport(g, f, o, n - 1);
      var a := RemoveFirst(g, f, o, n - 1);
      if a.ok {
        RemoveShows(a, f.removes[n - 1], o.removals[n - 1]);
      }
    }
  }

  /** With nothing failing underneath, a call works exactly when each removal parses, is named
      once, and is of a resource in the manifest or installed by this very call. */
  lemma WorkSucceeds(s: State, f: Frame, o: Outcomes)
    requires Fits(f, o) && AllGood(f, o)
    ensures var h := Work(s, f, o);
      h.ok <==>
        forall j :: 0 <= j < |f.removes| ==>
          && f.removes[j].Some? && (f.removes[j].value in Ledger(s, o) || Installed(f.removes[j].value) in h.touched)
          && forall k :: 0 <= k < j ==> f.removes[k] != f.removes[j]
  {
    var b, n := Begin(s, o), |f.installs|;
    var g := InstallFirst(b, f, o, n);
    InstallsSucceed(b, f, o, n);
    InstallsReport(b, f, o, n);
    RemovesReport(g, f, o, |f.removes|);
    RemovesSucceed(g, f, o, |f.removes|);
  }
}
