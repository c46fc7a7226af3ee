/** Server-pushed client configuration (common/agent/client.go): revision-gated frames, the
    egress proxy and the public-IP lookup configuration with lookups in flight. */
module ClientConfig {
  // ---------------------------------------------------------------- revision gates

  datatype Frame<T> = Frame(revision: nat, body: T)

  /** A frame that does not exceed the revision in force is ignored. The lax gate lets any
      frame in as long as revision zero is in force. */
  function Gate<T>(current: Frame<T>, frame: Frame<T>, strict: bool): Frame<T>
  {
    if frame.revision <= current.revision && (strict || current.revision != 0) then current else frame
  }

  /** What is in force after some frames. */
  function Final<T>(start: Frame<T>, frames: seq<Frame<T>>, strict: bool): Frame<T>
  {
    if frames == [] then start
    else Gate(Final(start, frames[..|frames| - 1], strict), frames[|frames| - 1], strict)
  }

  /** frames[i] is the first frame of the revision it carries or a higher one. */
  ghost predicate FirstAt<T>(frames: seq<Frame<T>>, i: nat)
  {
    i < |frames| && forall k :: 0 <= k < i ==> frames[k].revision < frames[i].revision
  }

  ghost predicate AtMost<T>(frames: seq<Frame<T>>, revision: nat)
  {
    forall i :: 0 <= i < |frames| ==> frames[i].revision <= revision
  }

  /** f has the highest revision received. It is the first frame of that revision; with
      revision zero it is the last frame let in, or the start. */
  ghost predicate Wins<T(!new)>(f: Frame<T>, start: Frame<T>, frames: seq<Frame<T>>, strict: bool)
  {
    && AtMost(frames, f.revision)
    && (f.revision > 0 ==> exists i: nat :: FirstAt(frames, i) && frames[i] == f)
    && (f.revision == 0 ==> f == if strict || frames == [] then start else frames[|frames| - 1])
  }

  lemma {:induction false} FinalWins<T(!new)>(start: Frame<T>, frames: seq<Frame<T>>, strict: bool)
    requires start.revision == 0
    ensures Wins(Final(start, frames, strict), start, frames, strict)
  {
    if frames != [] {
      var init, f := frames[..|frames| - 1], frames[|frames| - 1];
      FinalWins(start, init, strict);
      var w := Final(start, init, strict);
      assert forall i :: 0 <= i < |init| ==> frames[i] == init[i];
      if Gate(w, f, strict) == w && w.revision > 0 {
        var i: nat :| FirstAt(init, i) && init[i] == w;
        assert FirstAt(frames, i);
      } else {
        assert f.revision > 0 ==> FirstAt(frames, |init|);
      }
    }
  }

  lemma WinnerAtMost<T(!new)>(f: Frame<T>, g: Frame<T>, start: Frame<T>, frames: seq<Frame<T>>, strict: bool)
    requires Wins(f, start, frames, strict) && AtMost(frames, g.revision)
    ensures f.revision <= g.revision
  {
    if f.revision > 0 {
      var i: nat :| FirstAt(frames, i) && frames[i] == f;
    }
  }

  /** The winner is determined by the frames. */
  lemma WinnerUnique<T(!new)>(f: Frame<T>, g: Frame<T>, start: Frame<T>, frames: seq<Frame<T>>, strict: bool)
    requires Wins(f, start, frames, strict) && Wins(g, start, frames, strict)
    ensures f == g
  {
    WinnerAtMost(f, g, start, frames, strict);
    WinnerAtMost(g, f, start, frames, strict);
    if f.revision > 0 {
      var i: nat :| FirstAt(frames, i) && frames[i] == f;
      var j: nat :| FirstAt(frames, j) && frames[j] == g;
      assert i == j;
    }
  }

  // ---------------------------------------------------------------- reordering

  function Frames<T(==)>(frames: seq<Frame<T>>): set<Frame<T>>
  {
    set f | f in frames
  }

  /** Every order and multiplicity of delivery of these frames leads to one result. */
  ghost predicate OrderFree<T(!new)>(start: Frame<T>, frames: set<Frame<T>>, strict: bool)
  {
    forall xs, ys :: Frames(xs) == frames && Frames(ys) == frames ==>
      Final(start, xs, strict) == Final(start, ys, strict)
  }

  /** A frame of the highest revision that can take effect at all. */
  ghost predicate IsTop<T(!new)>(f: Frame<T>, frames: set<Frame<T>>, strict: bool)
  {
    f in frames && (strict ==> f.revision > 0) && forall g :: g in frames ==> g.revision <= f.revision
  }

  lemma {:induction false} SomeOrder<T(!new)>(frames: set<Frame<T>>) returns (xs: seq<Frame<T>>)
    ensures Frames(xs) == frames
    decreases |frames|
  {
    if frames == {} {
      xs := [];
    } else {
      var f :| f in frames;
      var rest := SomeOrder(frames - {f});
      xs := rest + [f];
      assert Frames(xs) == Frames(rest) + {f};
    }
  }

  lemma {:induction false} FirstTopWins<T(!new)>(start: Frame<T>, a: Frame<T>, rest: seq<Frame<T>>, strict: bool)
    requires start.revision == 0 < a.revision && forall f :: f in rest ==> f.revision <= a.revision
    ensures Final(start, [a] + rest, strict) == a
    decreases |rest|
  {
    if rest == [] {
      assert ([a] + rest)[..0] == [];
    } else {
      assert ([a] + rest)[..|rest|] == [a] + rest[..|rest| - 1];
      FirstTopWins(start, a, rest[..|rest| - 1], strict);
      assert rest[|rest| - 1] in rest;
    }
  }

  /** Any order ends in a top frame, or in the start when no frame takes effect. */
  lemma FinalIsTop<T(!new)>(start: Frame<T>, xs: seq<Frame<T>>, strict: bool)
    requires start.revision == 0
    ensures var f := Final(start, xs, strict);
      IsTop(f, Frames(xs), strict) || (f == start && forall g :: g in xs ==> strict && g.revision == 0)
  {
    FinalWins(start, xs, strict);
    var f := Final(start, xs, strict);
    forall g | g in xs
      ensures g.revision <= f.revision
    {
      var i :| 0 <= i < |xs| && xs[i] == g;
    }
    if f.revision > 0 {
      var i: nat :| FirstAt(xs, i) && xs[i] == f;
    }
  }

  lemma LastZeroWins<T(!new)>(start: Frame<T>, xs: seq<Frame<T>>)
    requires start.revision == 0 && xs != [] && AtMost(xs, 0)
    ensures Final(start, xs, false) == xs[|xs| - 1]
  {
    FinalWins(start, xs, false);
    WinnerAtMost(Final(start, xs, false), start, start, xs, false);
  }

  /** Two different frames of the top revision: the one delivered first wins, or with
      revision zero the one delivered last. */
  lemma TieDependsOnOrder<T(!new)>(start: Frame<T>, frames: set<Frame<T>>, a: Frame<T>, b: Frame<T>, strict: bool)
    requires start.revision == 0 && IsTop(a, frames, strict) && IsTop(b, frames, strict) && a != b
    ensures !OrderFree(start, frames, strict)
  {
    var rest := SomeOrder(frames);
    if a.revision != 0 {
      var xs, ys := [a] + rest, [b] + rest;
      assert Frames(xs) == frames && Frames(ys) == frames;
      FirstTopWins(start, a, rest, strict);
      FirstTopWins(start, b, rest, strict);
    } else {
      var xs, ys := rest + [a], rest + [b];
      assert Frames(xs) == frames && Frames(ys) == frames;
      assert forall i :: 0 <= i < |xs| ==> xs[i] in frames;
      assert forall i :: 0 <= i < |ys| ==> ys[i] in frames;
      LastZeroWins(start, xs);
      LastZeroWins(start, ys);
    }
  }

  /** Reordering and duplication are harmless if and only if the top revision belongs to one
      frame. Distinct non-zero revisions are the intended case. */
  lemma OrderFreeExactly<T(!new)>(start: Frame<T>, frames: set<Frame<T>>, strict: bool)
    requires start.revision == 0
    ensures OrderFree(start, frames, strict) <==>
            forall a, b :: IsTop(a, frames, strict) && IsTop(b, frames, strict) ==> a == b
  {
    if forall a, b :: IsTop(a, frames, strict) && IsTop(b, frames, strict) ==> a == b {
      forall xs, ys | Frames(xs) == frames && Frames(ys) == frames
        ensures Final(start, xs, strict) == Final(start, ys, strict)
      {
        FinalIsTop(start, xs, strict);
        FinalIsTop(start, ys, strict);
        assert forall g :: g in xs <==> g in ys by {
          assert forall g :: g in xs <==> g in Frames(xs);
          assert forall g :: g in ys <==> g in Frames(ys);
        }
      }
    } else {
      var a, b :| IsTop(a, frames, strict) && IsTop(b, frames, strict) && a != b;
      TieDependsOnOrder(start, frames, a, b, strict);
    }
  }

  // ---------------------------------------------------------------- the two configurations

  /** NodeProxyConfig. */
  datatype Proxy = Proxy(mode: string, url: string, urlPrefix: string)

  const DIRECT := Frame(0, Proxy("", "", ""))

  /** NodePublicIPLookupConfig. */
  datatype Urls = Urls(v4: seq<string>, v6: seq<string>)

  const NO_URLS := Frame(0, Urls([], []))

  datatype Family = V4 | V6

  /** One address family's share of publicIPState. */
  datatype Address = Address(urls: seq<string>, ip: string, disabled: bool)

  /** A resolveFamily goroutine: the revision it was started under. */
  datatype Lookup = Lookup(revision: nat, family: Family)

  datatype State = State(revision: nat, v4: Address, v6: Address, lookups: seq<Lookup>)

  const UNSET := State(0, Address([], "", false), Address([], "", false), [])

  function Applied(s: State): Frame<Urls>
  {
    Frame(s.revision, Urls(s.v4.urls, s.v6.urls))
  }

  datatype Step =
    | Configure(config: Frame<Urls>)
    | Refresh                          // refreshPublicIPs starts its lookups
    | Resolved(at: nat, ip: string)    // lookup at succeeds
    | Unresolved(at: nat)

  predicate Enabled(s: State, step: Step)
  {
    match step
    case Configure(_) => true
    case Refresh => true
    case Resolved(at, _) => at < |s.lookups|
    case Unresolved(at) => at < |s.lookups|
  }

  function Configured(a: Address, urls: seq<string>): Address
  {
    Address(urls, if urls == [] then "" else a.ip, urls == [])
  }

  function Of(s: State, f: Family): Address
  {
    if f.V4? then s.v4 else s.v6
  }

  function Started(a: Address, revision: nat, f: Family): seq<Lookup>
  {
    if a.urls == [] then [] else [Lookup(revision, f)]
  }

  function Finished(s: State, at: nat): State
    requires at < |s.lookups|
  {
    s.(lookups := s.lookups[..at] + s.lookups[at + 1..])
  }

  function Apply(s: State, step: Step): State
    requires Enabled(s, step)
  {
    match step
    case Configure(c) =>
      if c.revision <= s.revision then s
      else s.(revision := c.revision, v4 := Configured(s.v4, c.body.v4), v6 := Configured(s.v6, c.body.v6))
    case Refresh =>
      if s.revision == 0 then s
      else s.(lookups := s.lookups + Started(s.v4, s.revision, V4) + Started(s.v6, s.revision, V6))
    case Resolved(at, ip) =>
      var l, s' := s.lookups[at], Finished(s, at);
      if l.revision != s.revision then s'
      else if l.family.V4? then s'.(v4 := s.v4.(ip := ip, disabled := false))
      else s'.(v6 := s.v6.(ip := ip, disabled := false))
    case Unresolved(at) => Finished(s, at)
  }

  predicate ValidRun(s: State, steps: seq<Step>)
    decreases |steps|
  {
    steps == [] || (Enabled(s, steps[0]) && ValidRun(Apply(s, steps[0]), steps[1..]))
  }

  function Exec(s: State, steps: seq<Step>): State
    requires ValidRun(s, steps)
    decreases |steps|
  {
    if steps == [] then s else Exec(Apply(s, steps[0]), steps[1..])
  }

  // ---------------------------------------------------------------- what a run keeps

  predicate FamilySound(a: Address)
  {
    (a.disabled <==> a.urls == []) && (a.disabled ==> a.ip == "")
  }

  /** A lookup of the current revision belongs to a family that has sources. */
  predicate LookupSound(s: State, l: Lookup)
  {
    0 < l.revision <= s.revision && (l.revision == s.revision ==> Of(s, l.family).urls != [])
  }

  ghost predicate Inv(s: State)
  {
    && (s.revision > 0 ==> FamilySound(s.v4) && FamilySound(s.v6))
    && (s.revision == 0 ==> s.v4 == UNSET.v4 && s.v6 == UNSET.v6)
    && (forall i :: 0 <= i < |s.lookups| ==> LookupSound(s, s.lookups[i]))
  }

  lemma InvStep(s: State, step: Step)
    requires Enabled(s, step) && Inv(s)
    ensures Inv(Apply(s, step))
  {
  }

  lemma {:induction false} InvRun(s: State, steps: seq<Step>)
    requires ValidRun(s, steps) && Inv(s)
    ensures Inv(Exec(s, steps))
    decreases |steps|
  {
    if steps != [] {
      InvStep(s, steps[0]);
      InvRun(Apply(s, steps[0]), steps[1..]);
    }
  }

  /** The configurations a run received, in order. */
  function Received(steps: seq<Step>): seq<Frame<Urls>>
  {
    if steps == [] then []
    else
      var init, last := Received(steps[..|steps| - 1]), steps[|steps| - 1];
      if last.Configure? then init + [last.config] else init
  }

  lemma {:induction false} ExecSnoc(s: State, steps: seq<Step>)
    requires ValidRun(s, steps) && steps != []
    ensures var init := steps[..|steps| - 1];
      ValidRun(s, init) && Enabled(Exec(s, init), steps[|steps| - 1])
      && Exec(s, steps) == Apply(Exec(s, init), steps[|steps| - 1])
    decreases |steps|
  {
    if |steps| > 1 {
      ExecSnoc(Apply(s, steps[0]), steps[1..]);
      assert steps[1..][..|steps| - 2] == steps[..|steps| - 1][1..];
    } else {
      assert steps[1..] == [];
    }
  }

  lemma {:induction false} AppliedIsFinal(steps: seq<Step>)
    requires ValidRun(UNSET, steps)
    ensures Applied(Exec(UNSET, steps)) == Final(NO_URLS, Received(steps), true)
    decreases |steps|
  {
    if steps != [] {
      var init, last := steps[..|steps| - 1], steps[|steps| - 1];
      ExecSnoc(UNSET, steps);
      AppliedIsFinal(init);
      if last.Configure? {
        assert Received(steps)[..|Received(init)|] == Received(init);
      }
    }
  }

  /** Whatever lookups were in flight: the sources in force are those of the highest revision
      received, of the first frame that carried it; none are until a non-zero revision came.
      Once some are, a family is disabled exactly when it has no source, and then it shows
      no address. */
  lemma PublicIpConverges(steps: seq<Step>)
    requires ValidRun(UNSET, steps)
    ensures var s := Exec(UNSET, steps);
      && Wins(Applied(s), NO_URLS, Received(steps), true)
      && (s.revision > 0 ==> FamilySound(s.v4) && FamilySound(s.v6))
  {
    AppliedIsFinal(steps);
    FinalWins(NO_URLS, Received(steps), true);
    InvRun(UNSET, steps);
  }

  /** Every run that receives just these configurations, whatever else happens in it, ends
      with the same one in force. */
  ghost predicate RunsAgree(frames: set<Frame<Urls>>)
  {
    forall a, b ::
      ValidRun(UNSET, a) && ValidRun(UNSET, b) && Frames(Received(a)) == frames && Frames(Received(b)) == frames ==>
      Applied(Exec(UNSET, a)) == Applied(Exec(UNSET, b))
  }

  function Deliver(frames: seq<Frame<Urls>>): seq<Step>
  {
    if frames == [] then [] else Deliver(frames[..|frames| - 1]) + [Configure(frames[|frames| - 1])]
  }

  lemma {:induction false} Delivered(frames: seq<Frame<Urls>>)
    ensures ValidRun(UNSET, Deliver(frames)) && Received(Deliver(frames)) == frames
  {
    if frames != [] {
      var init, last := frames[..|frames| - 1], Configure(frames[|frames| - 1]);
      Delivered(init);
      ConfigureLast(UNSET, Deliver(init), last);
      assert Deliver(frames)[..|Deliver(init)|] == Deliver(init);
      assert init + [frames[|frames| - 1]] == frames;
    }
  }

  lemma {:induction false} ConfigureLast(s: State, steps: seq<Step>, last: Step)
    requires ValidRun(s, steps) && last.Configure?
    ensures ValidRun(s, steps + [last])
    decreases |steps|
  {
    if steps == [] {
      assert [last][1..] == [];
    } else {
      assert (steps + [last])[1..] == steps[1..] + [last];
      ConfigureLast(Apply(s, steps[0]), steps[1..], last);
    }
  }

  /** Reordered and repeated configurations end the same if and only if one frame alone has
      the highest non-zero revision. */
  lemma LookupOrderFreeExactly(frames: set<Frame<Urls>>)
    ensures RunsAgree(frames) <==> forall a, b :: IsTop(a, frames, true) && IsTop(b, frames, true) ==> a == b
  {
    OrderFreeExactly(NO_URLS, frames, true);
    if OrderFree(NO_URLS, frames, true) {
      forall a, b |
          ValidRun(UNSET, a) && ValidRun(UNSET, b) && Frames(Received(a)) == frames && Frames(Received(b)) == frames
        ensures Applied(Exec(UNSET, a)) == Applied(Exec(UNSET, b))
      {
        AppliedIsFinal(a);
        AppliedIsFinal(b);
      }
    } else {
      var xs, ys :|
        Frames(xs) == frames && Frames(ys) == frames && Final(NO_URLS, xs, true) != Final(NO_URLS, ys, true);
      Delivered(xs);
      Delivered(ys);
      AppliedIsFinal(Deliver(xs));
      AppliedIsFinal(Deliver(ys));
    }
  }

  /** An address is only ever replaced by a lookup of the revision in force, and then the
      family has sources; a configuration can only clear it. */
  lemma StoresOnlyCurrent(steps: seq<Step>, step: Step, f: Family)
    requires ValidRun(UNSET, steps) && Enabled(Exec(UNSET, steps), step)
    ensures var s := Exec(UNSET, steps); var s' := Apply(s, step);
      Of(s', f).ip != Of(s, f).ip ==>
        || (step.Resolved? && s.lookups[step.at] == Lookup(s.revision, f) && Of(s', f).ip == step.ip
            && Of(s, f).urls != [] && !Of(s, f).disabled)
        || (step.Configure? && step.config.revision > s.revision && Of(s', f).ip == "" && Of(s', f).disabled)
  {
    InvRun(UNSET, steps);
    var s := Exec(UNSET, steps);
    if step.Resolved? {
      assert LookupSound(s, s.lookups[step.at]);
    }
  }

  // ---------------------------------------------------------------- the client object

  class ConfigStore {
    var proxy: Frame<Proxy>
    var revision: nat
    var v4: Address
    var v6: Address
    ghost var proxies: seq<Frame<Proxy>>    // frames received
    ghost var configs: seq<Frame<Urls>>
    ghost var started: seq<Lookup>          // lookups started so far

    ghost function Lookups(): State
      reads this
    {
      State(revision, v4, v6, started)
    }

    /** The stored proxy and sources are the winners of all frames received, families and
        lookups are sound. */
    ghost predicate Valid()
      reads this
    {
      && Wins(proxy, DIRECT, proxies, false)
      && Wins(Applied(Lookups()), NO_URLS, configs, true)
      && Inv(Lookups())
    }

    constructor ()
      ensures Valid() && proxies == [] && configs == [] && started == []
    {
      proxy, revision, v4, v6 := DIRECT, 0, UNSET.v4, UNSET.v6;
      proxies, configs, started := [], [], [];
    }

    /** The proxy in force is the winner of one frame more. */
    method ApplyNodeProxyConfig(frame: Frame<Proxy>)
      requires Valid()
      modifies this`proxy, this`proxies
      ensures Valid() && proxies == old(proxies) + [frame]
      ensures AtMost(proxies, proxy.revision) && proxy.revision >= old(proxy).revision
      ensures frame.revision > old(proxy).revision ==> proxy == frame
    {
      GateWins(proxy, DIRECT, proxies, frame, false);
      proxies := proxies + [frame];
      if frame.revision <= proxy.revision && proxy.revision != 0 {
        return;
      }
      proxy := frame;
    }

    /** The sources in force are the winner of one configuration more; a family loses its
        address only by losing its sources. */
    method ApplyPublicIPConfig(config: Frame<Urls>)
      requires Valid()
      modifies this`revision, this`v4, this`v6, this`configs
      ensures Valid() && configs == old(configs) + [config]
      ensures AtMost(configs, revision) && revision >= old(revision)
      ensures revision > 0 ==> FamilySound(v4) && FamilySound(v6)
      ensures (v4.ip == old(v4).ip || v4.urls == []) && (v6.ip == old(v6).ip || v6.urls == [])
    {
      GateWins(Applied(Lookups()), NO_URLS, configs, config, true);
      InvStep(Lookups(), Configure(config));
      configs := configs + [config];
      if config.revision <= revision {
        return;
      }
      revision := config.revision;
      v4 := v4.(urls := config.body.v4, disabled := config.body.v4 == []);
      v6 := v6.(urls := config.body.v6, disabled := config.body.v6 == []);
      if v4.disabled {
        v4 := v4.(ip := "");
      }
      if v6.disabled {
        v6 := v6.(ip := "");
      }
    }

    /** refreshPublicIPs: one lookup per family with sources, none before any configuration. */
    method StartLookups() returns (lookups: seq<Lookup>)
      requires Valid()
      modifies this`started
      ensures Valid() && started == old(started) + lookups
      ensures forall l :: l in lookups <==> l.revision == revision > 0 && Of(Lookups(), l.family).urls != []
    {
      lookups := [];
      InvStep(Lookups(), Refresh);
      if revision != 0 {
        if |v4.urls| > 0 {
          lookups := lookups + [Lookup(revision, V4)];
        }
        if |v6.urls| > 0 {
          lookups := lookups + [Lookup(revision, V6)];
        }
      }
      started := started + lookups;
      assert started == old(started) + Started(v4, revision, V4) + Started(v6, revision, V6) || revision == 0;
    }

    /** A result is stored exactly when its lookup belongs to the revision in force, and then
        only for its family; the families stay sound. */
    method UpdatePublicIPResult(lookup: Lookup, ip: string)
      requires Valid() && lookup in started
      modifies this`v4, this`v6
      ensures Valid() && FamilySound(v4) && FamilySound(v6)
      ensures lookup.revision == revision ==>
                Of(Lookups(), lookup.family) == old(Of(Lookups(), lookup.family)).(ip := ip)
      ensures lookup.revision != revision ==> v4 == old(v4) && v6 == old(v6)
      ensures if lookup.family.V4? then v6 == old(v6) else v4 == old(v4)
    {
      assert LookupSound(Lookups(), lookup);
      if lookup.revision != revision {
        return;
      }
      if lookup.family.V4? {
        v4 := v4.(ip := ip, disabled := false);
      } else {
        v6 := v6.(ip := ip, disabled := false);
      }
    }
  }

  lemma GateWins<T(!new)>(f: Frame<T>, start: Frame<T>, frames: seq<Frame<T>>, g: Frame<T>, strict: bool)
    requires start.revision == 0 && Wins(f, start, frames, strict)
    ensures Wins(Gate(f, g, strict), start, frames + [g], strict)
  {
    FinalWins(start, frames, strict);
    WinnerUnique(f, Final(start, frames, strict), start, frames, strict);
    FinalWins(start, frames + [g], strict);
    assert (frames + [g])[..|frames|] == frames;
  }
}
