/** Platform resources in the operator's home (execution/systemenv.go): installs that skip
    what is already there, removals limited to the platform's own manifest, and a manifest
    saved only when the whole call succeeds. */
module SystemEnv {
  import opened Text

  datatype Kind = Skill | Plugin

  /** A resource named by a frame: its trimmed name, and its directory's name. */
  datatype Ref = Ref(kind: Kind, name: string, safe: string)

  datatype Dir = AgentsSkills | ClaudeSkills | AgentsPlugins

  /** A resource directory: a discovery directory and a sanitized name. */
  datatype Place = Place(dir: Dir, safe: string)

  type Content = string
  type Tree = map<Place, Content>

  // ---------------------------------------------------------------- names

  predicate Kept(c: char)
  {
    'a' <= c <= 'z' || 'A' <= c <= 'Z' || '0' <= c <= '9' || c == '-' || c == '_'
  }

  predicate IsDash(c: char)
  {
    c == '-'
  }

  /** sanitizeSessionDir: not injective. */
  function SafeName(name: string): string
  {
    var out := TrimRight(TrimLeft(Dashed(name), IsDash), IsDash);
    if out == [] then "session" else out
  }

  predicate AllKept(s: string)
  {
    forall i :: 0 <= i < |s| ==> Kept(s[i])
  }

  predicate Plain(s: string)
  {
    s != [] && !IsDash(s[0]) && !IsDash(s[|s| - 1]) && AllKept(s)
  }

  function Dashed(name: string): (r: string)
    ensures |r| == |name| && AllKept(r)
    ensures forall i :: 0 <= i < |name| ==> r[i] == if Kept(name[i]) then name[i] else '-'
  {
    seq(|name|, i requires 0 <= i < |name| => if Kept(name[i]) then name[i] else '-')
  }

  lemma DashedSame(name: string)
    requires AllKept(name)
    ensures Dashed(name) == name
  {
  }

  lemma CoreKept(s: string, r: string, at: nat)
    requires AllKept(s) && Core(s, r, at, IsDash)
    ensures r != "" ==> Plain(r)
  {
    assert forall i :: 0 <= i < |r| ==> r[i] == s[at + i];
  }

  predicate AllDashes(s: string)
  {
    forall i :: 0 <= i < |s| ==> IsDash(s[i])
  }

  lemma CoreEmpty(s: string, r: string, at: nat)
    requires Core(s, r, at, IsDash)
    ensures r == "" <==> AllDashes(s)
  {
    assert r != "" ==> r[0] == s[at];
  }

  lemma TrimmedName(name: string, r: string) returns (at: nat)
    requires r == TrimRight(TrimLeft(Dashed(name), IsDash), IsDash)
    ensures (r != "" ==> Plain(r)) && Core(Dashed(name), r, at, IsDash) && (r == "" <==> AllDashes(Dashed(name)))
  {
    at := TrimCore(Dashed(name), IsDash);
    CoreKept(Dashed(name), r, at);
    CoreEmpty(Dashed(name), r, at);
  }

  lemma PlainStays(name: string)
    requires Plain(name)
    ensures SafeName(name) == name
  {
    DashedSame(name);
    TrimKeeps(name, IsDash);
  }

  /** A directory name is always plain, so it names one entry of its parent. A plain name is
      its own; any other is its characters with the rest dashed, without the outer dashes. */
  lemma SafeNameMeans(name: string) returns (at: nat)
    ensures Plain(SafeName(name))
    ensures Plain(name) ==> SafeName(name) == name
    ensures if AllDashes(Dashed(name)) then SafeName(name) == "session"
            else Core(Dashed(name), SafeName(name), at, IsDash)
  {
    at := TrimmedName(name, TrimRight(TrimLeft(Dashed(name), IsDash), IsDash));
    if Plain(name) {
      PlainStays(name);
    }
  }

  function RefOf(kind: Kind, name: string): Ref
  {
    Ref(kind, name, SafeName(name))
  }

  /** systemEnvInstallDirs, with the resource's directory under each. */
  function Places(ref: Ref): (r: seq<Place>)
    ensures |r| > 0
  {
    match ref.kind
    case Skill => [Place(AgentsSkills, ref.safe), Place(ClaudeSkills, ref.safe)]
    case Plugin => [Place(AgentsPlugins, ref.safe)]
  }

  function KindName(kind: Kind): string
  {
    match kind case Skill => "skill" case Plugin => "plugin"
  }

  /** systemEnvManifestKey for a trimmed name. */
  function Key(ref: Ref): string
  {
    KindName(ref.kind) + "/" + ref.name
  }

  function LowerChar(c: char): char
  {
    if 'A' <= c <= 'Z' then (c as int + 32) as char else c
  }

  function Lower(s: string): string
  {
    seq(|s|, i requires 0 <= i < |s| => LowerChar(s[i]))
  }

  /** strings.Cut at the first slash. */
  function Cut(s: string): (r: Option<(string, string)>)
    ensures r.None? <==> '/' !in s
    ensures r.Some? ==> s == r.value.0 + "/" + r.value.1 && '/' !in r.value.0
  {
    if s == [] then None
    else if s[0] == '/' then Some(([], s[1..]))
    else match Cut(s[1..])
      case None => None
      case Some((a, b)) => Some(([s[0]] + a, b))
  }

  function FromParts(k: string, n: string): Option<Ref>
  {
    var kind, name := Lower(TrimSpace(k)), TrimSpace(n);
    if name == [] then None
    else if kind == KindName(Skill) then Some(RefOf(Skill, name))
    else if kind == KindName(Plugin) then Some(RefOf(Plugin, name))
    else None
  }

  /** splitSystemEnvRef. */
  function ParseRef(value: string): Option<Ref>
  {
    match Cut(TrimSpace(value))
    case None => None
    case Some((k, n)) => FromParts(k, n)
  }

  predicate Trimmed(s: string)
  {
    s != [] && !IsSpace(s[0]) && !IsSpace(s[|s| - 1])
  }

  lemma TrimSame(s: string)
    requires Trimmed(s)
    ensures TrimSpace(s) == s
  {
    assert TrimLeft(s, IsSpace) == s;
  }

  lemma {:induction false} CutKey(a: string, b: string)
    requires '/' !in a
    ensures Cut(a + "/" + b) == Some((a, b))
  {
    if a == [] {
      assert ("" + "/" + b)[1..] == b;
    } else {
      assert (a + "/" + b)[1..] == a[1..] + "/" + b;
      CutKey(a[1..], b);
      assert [a[0]] + a[1..] == a;
    }
  }

  lemma KindNamePlain(kind: Kind)
    ensures Trimmed(KindName(kind)) && '/' !in KindName(kind) && Lower(KindName(kind)) == KindName(kind)
    ensures KindName(Skill) != KindName(Plugin)
  {
    assert KindName(Skill)[0] != KindName(Plugin)[0];
  }

  lemma KeyParts(kind: Kind, name: string)
    requires Trimmed(name)
    ensures Cut(TrimSpace(Key(RefOf(kind, name)))) == Some((KindName(kind), name))
  {
    var k, key := KindName(kind), KindName(kind) + "/" + name;
    KindNamePlain(kind);
    assert key[|key| - 1] == name[|name| - 1] && key[0] == k[0];
    TrimSame(key);
    CutKey(k, name);
  }

  lemma FromKeyParts(kind: Kind, name: string)
    requires Trimmed(name)
    ensures FromParts(KindName(kind), name) == Some(RefOf(kind, name))
  {
    KindNamePlain(kind);
    TrimSame(KindName(kind));
    TrimSame(name);
  }

  /** A manifest key names exactly one resource, slashes in names included: parsing it as a
      removal target gives the resource back. */
  lemma KeyRoundTrip(kind: Kind, name: string)
    requires Trimmed(name)
    ensures ParseRef(Key(RefOf(kind, name))) == Some(RefOf(kind, name))
  {
    KeyParts(kind, name);
    FromKeyParts(kind, name);
  }

  // ---------------------------------------------------------------- one call

  /** A decoded frame: blank names are carried and skipped, a removal that does not parse is None. */
  datatype Frame = Frame(installs: seq<Ref>, removes: seq<Option<Ref>>, overwrite: bool)

  /** What a fetch and its mirror copy did to their directories. */
  datatype Fetch =
    | NoDirectory
    | FetchFailed(left: Option<Content>)
    | Fetched(content: Option<Content>, mirror: Mirror)
  datatype Mirror = Mirrored | MirrorFailed(left: Option<Content>)

  /** RemoveAll fails on the at-th directory and leaves something of it. */
  datatype Removal = RemovedAll | RemoveFailed(at: nat, left: Option<Content>)

  datatype Save = Saved | NotWritten | Garbled

  datatype Outcomes = Outcomes(readable: bool, fetches: seq<Fetch>, removals: seq<Removal>, save: Save)

  predicate Fits(f: Frame, o: Outcomes)
  {
    |o.fetches| == |f.installs| && |o.removals| == |f.removes|
  }

  datatype Touch = Skipped(ref: Ref) | Installed(ref: Ref) | Removed(ref: Ref)

  /** The call so far: files, the manifest in memory, the report, and whether it goes on. */
  datatype Progress = Progress(tree: Tree, manifest: set<Ref>, touched: seq<Touch>, ok: bool)

  function SetPlace(tree: Tree, p: Place, c: Option<Content>): Tree
  {
    match c case None => tree - {p} case Some(v) => tree[p := v]
  }

  predicate Exists(tree: Tree, ref: Ref)
  {
    exists p :: p in Places(ref) && p in tree
  }

  /** The install closure. */
  function InstallOne(g: Progress, ref: Ref, overwrite: bool, out: Fetch): Progress
  {
    if ref.name == [] then g
    else if Exists(g.tree, ref) && !overwrite then g.(touched := g.touched + [Skipped(ref)])
    else
      match out
      case NoDirectory => g.(ok := false)
      case FetchFailed(left) => g.(tree := SetPlace(g.tree, Places(ref)[0], left), ok := false)
      case Fetched(content, mirror) =>
        var t := SetPlace(g.tree, Places(ref)[0], content);
        if ref.kind.Skill? && mirror.MirrorFailed? then
          g.(tree := SetPlace(t, Places(ref)[1], mirror.left), ok := false)
        else
          g.(tree := if ref.kind.Skill? then SetPlace(t, Places(ref)[1], content) else t,
             manifest := g.manifest + {ref}, touched := g.touched + [Installed(ref)])
  }

  /** The first n installs, up to the first failure. */
  function InstallFirst(g: Progress, f: Frame, o: Outcomes, n: nat): Progress
    requires Fits(f, o) && n <= |f.installs|
  {
    if n == 0 then g
    else
      var h := InstallFirst(g, f, o, n - 1);
      if h.ok then InstallOne(h, f.installs[n - 1], f.overwrite, o.fetches[n - 1]) else h
  }

  function Without(tree: Tree, places: seq<Place>, n: nat): Tree
    requires n <= |places|
  {
    if n == 0 then tree else Without(tree, places, n - 1) - {places[n - 1]}
  }

  /** One pass of the removal loop. */
  function RemoveOne(g: Progress, target: Option<Ref>, out: Removal): Progress
  {
    if target.None? || target.value !in g.manifest then g.(ok := false)
    else
      var places := Places(target.value);
      if out.RemoveFailed? && out.at < |places| then
        g.(tree := SetPlace(Without(g.tree, places, out.at), places[out.at], out.left), ok := false)
      else
        g.(tree := Without(g.tree, places, |places|), manifest := g.manifest - {target.value},
           touched := g.touched + [Removed(target.value)])
  }

  function RemoveFirst(g: Progress, f: Frame, o: Outcomes, n: nat): Progress
    requires Fits(f, o) && n <= |f.removes|
  {
    if n == 0 then g
    else
      var h := RemoveFirst(g, f, o, n - 1);
      if h.ok then RemoveOne(h, f.removes[n - 1], o.removals[n - 1]) else h
  }

  /** The home directory between calls: resource files and the manifest on disk. */
  datatype State = State(tree: Tree, manifest: set<Ref>)

  function Begin(s: State, o: Outcomes): Progress
  {
    Progress(s.tree, if o.readable then s.manifest else {}, [], true)
  }

  function Work(s: State, f: Frame, o: Outcomes): Progress
    requires Fits(f, o)
  {
    RemoveFirst(InstallFirst(Begin(s, o), f, o, |f.installs|), f, o, |f.removes|)
  }

  function Call(s: State, f: Frame, o: Outcomes): State
    requires Fits(f, o)
  {
    var g := Work(s, f, o);
    State(g.tree, if !g.ok || o.save.NotWritten? then s.manifest else if o.save.Saved? then g.manifest else {})
  }

  lemma {:induction false} InstallStops(g: Progress, f: Frame, o: Outcomes, n: nat)
    requires Fits(f, o) && n <= |f.installs| && !InstallFirst(g, f, o, n).ok
    ensures InstallFirst(g, f, o, |f.installs|) == InstallFirst(g, f, o, n)
    ensures RemoveFirst(InstallFirst(g, f, o, n), f, o, |f.removes|) == InstallFirst(g, f, o, n)
    decreases |f.installs| - n
  {
    if n < |f.installs| {
      InstallStops(g, f, o, n + 1);
    }
    RemoveStops(InstallFirst(g, f, o, n), f, o, 0);
  }

  lemma {:induction false} RemoveStops(g: Progress, f: Frame, o: Outcomes, n: nat)
    requires Fits(f, o) && n <= |f.removes| && !RemoveFirst(g, f, o, n).ok
    ensures RemoveFirst(g, f, o, |f.removes|) == RemoveFirst(g, f, o, n)
    decreases |f.removes| - n
  {
    if n < |f.removes| {
      RemoveStops(g, f, o, n + 1);
    }
  }
}
