/**
 Host ports of ctx.go and podman.go: a string-keyed table shared by the
 contexts derived from the one that made it, filled under qualified image ids
 and looked up by tagged ones.
 */
module Ports {
  import opened Wrappers
  import opened Text
  import Semver

  type Port = p: nat | p < 65536

  // ---- Image ids -----------------------------------------------------------------

  function Registry(): string {
    "docker.io"
  }

  function Docker(): string {
    Registry() + "/"
  }

  function Library(): string {
    Docker() + "library" + "/"
  }

  /** The fully qualified form of an image id, by the number of its slashes. */
  function QualifiedId(id: string): string {
    var n := Occurrences(id, '/');
    if n == 0 then Library() + id else if n == 1 then Docker() + id else id
  }

  lemma RegistryPlain()
    ensures '/' !in Registry() && ':' !in Registry()
  {
  }

  lemma PrefixSlashes()
    ensures Occurrences(Docker(), '/') == 1 && ':' !in Docker()
    ensures Occurrences(Library(), '/') == 2 && ':' !in Library()
  {
    RegistryPlain();
    hide Registry;
    OccurrencesNone(Registry(), '/');
    OccurrencesConcat(Registry(), "/", '/');
    OccurrencesNone("library", '/');
    OccurrencesConcat(Docker(), "library", '/');
    OccurrencesConcat(Docker() + "library", "/", '/');
    assert Occurrences("/", '/') == 1;
  }

  /** Qualifying twice is qualifying once. */
  lemma QualifiedIdempotent(id: string)
    ensures QualifiedId(QualifiedId(id)) == QualifiedId(id)
    ensures Occurrences(QualifiedId(id), '/') >= 2
  {
    PrefixSlashes();
    hide Docker, Library;
    OccurrencesConcat(Docker(), id, '/');
    OccurrencesConcat(Library(), id, '/');
  }

  predicate PlainTag(tag: string) {
    '/' !in tag && ':' !in tag
  }

  /** Tagging commutes with qualifying. */
  lemma QualifiedTag(id: string, tag: string)
    requires '/' !in tag
    ensures QualifiedId(id + ":" + tag) == QualifiedId(id) + ":" + tag
  {
    hide Docker, Library;
    OccurrencesConcat(id, ":" + tag, '/');
    OccurrencesNone(":" + tag, '/');
    assert id + ":" + tag == id + (":" + tag);
    assert Library() + (id + ":" + tag) == Library() + id + ":" + tag;
    assert Docker() + (id + ":" + tag) == Docker() + id + ":" + tag;
  }

  // ---- Registrations and lookup ----------------------------------------------------

  datatype Registration = Registration(id: string, svc: string, port: Port)

  /** The key a registration is stored under. */
  function Key(id: string, svc: string): string {
    if id != "" then QualifiedId(id) + ":" + svc else svc
  }

  /** The table after a sequence of registrations. */
  function Table(regs: seq<Registration>): map<string, Port> {
    if regs == [] then map[]
    else
      var r := regs[|regs| - 1];
      Table(regs[..|regs| - 1])[Key(r.id, r.svc) := r.port]
  }

  function HostPort(ports: map<string, Port>, id: string, svc: string, otherwise: Port): Port {
    var i := LastIndex(id, ':');
    if id + ":" + svc in ports then ports[id + ":" + svc]
    else if i != -1 && id[..i] + ":" + svc in ports then ports[id[..i] + ":" + svc]
    else if svc in ports then ports[svc]
    else otherwise
  }

  lemma TableAppend(regs: seq<Registration>, r: Registration)
    ensures Table(regs + [r]) == Table(regs)[Key(r.id, r.svc) := r.port]
  {
    assert (regs + [r])[..|regs|] == regs;
  }

  /** What a registration is about: one image, or every image. */
  datatype Target = OneImage(qualified: string) | AnyImage

  function TargetOf(r: Registration): Target {
    if r.id != "" then OneImage(QualifiedId(r.id)) else AnyImage
  }

  /** The port of the latest registration for a target and a service. */
  function Latest(regs: seq<Registration>, t: Target, svc: string): Option<Port> {
    if regs == [] then None
    else
      var r := regs[|regs| - 1];
      if TargetOf(r) == t && r.svc == svc then Some(r.port) else Latest(regs[..|regs| - 1], t, svc)
  }

  function TargetKey(t: Target, svc: string): string {
    match t
    case OneImage(q) => q + ":" + svc
    case AnyImage => svc
  }

  lemma ColonSplits(q: string, svc: string)
    requires ':' !in svc
    ensures var s := q + ":" + svc; LastIndex(s, ':') == |q| && s[..|q|] == q && s[|q| + 1..] == svc
  {
    LastIndexSplits(q, ':', svc);
  }

  // ---- Which services can be taken for each other -------------------------------------

  predicate EndsIn(s: string, t: string) {
    |t| <= |s| && s[|s| - |t|..] == t
  }

  /** One service is the end of the other, after a colon. */
  predicate Clash(svc: string, svc': string) {
    EndsIn(svc, ":" + svc') || EndsIn(svc', ":" + svc)
  }

  lemma EndHasColon(s: string, t: string)
    ensures EndsIn(s, ":" + t) ==> ':' in s
  {
    if EndsIn(s, ":" + t) {
      assert s[|s| - |t| - 1] == s[|s| - |t| - 1..][0] == ':';
    }
  }

  lemma PlainNeverClash(svc: string, svc': string)
    requires ':' !in svc && ':' !in svc'
    ensures !Clash(svc, svc')
  {
    EndHasColon(svc, svc');
    EndHasColon(svc', svc);
  }

  /** The longer of two equal keys' services ends in the shorter. */
  lemma EqualKeysClash(q: string, svc: string, k: string, svc': string)
    requires q + ":" + svc == k && |svc| < |svc'| && EndsIn(k, svc')
    ensures EndsIn(svc', ":" + svc)
  {
    assert k[|k| - |svc| - 1..] == ":" + svc;
    assert svc'[|svc'| - |svc| - 1..] == k[|k| - |svc'|..][|svc'| - |svc| - 1..] == k[|k| - |svc| - 1..];
  }

  lemma KeyEnds(t: Target, svc: string)
    ensures EndsIn(TargetKey(t, svc), svc)
    ensures t.OneImage? ==> EndsIn(TargetKey(t, svc), ":" + svc)
  {
    if t.OneImage? {
      assert t.qualified + ":" + svc == t.qualified + (":" + svc);
    }
  }

  /** Unless their services clash, targets and services are determined by their key. */
  lemma KeyInjective(t: Target, svc: string, t': Target, svc': string)
    requires !Clash(svc, svc')
    ensures TargetKey(t, svc) == TargetKey(t', svc') <==> t == t' && svc == svc'
  {
    var k := TargetKey(t, svc);
    if k == TargetKey(t', svc') {
      KeyEnds(t, svc);
      KeyEnds(t', svc');
      if |svc| == |svc'| {
        assert svc == k[|k| - |svc|..] == svc';
        assert t.OneImage? ==> t.qualified == k[..|k| - |svc| - 1];
        assert t'.OneImage? ==> t'.qualified == k[..|k| - |svc| - 1];
      } else if |svc| < |svc'| {
        if t.OneImage? { EqualKeysClash(t.qualified, svc, k, svc'); }
      } else {
        if t'.OneImage? { EqualKeysClash(t'.qualified, svc', k, svc); }
      }
    }
  }

  /** A target a registration can have. */
  predicate IsTarget(t: Target) {
    t.OneImage? ==> QualifiedId(t.qualified) == t.qualified
  }

  ghost predicate ShareKey(t: Target, svc: string, t': Target, svc': string) {
    IsTarget(t) && IsTarget(t') && (t != t' || svc != svc') && TargetKey(t, svc) == TargetKey(t', svc')
  }

  /** Some targets share a key under two services exactly when the services clash. */
  lemma KeysSharedIff(svc: string, svc': string)
    ensures (exists t, t' :: ShareKey(t, svc, t', svc')) <==> Clash(svc, svc')
  {
    if EndsIn(svc, ":" + svc') {
      Shadow(svc, svc');
    } else if EndsIn(svc', ":" + svc) {
      Shadow(svc', svc);
    } else {
      forall t, t'
        ensures !ShareKey(t, svc, t', svc')
      {
        KeyInjective(t, svc, t', svc');
      }
    }
    assert forall t, t' :: ShareKey(t', svc', t, svc) ==> ShareKey(t, svc, t', svc');
  }

  /** What stands before the colon, put on an image, makes another image. */
  function Rest(svc: string, svc': string): string
    requires EndsIn(svc, ":" + svc')
  {
    svc[..|svc| - |svc'| - 1]
  }

  function AnImage(): string {
    Library() + "x"
  }

  lemma Shadow(svc: string, svc': string)
    requires EndsIn(svc, ":" + svc')
    ensures ShareKey(OneImage(AnImage()), svc, OneImage(AnImage() + ":" + Rest(svc, svc')), svc')
  {
    Joined(AnImage(), svc, svc');
    SelfQualified(Rest(svc, svc'));
  }

  lemma Joined(q: string, svc: string, svc': string)
    requires EndsIn(svc, ":" + svc')
    ensures q + ":" + svc == q + ":" + Rest(svc, svc') + ":" + svc'
  {
    assert svc == Rest(svc, svc') + (":" + svc');
    assert q + ":" + (Rest(svc, svc') + (":" + svc')) == q + ":" + Rest(svc, svc') + ":" + svc';
  }

  lemma SelfQualified(x: string)
    ensures QualifiedId(AnImage()) == AnImage() && QualifiedId(AnImage() + ":" + x) == AnImage() + ":" + x
  {
    PrefixSlashes();
    hide Docker, Library;
    OccurrencesConcat(Library(), "x", '/');
    OccurrencesConcat(AnImage(), ":" + x, '/');
    assert AnImage() + ":" + x == AnImage() + (":" + x);
  }

  // ---- The lookup ------------------------------------------------------------------------

  /** No registered service clashes with this one. */
  ghost predicate NoClash(regs: seq<Registration>, svc: string) {
    forall i :: 0 <= i < |regs| ==> !Clash(regs[i].svc, svc)
  }

  /** The table holds, under each key, the port of the latest registration for it. */
  lemma {:induction false} TableHoldsLatest(regs: seq<Registration>, t: Target, svc: string)
    requires NoClash(regs, svc)
    ensures var k := TargetKey(t, svc);
            Latest(regs, t, svc) == if k in Table(regs) then Some(Table(regs)[k]) else None
    decreases |regs|
  {
    if regs != [] {
      var r := regs[|regs| - 1];
      TableHoldsLatest(regs[..|regs| - 1], t, svc);
      KeyInjective(TargetOf(r), r.svc, t, svc);
    }
  }

  function OrElse(p: Option<Port>, q: Port): Port {
    if p.Some? then p.value else q
  }

  /**
   The latest port registered for the tagged image, else for the image, else for
   the service alone, else the default.
   */
  function MostSpecificLatest(regs: seq<Registration>, id: string, tag: string, svc: string, otherwise: Port): Port {
    OrElse(Latest(regs, OneImage(QualifiedId(id + ":" + tag)), svc),
      OrElse(Latest(regs, OneImage(QualifiedId(id)), svc),
        OrElse(Latest(regs, AnyImage, svc), otherwise)))
  }

  /** Looking up a qualified tagged image gives that port, after any registrations of services that do not clash. */
  lemma LookupIsMostSpecificLatest(regs: seq<Registration>, id: string, tag: string, svc: string, otherwise: Port)
    requires NoClash(regs, svc) && PlainTag(tag)
    ensures HostPort(Table(regs), QualifiedId(id + ":" + tag), svc, otherwise)
         == MostSpecificLatest(regs, id, tag, svc, otherwise)
  {
    var q := QualifiedId(id);
    QualifiedTag(id, tag);
    ColonSplits(q, tag);
    hide QualifiedId, Table, Latest;
    TableHoldsLatest(regs, OneImage(q + ":" + tag), svc);
    TableHoldsLatest(regs, OneImage(q), svc);
    TableHoldsLatest(regs, AnyImage, svc);
  }

  /** One registration of svc' gives a lookup of svc a port that was registered for something else. */
  ghost predicate Misled(r: Registration, svc': string, id: string, tag: string, svc: string) {
    && r.svc == svc' && PlainTag(tag) && r.port == 1 && MostSpecificLatest([r], id, tag, svc, 0) == 0
    && HostPort(Table([r]), QualifiedId(id + ":" + tag), svc, 0) == 1
  }

  /** Lookups of a service can be misled by a registration of another exactly when the two clash. */
  lemma ClashMisleads(svc': string, svc: string)
    ensures (exists r, id, tag :: Misled(r, svc', id, tag, svc)) <==> Clash(svc', svc)
  {
    if EndsIn(svc', ":" + svc) {
      LongerMisleads(svc', svc);
    } else if EndsIn(svc, ":" + svc') {
      ShorterMisleads(svc', svc);
    } else {
      forall r, id, tag
        ensures !Misled(r, svc', id, tag, svc)
      {
        if r.svc == svc' && PlainTag(tag) {
          LookupIsMostSpecificLatest([r], id, tag, svc, 0);
        }
      }
    }
  }

  lemma LatestOfOne(r: Registration, t: Target, svc: string)
    requires r.svc != svc
    ensures Latest([r], t, svc) == None && Table([r]) == map[Key(r.id, r.svc) := r.port]
  {
    assert [r][..0] == [];
    assert Table([r][..0]) == map[];
  }

  /** A registration stored under the key of another service of an image misleads the lookup of that. */
  lemma StoredUnder(r: Registration, id: string, svc: string)
    requires r.port == 1 && r.svc != svc && QualifiedId(id) == id && Key(r.id, r.svc) == id + ":" + svc
    ensures Misled(r, r.svc, id, "t", svc)
  {
    hide QualifiedId, Key, Latest, Table;
    QualifiedTag(id, "t");
    ColonSplits(id, "t");
    LatestOfOne(r, OneImage(id), svc);
    LatestOfOne(r, OneImage(id + ":" + "t"), svc);
    LatestOfOne(r, AnyImage, svc);
    assert |id + ":" + "t" + ":" + svc| > |id + ":" + svc|;
  }

  /** The longer service, registered for an image, is stored under the key of the image that takes up its start. */
  lemma LongerMisleads(svc': string, svc: string)
    requires EndsIn(svc', ":" + svc)
    ensures exists r, id, tag :: Misled(r, svc', id, tag, svc)
  {
    var x := Rest(svc', svc);
    SelfQualified(x);
    Joined(AnImage(), svc', svc);
    ImageKeys(x, svc');
    hide AnImage, Key, QualifiedId, Misled;
    StoredUnder(Registration(AnImage(), svc', 1), AnImage() + ":" + x, svc);
  }

  /** The shorter one, registered for an image that ends in what the longer starts with, is stored under the longer. */
  lemma ShorterMisleads(svc': string, svc: string)
    requires EndsIn(svc, ":" + svc')
    ensures exists r, id, tag :: Misled(r, svc', id, tag, svc)
  {
    var x := Rest(svc, svc');
    SelfQualified(x);
    Joined(AnImage(), svc, svc');
    ImageKeys(x, svc');
    hide AnImage, Key, QualifiedId, Misled;
    StoredUnder(Registration(AnImage() + ":" + x, svc', 1), AnImage(), svc);
  }

  lemma ImageKeys(x: string, svc: string)
    ensures Key(AnImage(), svc) == AnImage() + ":" + svc
    ensures Key(AnImage() + ":" + x, svc) == AnImage() + ":" + x + ":" + svc
  {
    SelfQualified(x);
    hide QualifiedId, Docker, Library;
  }

  /** The concrete input: a service that is an image's key and the image's service. */
  lemma ColonServiceClashes()
    ensures Clash(Library() + "x:80", "80")
    ensures HostPort(Table([Registration("", Library() + "x:80", 1)]), Library() + "x", "80", 0) == 1
  {
    var svc := Library() + "x:80";
    assert svc[|svc| - 3..] == ":" + "80";
    assert Library() + "x" + ":" + "80" == svc;
    hide Library;
    LatestOfOne(Registration("", svc, 1), AnyImage, "80");
  }

  // ---- Contexts ----------------------------------------------------------------------

  /** The mutable map a context carries; the history is what the map is proved against. */
  class PortTable {
    var ports: map<string, Port>
    ghost var history: seq<Registration>

    ghost predicate Valid()
      reads this
    {
      ports == Table(history)
    }

    constructor ()
      ensures Valid() && history == []
    {
      ports, history := map[], [];
    }
  }

  /** A context, as far as port lookups see it: it has a table, its own or an ancestor's, or none. */
  datatype Context = Context(table: PortTable?)

  function Footprint(ctx: Context): set<object> {
    if ctx.table == null then {} else {ctx.table}
  }

  method WithPortMap(parent: Context, id: string, svc: string, port: Port) returns (ctx: Context)
    requires parent.table != null ==> parent.table.Valid()
    modifies Footprint(parent)
    ensures ctx.table != null && ctx.table.Valid()
    ensures if parent.table != null then ctx == parent else fresh(ctx.table)
    ensures ctx.table.history
         == (if parent.table != null then old(parent.table.history) else []) + [Registration(id, svc, port)]
  {
    ctx := parent;
    if ctx.table == null {
      var made := new PortTable();
      ctx := Context(made);
    }
    var table := ctx.table;
    TableAppend(table.history, Registration(id, svc, port));
    hide QualifiedId, Table;
    if id != "" {
      table.ports := table.ports[QualifiedId(id) + ":" + svc := port];
    } else {
      table.ports := table.ports[svc := port];
    }
    table.history := table.history + [Registration(id, svc, port)];
  }

  /** The lookup of ctx.go: the id as given, the id without its tag, the service alone, the default. */
  method HostPortMap(ctx: Context, id: string, svc: string, containerPort: Port, hostPort: Port) returns (p: Port)
    requires ctx.table != null ==> ctx.table.Valid()
    ensures p == HostPort(if ctx.table == null then map[] else Table(ctx.table.history), id, svc, hostPort)
  {
    var portMap: map<string, Port> := if ctx.table == null then map[] else ctx.table.ports;
    hide Table;
    var ids := [id];
    var i := LastIndex(id, ':');
    if i != -1 { ids := ids + [id[..i]]; }
    assert ids[0] == id && (i != -1 ==> ids[1] == id[..i]);
    var k := 0;
    while k < |ids|
      invariant 0 <= k <= |ids|
      invariant forall j :: 0 <= j < k ==> ids[j] + ":" + svc !in portMap
    {
      if ids[k] + ":" + svc in portMap {
        assert k == 0 || (ids[0] + ":" + svc !in portMap && ids[1] == id[..i]);
        return portMap[ids[k] + ":" + svc];
      }
      k := k + 1;
    }
    assert ids[0] + ":" + svc !in portMap;
    assert i != -1 ==> ids[1] + ":" + svc !in portMap;
    if svc in portMap { return portMap[svc]; }
    return hostPort;
  }

  /** The registrations of WithHostPortMap. */
  function HostPorts(): seq<Registration> {
    [Registration("postgres", "5432/tcp", 5432),
     Registration("heroiclabs/nakama", "7349/tcp", 7349),
     Registration("heroiclabs/nakama", "7350/tcp", 7350),
     Registration("heroiclabs/nakama", "7351/tcp", 7351)]
  }

  method WithHostPortMap(parent: Context) returns (ctx: Context)
    requires parent.table != null ==> parent.table.Valid()
    modifies Footprint(parent)
    ensures ctx.table != null && ctx.table.Valid()
    ensures if parent.table != null then ctx == parent else fresh(ctx.table)
    ensures ctx.table.history == (if parent.table != null then old(parent.table.history) else []) + HostPorts()
  {
    hide Table, Key, QualifiedId;
    ctx := WithPortMap(parent, "postgres", "5432/tcp", 5432);
    ctx := WithPortMap(ctx, "heroiclabs/nakama", "7349/tcp", 7349);
    ctx := WithPortMap(ctx, "heroiclabs/nakama", "7350/tcp", 7350);
    ctx := WithPortMap(ctx, "heroiclabs/nakama", "7351/tcp", 7351);
  }

  // ---- Pod ports -----------------------------------------------------------------------

  datatype Mapping = Mapping(containerPort: Port, protocol: string, hostPort: Port)

  /** A port number, an optional slash and a protocol; the number must fit sixteen bits. */
  function ParsePortMapping(s: string): Option<Mapping> {
    var i := LastIndex(s, '/');
    var number := if i == -1 then s else s[..i];
    var protocol := if i == -1 then "" else s[i + 1..];
    if Semver.IsNumber(number) && Semver.Value(number) < 65536
    then Some(Mapping(Semver.Value(number), protocol, 0))
    else None
  }

  /**
   A service definition parses exactly when its number part, all of it when it
   has no slash, is a sixteen-bit decimal, and gives back both parts.
   */
  lemma ParseServiceIff(number: string, protocol: string)
    requires '/' !in protocol
    ensures var r := ParsePortMapping(number + "/" + protocol);
            && (r.Some? <==> Semver.IsNumber(number) && Semver.Value(number) < 65536)
            && (r.Some? ==> r.value == Mapping(Semver.Value(number), protocol, 0))
    ensures '/' !in number ==>
              var r := ParsePortMapping(number);
              && (r.Some? <==> Semver.IsNumber(number) && Semver.Value(number) < 65536)
              && (r.Some? ==> r.value == Mapping(Semver.Value(number), "", 0))
  {
    LastIndexSplits(number, '/', protocol);
    assert "/" == ['/'];
  }

  /** An image: whether it could be inspected, and the services it exposes in whatever order the map gives them. */
  datatype Image = Image(id: string, inspected: bool, exposed: seq<string>)

  datatype PortError = NotInspected(id: string) | InvalidService(id: string, svc: string)

  predicate Publishable(image: Image) {
    image.inspected && forall k :: 0 <= k < |image.exposed| ==> ParsePortMapping(image.exposed[k]).Some?
  }

  /** The error is about the image, and names the first service at fault. */
  ghost predicate Fault(image: Image, e: PortError) {
    match e
    case NotInspected(id) => id == image.id && !image.inspected
    case InvalidService(id, svc) =>
      && id == image.id && image.inspected
      && exists k :: 0 <= k < |image.exposed| && image.exposed[k] == svc && ParsePortMapping(svc).None?
                     && forall j :: 0 <= j < k ==> ParsePortMapping(image.exposed[j]).Some?
  }

  function Published(ports: map<string, Port>, id: string, svc: string): Mapping
    requires ParsePortMapping(svc).Some?
  {
    var m := ParsePortMapping(svc).value;
    m.(hostPort := HostPort(ports, id, svc, m.hostPort))
  }

  /** The mappings of the first n services of an image. */
  function ImageMappings(ports: map<string, Port>, image: Image, n: nat): seq<Mapping>
    requires Publishable(image) && n <= |image.exposed|
  {
    seq(n, k requires 0 <= k < n => Published(ports, image.id, image.exposed[k]))
  }

  function PodMappings(ports: map<string, Port>, images: seq<Image>): seq<Mapping>
    requires forall i :: 0 <= i < |images| ==> Publishable(images[i])
  {
    if images == [] then []
    else
      var last := images[|images| - 1];
      PodMappings(ports, images[..|images| - 1]) + ImageMappings(ports, last, |last.exposed|)
  }

  function TableOf(ctx: Context): map<string, Port>
    reads Footprint(ctx)
  {
    if ctx.table == null then map[] else ctx.table.ports
  }

  ghost function HistoryOf(ctx: Context): seq<Registration>
    reads Footprint(ctx)
  {
    if ctx.table == null then [] else ctx.table.history
  }

  /** The services of the first n images. */
  function Offset(images: seq<Image>, n: nat): nat
    requires n <= |images|
  {
    if n == 0 then 0 else Offset(images, n - 1) + |images[n - 1].exposed|
  }

  /** A mapping is that of a service: its number and protocol, and the host port registered for the image. */
  ghost predicate MapsService(regs: seq<Registration>, image: string, svc: string, m: Mapping) {
    && ParsePortMapping(svc) == Some(Mapping(m.containerPort, m.protocol, 0))
    && m.hostPort == HostPort(Table(regs), image, svc, 0)
    && forall id, tag :: image == QualifiedId(id + ":" + tag) && PlainTag(tag) && NoClash(regs, svc)
         ==> m.hostPort == MostSpecificLatest(regs, id, tag, svc, 0)
  }

  lemma PublishedMaps(regs: seq<Registration>, image: string, svc: string)
    requires ParsePortMapping(svc).Some?
    ensures MapsService(regs, image, svc, Published(Table(regs), image, svc))
  {
    hide Table, HostPort, QualifiedId;
    forall id, tag | image == QualifiedId(id + ":" + tag) && PlainTag(tag) && NoClash(regs, svc)
      ensures HostPort(Table(regs), image, svc, 0) == MostSpecificLatest(regs, id, tag, svc, 0)
    {
      LookupIsMostSpecificLatest(regs, id, tag, svc, 0);
    }
  }

  /** Among all mappings, those of an image stand in one piece, after those of the images before. */
  lemma {:induction false} MappingsAt(regs: seq<Registration>, images: seq<Image>, i: nat, k: nat)
    requires forall j :: 0 <= j < |images| ==> Publishable(images[j])
    requires i < |images| && k < |images[i].exposed|
    ensures MapsAt(regs, images, PodMappings(Table(regs), images), i, k)
    decreases |images|
  {
    hide Table, MapsService, Published, ParsePortMapping;
    var n := |images| - 1;
    var init, last := images[..n], images[n];
    MappingsCount(Table(regs), init);
    OffsetInit(images, n, n);
    PodLast(Table(regs), images);
    if i < n {
      MappingsAt(regs, init, i, k);
      OffsetInit(images, n, i);
    } else {
      PublishedMaps(regs, last.id, last.exposed[k]);
      assert ImageMappings(Table(regs), last, |last.exposed|)[k] == Published(Table(regs), last.id, last.exposed[k]);
    }
  }

  lemma PodLast(ports: map<string, Port>, images: seq<Image>)
    requires images != [] && forall j :: 0 <= j < |images| ==> Publishable(images[j])
    ensures var last := images[|images| - 1];
            PodMappings(ports, images)
            == PodMappings(ports, images[..|images| - 1]) + ImageMappings(ports, last, |last.exposed|)
  {
  }

  lemma {:induction false} OffsetInit(images: seq<Image>, n: nat, i: nat)
    requires i <= n <= |images|
    ensures Offset(images[..n], i) == Offset(images, i)
  {
    if i > 0 {
      OffsetInit(images, n, i - 1);
    }
  }

  lemma {:induction false} MappingsCount(ports: map<string, Port>, images: seq<Image>)
    requires forall j :: 0 <= j < |images| ==> Publishable(images[j])
    ensures |PodMappings(ports, images)| == Offset(images, |images|)
    decreases |images|
  {
    if images != [] {
      var n := |images| - 1;
      MappingsCount(ports, images[..n]);
      OffsetInit(images, n, n);
    }
  }

  /** One mapping for each service of each image, image by image. */
  ghost predicate MapsAll(regs: seq<Registration>, images: seq<Image>, ms: seq<Mapping>) {
    && |ms| == Offset(images, |images|)
    && forall i, k :: 0 <= i < |images| && 0 <= k < |images[i].exposed| ==> MapsAt(regs, images, ms, i, k)
  }

  ghost predicate MapsAt(regs: seq<Registration>, images: seq<Image>, ms: seq<Mapping>, i: nat, k: nat)
    requires i < |images| && k < |images[i].exposed|
  {
    && Offset(images, i) + k < |ms|
    && MapsService(regs, images[i].id, images[i].exposed[k], ms[Offset(images, i) + k])
  }

  lemma AllMapped(regs: seq<Registration>, images: seq<Image>)
    requires forall j :: 0 <= j < |images| ==> Publishable(images[j])
    ensures MapsAll(regs, images, PodMappings(Table(regs), images))
  {
    hide Table, MapsAt, PodMappings, Publishable, Offset;
    MappingsCount(Table(regs), images);
    forall i, k | 0 <= i < |images| && 0 <= k < |images[i].exposed|
      ensures MapsAt(regs, images, PodMappings(Table(regs), images), i, k)
    {
      MappingsAt(regs, images, i, k);
    }
  }

  lemma TableIs(ctx: Context)
    requires ctx.table != null ==> ctx.table.Valid()
    ensures TableOf(ctx) == Table(HistoryOf(ctx))
  {
  }

  /**
   The port part of PodmanCreatePod: one mapping for each service of each image,
   in order, or the first image or service at fault.
   */
  method PodPorts(ctx: Context, images: seq<Image>) returns (r: Result<seq<Mapping>, PortError>)
    requires ctx.table != null ==> ctx.table.Valid()
    ensures r.Ok? <==> forall i :: 0 <= i < |images| ==> Publishable(images[i])
    ensures r.Ok? ==> MapsAll(HistoryOf(ctx), images, r.value)
    ensures r.Err? ==> exists i :: 0 <= i < |images| && Fault(images[i], r.error)
                         && forall j :: 0 <= j < i ==> Publishable(images[j])
  {
    hide HostPort, ParsePortMapping, Table, MapsAll;
    var mappings: seq<Mapping> := [];
    ghost var ports := TableOf(ctx);
    var i := 0;
    while i < |images|
      invariant 0 <= i <= |images|
      invariant forall j :: 0 <= j < i ==> Publishable(images[j])
      invariant mappings == PodMappings(ports, images[..i])
    {
      var image := images[i];
      if !image.inspected {
        assert Fault(image, NotInspected(image.id));
        return Err(NotInspected(image.id));
      }
      var found: seq<Mapping> := [];
      var k := 0;
      while k < |image.exposed|
        invariant 0 <= k <= |image.exposed|
        invariant forall j :: 0 <= j < k ==> ParsePortMapping(image.exposed[j]).Some?
        invariant |found| == k
        invariant forall j :: 0 <= j < k ==> found[j] == Published(ports, image.id, image.exposed[j])
      {
        var svc := image.exposed[k];
        var port := ParsePortMapping(svc);
        if port.None? {
          assert Fault(image, InvalidService(image.id, svc));
          return Err(InvalidService(image.id, svc));
        }
        var host := HostPortMap(ctx, image.id, svc, port.value.containerPort, port.value.hostPort);
        found := found + [port.value.(hostPort := host)];
        k := k + 1;
      }
      assert found == ImageMappings(ports, image, |image.exposed|);
      mappings := mappings + found;
      assert images[..i + 1][..i] == images[..i];
      i := i + 1;
    }
    assert images[..i] == images;
    TableIs(ctx);
    AllMapped(HistoryOf(ctx), images);
    return Ok(mappings);
  }

  // ---- The default services on the host --------------------------------------------------

  /**
   A registration that no later one replaces, and whose image has no
   registration of its own under the tag, decides the lookup of the tagged image.
   */
  lemma UnreplacedDecides(regs: seq<Registration>, i: nat, tag: string, otherwise: Port)
    requires i < |regs| && regs[i].id != "" && NoClash(regs, regs[i].svc) && PlainTag(tag)
    requires forall j :: i < j < |regs| ==> regs[j].svc != regs[i].svc || TargetOf(regs[j]) != TargetOf(regs[i])
    requires forall j :: 0 <= j < |regs| ==> TargetOf(regs[j]) != OneImage(QualifiedId(regs[i].id + ":" + tag))
    ensures HostPort(Table(regs), QualifiedId(QualifiedId(regs[i].id) + ":" + tag), regs[i].svc, otherwise)
            == regs[i].port
  {
    var r, q := regs[i], QualifiedId(regs[i].id);
    QualifiedIdempotent(r.id);
    QualifiedTag(r.id, tag);
    QualifiedTag(q, tag);
    hide Docker, Library, QualifiedId, Table, HostPort;
    LatestAt(regs, i);
    LatestNone(regs, OneImage(q + ":" + tag), r.svc);
    LookupIsMostSpecificLatest(regs, q, tag, r.svc, otherwise);
  }

  lemma {:induction false} LatestAt(regs: seq<Registration>, i: nat)
    requires i < |regs|
    requires forall j :: i < j < |regs| ==> regs[j].svc != regs[i].svc || TargetOf(regs[j]) != TargetOf(regs[i])
    ensures Latest(regs, TargetOf(regs[i]), regs[i].svc) == Some(regs[i].port)
    decreases |regs|
  {
    hide TargetOf;
    if i < |regs| - 1 {
      LatestAt(regs[..|regs| - 1], i);
    }
  }

  lemma {:induction false} LatestNone(regs: seq<Registration>, t: Target, svc: string)
    requires forall j :: 0 <= j < |regs| ==> TargetOf(regs[j]) != t
    ensures Latest(regs, t, svc) == None
    decreases |regs|
  {
    hide TargetOf;
    if regs != [] {
      LatestNone(regs[..|regs| - 1], t, svc);
    }
  }

  lemma QualifiedPlain(id: string)
    requires ':' !in id
    ensures ':' !in QualifiedId(id)
  {
    PrefixSlashes();
    hide Docker, Library, Occurrences;
  }

  /** The default registrations name four services and images without a colon. */
  lemma HostPortsPlain(i: nat)
    requires i < 4
    ensures HostPorts()[i].id != "" && ':' !in HostPorts()[i].id && ':' !in HostPorts()[i].svc
  {
  }

  lemma HostPortsDiffer(i: nat, j: nat)
    requires i < 4 && j < 4 && i != j
    ensures HostPorts()[j].svc != HostPorts()[i].svc
  {
    var a, b := HostPorts()[i].svc, HostPorts()[j].svc;
    assert a[3] != b[3];
  }

  /**
   On a context with just the default registrations, the images they name,
   under any tag and qualified or not, publish their services on the host ports
   of the same number: 5432 for Postgres, 7349 to 7351 for Nakama.
   */
  lemma DefaultServicesPublished(i: nat, tag: string, otherwise: Port)
    requires i < |HostPorts()| && PlainTag(tag)
    ensures var r := HostPorts()[i];
            && HostPort(Table(HostPorts()), QualifiedId(r.id + ":" + tag), r.svc, otherwise) == r.port
            && HostPort(Table(HostPorts()), QualifiedId(QualifiedId(r.id) + ":" + tag), r.svc, otherwise) == r.port
  {
    var regs := HostPorts();
    var r := regs[i];
    forall j | 0 <= j < 4
      ensures ':' !in QualifiedId(regs[j].id) && regs[j].id != "" && ':' !in regs[j].svc
    {
      HostPortsPlain(j);
      QualifiedPlain(regs[j].id);
    }
    forall j | 0 <= j < 4 && j != i
      ensures regs[j].svc != r.svc
    {
      HostPortsDiffer(i, j);
    }
    QualifiedTag(r.id, tag);
    QualifiedTag(QualifiedId(r.id), tag);
    QualifiedIdempotent(r.id);
    hide Docker, Library, QualifiedId, Table, HostPort, HostPorts;
    assert (QualifiedId(r.id) + ":" + tag)[|QualifiedId(r.id)|] == ':';
    forall j | 0 <= j < 4
      ensures !Clash(regs[j].svc, r.svc)
    {
      PlainNeverClash(regs[j].svc, r.svc);
    }
    UnreplacedDecides(regs, i, tag, otherwise);
  }

  /** The image ids the runner uses by default; the last one names the build image. */
  const POSTGRES_IMAGE := "docker.io/library/postgres"
  const NAKAMA_IMAGE := "docker.io/heroiclabs/nakama"

  lemma PostgresWhole()
    ensures Library() + "postgres" == POSTGRES_IMAGE
  {
  }

  lemma PostgresImage()
    ensures QualifiedId("postgres") == POSTGRES_IMAGE
  {
    hide Occurrences, Docker, Library;
    OccurrencesNone("postgres", '/');
    PostgresWhole();
  }

  lemma OneSlash(a: string, b: string)
    requires '/' !in a && '/' !in b
    ensures Occurrences(a + "/" + b, '/') == 1
  {
    OccurrencesNone(a, '/');
    OccurrencesNone(b, '/');
    OccurrencesConcat(a, "/", '/');
    OccurrencesConcat(a + "/", b, '/');
    assert Occurrences("/", '/') == 1;
  }

  lemma NakamaParts()
    ensures "heroiclabs" + "/" + "nakama" == "heroiclabs/nakama"
  {
  }

  lemma NakamaWhole()
    ensures Docker() + "heroiclabs/nakama" == NAKAMA_IMAGE
  {
  }

  lemma NakamaImage()
    ensures QualifiedId("heroiclabs/nakama") == NAKAMA_IMAGE
  {
    hide Occurrences, Docker, Library;
    OneSlash("heroiclabs", "nakama");
    NakamaParts();
    NakamaWhole();
  }

  lemma HostPortsAre()
    ensures var r := HostPorts();
            && |r| == 4 && r[0].id == "postgres" && r[1].id == r[2].id == r[3].id == "heroiclabs/nakama"
            && r[0].svc == "5432/tcp" && r[1].svc == "7349/tcp" && r[2].svc == "7350/tcp" && r[3].svc == "7351/tcp"
            && r[0].port == 5432 && r[1].port == 7349 && r[2].port == 7350 && r[3].port == 7351
  {
  }

  /** On a context with just the default registrations the images the runner uses by default get their four ports. */
  lemma RunnerImagesPublished(tag: string, otherwise: Port)
    requires PlainTag(tag)
    ensures var ports := Table(HostPorts());
            && HostPort(ports, QualifiedId(POSTGRES_IMAGE + ":" + tag), "5432/tcp", otherwise) == 5432
            && HostPort(ports, QualifiedId(NAKAMA_IMAGE + ":" + tag), "7349/tcp", otherwise) == 7349
            && HostPort(ports, QualifiedId(NAKAMA_IMAGE + ":" + tag), "7350/tcp", otherwise) == 7350
            && HostPort(ports, QualifiedId(NAKAMA_IMAGE + ":" + tag), "7351/tcp", otherwise) == 7351
  {
    hide Table, HostPort, HostPorts, QualifiedId;
    HostPortsAre();
    PostgresImage();
    NakamaImage();
    DefaultServicesPublished(0, tag, otherwise);
    DefaultServicesPublished(1, tag, otherwise);
    DefaultServicesPublished(2, tag, otherwise);
    DefaultServicesPublished(3, tag, otherwise);
  }

  lemma FourDigits(n: string)
    requires |n| == 4 && Semver.IsNumber(n)
    ensures Semver.Value(n) == 1000 * (n[0] - '0') as nat + 100 * (n[1] - '0') as nat
                             + 10 * (n[2] - '0') as nat + (n[3] - '0') as nat
  {
    assert Semver.Pow10(1) == 10 && Semver.Pow10(2) == 100 && Semver.Pow10(3) == 1000;
    assert n[1..][1..] == n[2..] && n[2..][1..] == n[3..] && n[3..][1..] == "";
    assert Semver.Value(n[3..]) == (n[3] - '0') as nat;
    assert Semver.Value(n[2..]) == 10 * (n[2] - '0') as nat + Semver.Value(n[3..]);
    assert Semver.Value(n[1..]) == 100 * (n[1] - '0') as nat + Semver.Value(n[2..]);
  }

  lemma FourDigitService(n: string)
    requires |n| == 4 && Semver.IsNumber(n)
    ensures var p := 1000 * (n[0] - '0') as nat + 100 * (n[1] - '0') as nat
                     + 10 * (n[2] - '0') as nat + (n[3] - '0') as nat;
            ParsePortMapping(n + "/" + "tcp") == Some(Mapping(p, "tcp", 0))
  {
    FourDigits(n);
    hide Semver.Value;
    ParseServiceIff(n, "tcp");
  }

  lemma DefaultServiceParses(i: nat)
    requires i < 4
    ensures ParsePortMapping(HostPorts()[i].svc) == Some(Mapping(HostPorts()[i].port, "tcp", 0))
  {
    hide ParsePortMapping;
    if i == 0 {
      FourDigitService("5432");
      assert "5432" + "/" + "tcp" == "5432/tcp";
    } else if i == 1 {
      FourDigitService("7349");
      assert "7349" + "/" + "tcp" == "7349/tcp";
    } else if i == 2 {
      FourDigitService("7350");
      assert "7350" + "/" + "tcp" == "7350/tcp";
    } else {
      FourDigitService("7351");
      assert "7351" + "/" + "tcp" == "7351/tcp";
    }
  }

  /** So a pod made on such a context maps each default service to the host port of its own number. */
  lemma PodPublishesDefaults(i: nat, tag: string)
    requires i < |HostPorts()| && PlainTag(tag)
    ensures var r := HostPorts()[i];
            && ParsePortMapping(r.svc).Some?
            && Published(Table(HostPorts()), QualifiedId(r.id + ":" + tag), r.svc) == Mapping(r.port, "tcp", r.port)
  {
    DefaultServiceParses(i);
    DefaultServicesPublished(i, tag, 0);
    hide ParsePortMapping, HostPorts, Table, QualifiedId, HostPort;
  }
}
