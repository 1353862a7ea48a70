/**
 The runner of runner.go: it kills the pod an earlier run left, builds the
 modules, creates a pod, starts Postgres, starts Nakama, and on a nil return
 leaves a teardown behind. Every call outside may fail, and the process may end
 inside any of them.
 */
module Lifecycle {
  import opened Wrappers

  datatype Role = Postgres | Nakama | Builder

  datatype Pod = Pod(id: nat, name: string)

  /** A container and the pod it was put in, if any. */
  datatype Container = Container(id: nat, role: Role, pod: Option<nat>)

  /** The addresses a runner records; Unset is the empty string. */
  datatype Url =
    | Unset
    | Database(user: string, address: string)
    | Http(address: string)
    | Grpc(address: string)
    | Console(user: string, address: string)

  /** What a run does that others can see, in order. */
  datatype Event =
    | RunStarted
    | PodCreated(pod: Pod)
    | Created(container: Container, db: Url)
    | Pinged(local: Url, remote: Url)
    | StopAndRemove(id: Option<nat>)
    | Wait(id: Option<nat>)
    | Kill(name: string)

  /** The services waited for: 5432/tcp, 7350/tcp, 7349/tcp and 7351/tcp. */
  datatype Service = PostgresService | HttpService | GrpcService | ConsoleService

  /**
   The outcome of one outside call: whether it succeeded, whether the process
   ends in it, the local and remote addresses of the services it shows, and, for
   a retried check, whether it was tried at all.
   */
  datatype Answer = Answer(ok: bool, cut: bool, ports: map<Service, (string, string)>, tried: bool)

  datatype Status = Continue | Fail | Cut

  function StatusOf(a: Answer): Status {
    if a.cut then Cut else if a.ok then Continue else Fail
  }

  /** Everything asked for went well, and every service is shown. */
  predicate Well(a: Answer) {
    && a.ok && !a.cut
    && PostgresService in a.ports && HttpService in a.ports && GrpcService in a.ports && ConsoleService in a.ports
  }

  /** No pod is asked for, or one of these. */
  predicate Known(pods: set<Pod>, pod: Option<nat>) {
    pod.None? || exists p :: p in pods && p.id == pod.value
  }

  function Named(pods: set<Pod>, name: string): set<Pod> {
    set p | p in pods && p.name == name
  }

  /** The calls of a kill: the listing, and a stop and a removal for each pod of the name. */
  function KillCalls(pods: set<Pod>, name: string): nat {
    1 + 2 * |Named(pods, name)|
  }

  lemma OneListed(pods: set<Pod>, p: Pod, name: string)
    requires p in pods
    ensures KillCalls(pods, name) == KillCalls(pods - {p}, name) + if p.name == name then 2 else 0
  {
    if p.name == name {
      assert Named(pods, name) == Named(pods - {p}, name) + {p};
    } else {
      assert Named(pods, name) == Named(pods - {p}, name);
    }
  }

  /** The containers that are in none of the given pods. */
  function Outside(containers: set<Container>, pods: set<Pod>): set<Container> {
    set c | c in containers && forall p :: p in pods ==> c.pod != Some(p.id)
  }

  function Without(containers: set<Container>, id: Option<nat>): set<Container> {
    set c | c in containers && id != Some(c.id)
  }

  /** Nothing is gone but builders: once a build is over its goroutine removes its container, at any time. */
  ghost predicate Shed(before: set<Container>, after: set<Container>) {
    after <= before && forall c :: c in before && c.role != Builder ==> c in after
  }

  lemma ShedMore(a: set<Container>, m: set<Container>, b: set<Container>, n: set<Container>, c: set<Container>)
    requires Shed(a + m, b) && Shed(b + n, c)
    ensures Shed(a + (m + n), c)
  {
  }

  lemma ShedAlike(a: set<Container>, b: set<Container>, m: set<Container>)
    requires Shed(a, b)
    ensures Shed(a + m, b + m) && Shed(a + {}, b)
  {
  }

  lemma ShedOutside(before: set<Container>, after: set<Container>, pods: set<Pod>)
    requires Shed(before, after)
    ensures Shed(Outside(before, pods), Outside(after, pods))
  {
  }

  lemma OutsideTwice(containers: set<Container>, pods: set<Pod>, more: set<Pod>)
    ensures Outside(Outside(containers, pods), more) == Outside(containers, pods + more)
    ensures Outside(containers, {}) == containers
  {
  }

  /** The containers some events say were created. */
  function Made(es: seq<Event>): set<Container> {
    set i | 0 <= i < |es| && es[i].Created? :: es[i].container
  }

  /** They have identifiers from n on. */
  ghost predicate Newer(es: seq<Event>, n: nat) {
    forall c :: c in Made(es) ==> c.id >= n
  }

  lemma MadeConcat(a: seq<Event>, b: seq<Event>)
    ensures Made(a + b) == Made(a) + Made(b)
  {
    var es := a + b;
    forall c
      ensures c in Made(es) <==> c in Made(a) + Made(b)
    {
      if c in Made(a) {
        var i :| 0 <= i < |a| && a[i].Created? && a[i].container == c;
        assert es[i] == a[i];
      }
      if c in Made(b) {
        var i :| 0 <= i < |b| && b[i].Created? && b[i].container == c;
        assert es[|a| + i] == b[i];
      }
      if c in Made(es) {
        var i :| 0 <= i < |es| && es[i].Created? && es[i].container == c;
        assert es[i] == if i < |a| then a[i] else b[i - |a|];
      }
    }
  }

  lemma MadeNothing(es: seq<Event>)
    requires forall i :: 0 <= i < |es| ==> !es[i].Created?
    ensures Made(es) == {}
  {
  }

  lemma MadeFirst(c: Container, db: Url, rest: seq<Event>)
    requires forall i :: 0 <= i < |rest| ==> !rest[i].Created?
    ensures Made([Created(c, db)] + rest) == {c}
  {
    var es := [Created(c, db)] + rest;
    assert es[0].container == c;
    assert forall i :: 1 <= i < |es| ==> es[i] == rest[i - 1];
  }

  /** The podman service. */
  class Podman {
    const answers: nat -> Answer
    const reaped: nat -> set<nat>    // the builders removed by the goroutines of their builds, by the time of an answer
    var asked: nat
    var pods: set<Pod>
    var containers: set<Container>
    var nextId: nat
    var log: seq<Event>
    ghost var refusals: nat          // removals of pods that failed

    constructor (answers: nat -> Answer, reaped: nat -> set<nat>)
      ensures Valid() && this.answers == answers && this.reaped == reaped
      ensures pods == {} && containers == {} && log == [] && asked == nextId == refusals == 0
    {
      this.answers, this.reaped := answers, reaped;
      asked, pods, containers, nextId, log, refusals := 0, {}, {}, 0, [], 0;
    }

    /** Identifiers are given out once. */
    ghost predicate Valid()
      reads this`pods, this`containers, this`nextId
    {
      && (forall p :: p in pods ==> p.id < nextId)
      && (forall p, q :: p in pods && q in pods && p.id == q.id ==> p == q)
      && (forall c :: c in containers ==> c.id < nextId)
    }

    /** These calls succeeded. */
    ghost predicate AllOk(since: nat, upto: nat) {
      forall k :: since <= k < upto ==> StatusOf(answers(k)) == Continue
    }

    /** How many of the first n answers ended the process, and how many were not well. */
    ghost function Cuts(n: nat): nat {
      if n == 0 then 0 else Cuts(n - 1) + if answers(n - 1).cut then 1 else 0
    }

    ghost function Ills(n: nat): nat {
      if n == 0 then 0 else Ills(n - 1) + if Well(answers(n - 1)) then 0 else 1
    }

    /** The process did not end in any of these answers. */
    ghost predicate NoCut(since: nat, upto: nat) {
      Cuts(upto) == Cuts(since)
    }

    /** All of these answers are as one would have them. */
    ghost predicate AllWell(since: nat, upto: nat) {
      Ills(upto) == Ills(since)
    }

    /** The counts say so of each answer in the range. */
    lemma {:induction false} CountsTell(since: nat, upto: nat)
      requires since <= upto
      ensures Cuts(since) <= Cuts(upto) && Ills(since) <= Ills(upto)
      ensures NoCut(since, upto) <==> forall k :: since <= k < upto ==> !answers(k).cut
      ensures AllWell(since, upto) <==> forall k :: since <= k < upto ==> Well(answers(k))
      decreases upto
    {
      if since < upto {
        CountsTell(since, upto - 1);
      }
    }

    /**
     A method is cut exactly when an answer it was given was, and with every
     answer well it succeeds exactly when it can.
     */
    twostate predicate Ends(status: Status, can: bool)
      reads this
    {
      && asked >= old(asked) && Ills(asked) - Ills(old(asked)) >= Cuts(asked) - Cuts(old(asked)) >= 0
      && (status == Cut <==> !NoCut(old(asked), asked))
      && (AllWell(old(asked), asked) ==> (status == Continue <==> can))
    }

    /**
     What happened since is in the log, and the new containers are those it says
     were created, but for builders already gone.
     */
    twostate predicate Grew(done: seq<Event>)
      reads this
    {
      && Valid() && log == old(log) + done && asked >= old(asked)
      && Shed(old(containers) + Made(done), containers) && Newer(done, old(nextId)) && nextId >= old(nextId)
    }

    lemma PodsBelow()
      requires Valid()
      ensures forall p :: p in pods ==> p.id < nextId
    {
    }

    method Ask() returns (a: Answer)
      modifies this`asked
      ensures a == answers(old(asked)) && asked == old(asked) + 1
      ensures Cuts(asked) == Cuts(old(asked)) + if a.cut then 1 else 0
      ensures Ills(asked) == Ills(old(asked)) + if Well(a) then 0 else 1
      ensures Well(a) ==> StatusOf(a) == Continue
    {
      a := answers(asked);
      asked := asked + 1;
    }

    /** The containers left when the goroutines of builds have removed theirs. */
    function Left(containers: set<Container>, n: nat): set<Container> {
      set c | c in containers && (c.role != Builder || c.id !in reaped(n))
    }

    /** Builders go while something else is under way. */
    method Reap()
      requires Valid()
      modifies this`containers
      ensures Valid() && containers == Left(old(containers), asked) && Shed(old(containers), containers)
    {
      containers := Left(containers, asked);
    }

    method Note(e: Event)
      modifies this`log
      ensures log == old(log) + [e]
    {
      log := log + [e];
    }

    /** Stop and remove one pod; both errors are ignored. */
    method RemovePod(p: Pod) returns (status: Status)
      requires Valid() && p in pods
      modifies this`asked, this`pods, this`containers, this`refusals
      ensures Valid() && status != Fail && Ends(status, true)
      ensures var reached, willing := !answers(old(asked)).cut, answers(old(asked) + 1).ok;
              && pods == (if reached && willing then old(pods) - {p} else old(pods))
              && containers == (if reached && willing then Outside(old(containers), {p}) else old(containers))
              && refusals == old(refusals) + (if reached && !willing then 1 else 0)
      ensures status == Continue ==> asked == old(asked) + 2 && !answers(old(asked)).cut
      ensures AllWell(old(asked), asked) ==> refusals == old(refusals)
    {
      hide Podman.Cuts, Podman.Ills;
      var stop := Ask();
      if stop.cut { return Cut; }
      var remove := Ask();
      if remove.ok {
        pods := pods - {p};
        containers := Outside(containers, {p});
      } else {
        refusals := refusals + 1;
      }
      return if remove.cut then Cut else Continue;
    }

    /**
     PodmanStopAndRemove: both errors are only logged. The container named goes
     exactly when its removal was reached and succeeded, and nothing else does.
     */
    method RemoveContainer(id: Option<nat>) returns (status: Status)
      requires Valid()
      modifies this`asked, this`containers, this`log
      ensures Valid() && status != Fail && Ends(status, true) && log == old(log) + [StopAndRemove(id)]
      ensures status == Continue ==> asked == old(asked) + 2
      ensures var left := Left(old(containers), old(asked));
              containers == if !answers(old(asked)).cut && answers(old(asked) + 1).ok then Without(left, id) else left
      ensures if !answers(old(asked)).cut && answers(old(asked) + 1).ok
              then Shed(Without(old(containers), id), containers)
              else Shed(old(containers), containers)
      ensures AllWell(old(asked), asked) ==> Shed(Without(old(containers), id), containers)
    {
      hide Podman.Cuts, Podman.Ills;
      Note(StopAndRemove(id));
      Reap();
      var stop := Ask();
      if stop.cut { return Cut; }
      var remove := Ask();
      if remove.ok { containers := Without(containers, id); }
      return if remove.cut then Cut else Continue;
    }

    /** PodmanWait: on a closed context it comes back at once; its error is not looked at. */
    method WaitFor(id: Option<nat>) returns (status: Status)
      requires Valid()
      modifies this`asked, this`containers, this`log
      ensures Valid() && status != Fail && Ends(status, true) && log == old(log) + [Wait(id)]
      ensures asked == old(asked) + 1 && containers == Left(old(containers), old(asked))
      ensures Shed(old(containers), containers)
    {
      hide Podman.Cuts, Podman.Ills, Shed;
      Note(Wait(id));
      Reap();
      var a := Ask();
      return if a.cut then Cut else Continue;
    }

    /**
     PodmanPodKill: every listed pod of that name is stopped and removed; the
     others are left alone. Only a failed listing stops it.
     */
    method PodKill(name: string) returns (status: Status, ghost removed: set<Pod>)
      requires Valid()
      modifies this`asked, this`pods, this`containers, this`refusals
      ensures Valid() && removed <= Named(old(pods), name)
      ensures pods == old(pods) - removed && Shed(Outside(old(containers), removed), containers)
      ensures containers == Outside(Left(old(containers), old(asked)), removed)
      ensures refusals >= old(refusals) && asked > old(asked)
      ensures status == Continue && refusals == old(refusals) ==> removed == Named(old(pods), name)
      ensures Ends(status, true)
      ensures status != Cut ==> (status == Continue <==> StatusOf(answers(old(asked))) == Continue)
      ensures status == Continue ==> asked == old(asked) + KillCalls(old(pods), name)
      ensures AllWell(old(asked), asked) ==> refusals == old(refusals)
    {
      hide Cuts, Ills, Valid, Shed, Outside;
      removed := {};
      OutsideTwice(containers, {}, {});
      Reap();
      OutsideTwice(containers, {}, {});
      var list := Ask();
      if StatusOf(list) != Continue { return StatusOf(list), removed; }
      var rest := pods;
      while rest != {}
        invariant Valid() && rest <= pods && refusals >= old(refusals) && asked > old(asked)
        invariant NoCut(old(asked), asked) && Ills(asked) >= Ills(old(asked))
        invariant AllWell(old(asked), asked) ==> refusals == old(refusals)
        invariant removed <= Named(old(pods), name)
        invariant pods == old(pods) - removed && Shed(Outside(old(containers), removed), containers)
        invariant containers == Outside(Left(old(containers), old(asked)), removed)
        invariant refusals == old(refusals) ==> Named(pods, name) <= rest
        invariant asked + KillCalls(rest, name) == old(asked) + KillCalls(old(pods), name) + 1
        decreases rest
      {
        var p :| p in rest;
        OneListed(rest, p, name);
        rest := rest - {p};
        if p.name == name {
          ghost var before, cs := pods, containers;
          status := RemovePod(p);
          ShedOutside(Outside(old(containers), removed), cs, {p});
          OutsideTwice(old(containers), removed, {p});
          OutsideTwice(Left(old(containers), old(asked)), removed, {p});
          if pods != before {
            removed := removed + {p};
          }
          if status == Cut { return Cut, removed; }
        }
      }
      return Continue, removed;
    }

    /** A runner whose pod carries its name cannot build again, unless there is nothing to build. */
    lemma OwnPodGone(name: string, modules: nat, id: nat)
      requires Valid() && Pod(id, name) in pods
      ensures CanBuild(name, modules, pods, Some(id)) <==> modules == 0
    {
    }

    method NewId() returns (id: nat)
      requires Valid()
      modifies this`nextId
      ensures Valid() && id == old(nextId) && nextId == old(nextId) + 1
    {
      id, nextId := nextId, nextId + 1;
    }

    method AddPod(name: string)
      requires Valid()
      modifies this`pods, this`nextId, this`log
      ensures Valid() && nextId == old(nextId) + 1
      ensures pods == old(pods) + {Pod(old(nextId), name)} && Pod(old(nextId), name) !in old(pods)
      ensures log == old(log) + [PodCreated(Pod(old(nextId), name))]
    {
      var id := NewId();
      pods := pods + {Pod(id, name)};
      Note(PodCreated(Pod(id, name)));
    }

    method AddContainer(role: Role, pod: Option<nat>, db: Url) returns (c: Container)
      requires Valid()
      modifies this`containers, this`nextId, this`log
      ensures Valid() && nextId == old(nextId) + 1 && c == Container(old(nextId), role, pod)
      ensures containers == old(containers) + {c} && log == old(log) + [Created(c, db)]
    {
      var id := NewId();
      c := Container(id, role, pod);
      containers := containers + {c};
      Note(Created(c, db));
    }

    /**
     PodmanCreatePod: inspecting the images, creating the pod, inspecting it. The
     pod is made exactly when its creation was reached and succeeded.
     */
    method CreatePod(name: string) returns (status: Status, id: Option<nat>, infra: Option<nat>, ghost made: set<Pod>)
      requires Valid()
      modifies this`asked, this`pods, this`containers, this`nextId, this`log
      ensures Valid() && pods == old(pods) + made && made !! old(pods)
      ensures nextId >= old(nextId) && Shed(old(containers), containers)
      ensures containers == Left(old(containers), old(asked))
      ensures made == if StatusOf(answers(old(asked))) == Continue && answers(old(asked) + 1).ok
                      then {Pod(old(nextId), name)} else {}
      ensures status == Continue ==> id.Some? && infra.Some? && made == {Pod(id.value, name)}
      ensures status != Continue ==> id == infra == None
      ensures log == old(log) + (if made == {} then [] else [PodCreated(Pod(old(nextId), name))])
      ensures Ends(status, true) && (status == Continue <==> asked == old(asked) + 3 && AllOk(old(asked), asked))
    {
      hide Cuts, Ills, Valid, Shed, Well;
      id, infra, made := None, None, {};
      Reap();
      var images := Ask();
      if StatusOf(images) != Continue { return StatusOf(images), id, infra, made; }
      var create := Ask();
      var pod := nextId;
      if create.ok {
        AddPod(name);
        made := {Pod(pod, name)};
      }
      if StatusOf(create) != Continue { return StatusOf(create), id, infra, made; }
      var inspect := Ask();
      if StatusOf(inspect) != Continue { return StatusOf(inspect), id, infra, made; }
      var container := NewId();
      return Continue, Some(pod), Some(container), made;
    }

    /**
     PodmanRun: a container is created and then started; the id is only returned
     when both went well. Podman refuses a container for a pod that is gone.
     */
    method RunContainer(role: Role, pod: Option<nat>, db: Url)
        returns (status: Status, id: Option<nat>, ghost done: seq<Event>)
      requires Valid()
      modifies this`asked, this`containers, this`nextId, this`log
      ensures Grew(done) && Ends(status, Known(pods, pod))
      ensures asked <= old(asked) + 2 && containers == Left(old(containers), old(asked)) + Made(done)
      ensures status == Continue <==> Known(pods, pod) && asked == old(asked) + 2 && AllOk(old(asked), asked)
      ensures done == if answers(old(asked)).ok && Known(pods, pod)
                      then [Created(Container(old(nextId), role, pod), db)] else []
      ensures status == Continue ==> id == Some(old(nextId)) && done != []
      ensures status != Continue ==> id == None
    {
      hide Cuts, Ills, Valid, Shed, Known, Well, Made, Newer;
      id, done := None, [];
      ghost var cs := containers;
      NoneMade(nextId);
      Reap();
      ShedAlike(cs, containers, {});
      var create := Ask();
      if create.ok && Known(pods, pod) {
        ghost var kept := containers;
        var c := AddContainer(role, pod, db);
        done := [Created(c, db)];
        OneMade(c, db);
        ShedAlike(cs, kept, {c});
        if create.cut { return Cut, id, done; }
        var start := Ask();
        if StatusOf(start) != Continue { return StatusOf(start), id, done; }
        return Continue, Some(c.id), done;
      }
      return if create.cut then Cut else Fail, id, done;
    }
  }

  lemma NoneMade(n: nat)
    ensures Made([]) == {} && Newer([], n)
  {
    MadeNothing([]);
  }

  /** An event that creates nothing changes nothing of this. */
  lemma NothingMore(es: seq<Event>, e: Event, n: nat)
    requires !e.Created?
    ensures Made(es + [e]) == Made(es) && (Newer(es, n) ==> Newer(es + [e], n))
  {
    MadeConcat(es, [e]);
    MadeNothing([e]);
  }

  lemma OneMade(c: Container, db: Url)
    ensures Made([Created(c, db)]) == {c} && Newer([Created(c, db)], c.id)
  {
    MadeFirst(c, db, []);
    assert [Created(c, db)] + [] == [Created(c, db)];
  }

  // ---- The order of events -----------------------------------------------------------

  predicate NakamaCreated(e: Event) {
    e.Created? && e.container.role == Nakama
  }

  ghost predicate NoNakama(es: seq<Event>) {
    forall i :: 0 <= i < |es| ==> !NakamaCreated(es[i])
  }

  /** The Nakama container of event j was made after the ping of event i, in the same run, on the address pinged. */
  ghost predicate Leans(es: seq<Event>, i: int, j: int) {
    && 0 <= i < j < |es| && NakamaCreated(es[j])
    && es[i].Pinged? && es[i].remote != Unset && es[j].db == es[i].remote
    && forall k :: i < k < j ==> !es[k].RunStarted?
  }

  /** A Nakama container is only made after this run's Postgres answered a ping, and with the address recorded then. */
  ghost predicate NakamaAfterPing(es: seq<Event>) {
    forall j :: 0 <= j < |es| && NakamaCreated(es[j]) ==> exists i :: Leans(es, i, j)
  }

  /** Each of these Nakama containers was made so, as the log shows. */
  ghost predicate Grounded(containers: set<Container>, log: seq<Event>) {
    forall c :: c in containers && c.role == Nakama ==> exists i, j :: Leans(log, i, j) && log[j].container == c
  }

  lemma LeansLeft(a: seq<Event>, b: seq<Event>, i: int, j: int)
    requires Leans(a, i, j)
    ensures Leans(a + b, i, j) && (a + b)[j] == a[j]
  {
    assert forall k :: 0 <= k < |a| ==> (a + b)[k] == a[k];
  }

  lemma LeansRight(a: seq<Event>, b: seq<Event>, i: int, j: int)
    requires Leans(b, i, j)
    ensures Leans(a + b, |a| + i, |a| + j) && (a + b)[|a| + j] == b[j]
  {
    assert forall k :: |a| <= k < |a| + |b| ==> (a + b)[k] == b[k - |a|];
  }

  lemma NakamaAfterPingConcat(a: seq<Event>, b: seq<Event>)
    requires NakamaAfterPing(a) && NakamaAfterPing(b)
    ensures NakamaAfterPing(a + b)
  {
    forall j | 0 <= j < |a + b| && NakamaCreated((a + b)[j])
      ensures exists i :: Leans(a + b, i, j)
    {
      if j < |a| {
        assert (a + b)[j] == a[j];
        var i :| Leans(a, i, j);
        LeansLeft(a, b, i, j);
      } else {
        assert (a + b)[j] == b[j - |a|];
        var i :| Leans(b, i, j - |a|);
        LeansRight(a, b, i, j - |a|);
      }
    }
  }

  /** The containers made by safe events are grounded in any log that ends in them. */
  lemma MadeAreGrounded(before: seq<Event>, es: seq<Event>)
    requires NakamaAfterPing(es)
    ensures Grounded(Made(es), before + es)
  {
    forall c | c in Made(es) && c.role == Nakama
      ensures exists i, j :: Leans(before + es, i, j) && (before + es)[j].container == c
    {
      var j :| 0 <= j < |es| && es[j].Created? && es[j].container == c;
      assert NakamaCreated(es[j]);
      var i :| Leans(es, i, j);
      LeansRight(before, es, i, j);
    }
  }

  lemma StaysGrounded(containers: set<Container>, log: seq<Event>, more: seq<Event>)
    requires Grounded(containers, log)
    ensures Grounded(containers, log + more)
  {
    forall c | c in containers && c.role == Nakama
      ensures exists i, j :: Leans(log + more, i, j) && (log + more)[j].container == c
    {
      var i, j :| Leans(log, i, j) && log[j].container == c;
      LeansLeft(log, more, i, j);
    }
  }

  /** Events without Nakama, a ping, and then at once a Nakama container on the pinged database. */
  lemma PingThenNakama(a: seq<Event>, local: Url, remote: Url, b: seq<Event>)
    requires NoNakama(a) && remote != Unset
    requires b == [] || (b[0].Created? && b[0].db == remote && NoNakama(b[1..]))
    ensures NakamaAfterPing(a + [Pinged(local, remote)] + b)
  {
    var es := a + [Pinged(local, remote)] + b;
    assert forall j :: 0 <= j < |a| ==> es[j] == a[j];
    assert forall j :: |a| < j < |es| ==> es[j] == b[j - |a| - 1];
    assert forall j :: 1 <= j < |b| ==> b[j] == b[1..][j - 1];
    forall j | 0 <= j < |es| && NakamaCreated(es[j])
      ensures exists i :: Leans(es, i, j)
    {
      assert Leans(es, |a|, j);
    }
  }

  function Flatten(logs: seq<seq<Event>>): seq<Event> {
    if logs == [] then [] else Flatten(logs[..|logs| - 1]) + logs[|logs| - 1]
  }

  /** The joint log of any number of runs is as safe as each: no run leans on the ping of another. */
  lemma {:induction false} RunsStaySafe(logs: seq<seq<Event>>)
    requires forall i :: 0 <= i < |logs| ==> NakamaAfterPing(logs[i])
    ensures NakamaAfterPing(Flatten(logs))
    decreases |logs|
  {
    hide NakamaAfterPing;
    if logs != [] {
      RunsStaySafe(logs[..|logs| - 1]);
      NakamaAfterPingConcat(Flatten(logs[..|logs| - 1]), logs[|logs| - 1]);
    } else {
      NoNakamaIsSafe([]);
    }
  }

  /** So is every prefix of it: the log as it stands at any moment. */
  lemma PrefixStaysSafe(es: seq<Event>, n: nat)
    requires n <= |es| && NakamaAfterPing(es)
    ensures NakamaAfterPing(es[..n])
  {
    var now := es[..n];
    forall j | 0 <= j < n && NakamaCreated(now[j])
      ensures exists i :: Leans(now, i, j)
    {
      assert NakamaCreated(es[j]);
      var i :| Leans(es, i, j);
      assert Leans(now, i, j);
    }
  }

  lemma NoNakamaIsSafe(es: seq<Event>)
    requires NoNakama(es)
    ensures NakamaAfterPing(es)
  {
  }

  // ---- The runner ----------------------------------------------------------------------

  /** What one run does to the pods; the pods of other names are left alone. */
  datatype RunRecord = RunRecord(
    before: set<Pod>, after: set<Pod>,
    removed: set<Pod>, made: set<Pod>,
    killed: bool,           // the kill of the run's own pod name ran to its end
    refused: bool,          // some removal failed
    returned: bool,         // the run returned nil
    well: bool,             // every answer it was given was as one would have it
    known: Option<nat>,     // the pod the runner remembered before
    left: Option<nat>)      // and the one it remembers after

  ghost predicate RunEffect(name: string, r: RunRecord) {
    && r.removed <= Named(r.before, name)
    && r.made !! r.before && |r.made| <= 1 && r.made == Named(r.made, name)
    && r.after == r.before - r.removed + r.made
    && (r.made != {} ==> r.killed)
    && (r.killed && !r.refused ==> r.removed == Named(r.before, name))
    && (r.returned ==> r.made != {})
  }

  lemma EffectOf(name: string, r: RunRecord, next: nat)
    requires r.removed <= Named(r.before, name) && forall p :: p in r.before ==> p.id < next
    requires r.made == {} || (r.killed && exists id: nat :: r.made == {Pod(id, name)} && id >= next)
    requires r.after == r.before - r.removed + r.made
    requires r.killed && !r.refused ==> r.removed == Named(r.before, name)
    requires r.returned ==> r.made != {}
    ensures RunEffect(name, r)
  {
    if r.made != {} {
      var id: nat :| r.made == {Pod(id, name)} && id >= next;
      assert Pod(id, name) in r.before ==> id < next;
    }
  }

  /** The pods of the name are changed as the pods are, and the others are not. */
  lemma NamedChange(name: string, before: set<Pod>, removed: set<Pod>, made: set<Pod>)
    requires removed <= Named(before, name) && made == Named(made, name)
    ensures Named(before - removed + made, name) == Named(before, name) - removed + made
  {
    assert forall p :: p in made ==> p in Named(made, name);
    assert forall p :: p in removed ==> p in Named(before, name);
  }

  /** A run leaves the pods of every other name as they were. */
  lemma OthersKept(name: string, r: RunRecord)
    requires RunEffect(name, r)
    ensures r.after - Named(r.after, name) == r.before - Named(r.before, name)
  {
    NamedChange(name, r.before, r.removed, r.made);
    OutsideName(name, r.before);
    OutsideName(name, r.after);
    assert forall p :: p in r.made ==> p in Named(r.made, name);
    assert forall p :: p in r.removed ==> p in Named(r.before, name);
  }

  lemma OutsideName(name: string, pods: set<Pod>)
    ensures forall p :: p in pods - Named(pods, name) <==> p in pods && p.name != name
  {
  }

  /**
   Whatever an earlier run left, a run that makes its pod does so with no other
   pod of that name, and leaves exactly one.
   */
  lemma RunRecovers(name: string, r: RunRecord)
    requires RunEffect(name, r) && !r.refused && r.made != {}
    ensures Named(r.before - r.removed, name) == {}
    ensures Named(r.after, name) == r.made && |Named(r.after, name)| == 1
    ensures r.after - Named(r.after, name) == r.before - Named(r.before, name)
  {
    OthersKept(name, r);
    assert |r.made| != 0;
    assert forall p :: p in r.made ==> p in Named(r.made, name);
    assert Named(r.after, name) == r.made;
  }

  /**
   A run that stops without making its pod only takes pods of its own name away;
   one that stops later leaves the new one behind.
   */
  lemma FailedRunLeaves(name: string, r: RunRecord)
    requires RunEffect(name, r) && !r.returned
    ensures r.after - Named(r.after, name) == r.before - Named(r.before, name)
    ensures Named(r.after, name) == Named(r.before, name) - r.removed + r.made
    ensures r.made == {} ==> r.after <= r.before
  {
    OthersKept(name, r);
    NamedChange(name, r.before, r.removed, r.made);
    hide Named;
  }

  /** After a kill without a refusal the pods of the name are those the run made, however it ended. */
  lemma KilledLeavesMade(name: string, r: RunRecord)
    requires RunEffect(name, r)
    ensures r.killed && !r.refused ==> Named(r.after, name) == r.made
  {
    NamedChange(name, r.before, r.removed, r.made);
  }

  /** Runs one after another; in between, pods of other names may come and go, and pods of this one may go. */
  ghost predicate RunsInTurn(name: string, runs: seq<RunRecord>) {
    && (forall i :: 0 <= i < |runs| ==> RunEffect(name, runs[i]) && !runs[i].refused)
    && (forall i :: 0 < i < |runs| ==> Named(runs[i].before, name) <= Named(runs[i - 1].after, name))
  }

  /** Over any sequence of runs the pods of the name never exceed what there was to begin with, or one. */
  lemma {:induction false} LeftoversDoNotPileUp(name: string, runs: seq<RunRecord>, n: nat)
    requires n < |runs| && RunsInTurn(name, runs)
    ensures var start := |Named(runs[0].before, name)|;
            && |Named(runs[n].before, name)| <= (if start <= 1 then 1 else start)
            && |Named(runs[n].after, name)| <= (if start <= 1 then 1 else start)
    ensures (exists i :: 0 <= i < n && runs[i].made != {}) ==> |Named(runs[n].before, name)| <= 1
  {
    var r := runs[n];
    if n > 0 {
      LeftoversDoNotPileUp(name, runs, n - 1);
      Fewer(Named(r.before, name), Named(runs[n - 1].after, name));
      NeverMore(name, runs[n - 1]);
      if runs[n - 1].made != {} {
        RunRecovers(name, runs[n - 1]);
      }
    }
    NeverMore(name, r);
  }

  lemma NeverMore(name: string, r: RunRecord)
    requires RunEffect(name, r) && !r.refused
    ensures |Named(r.after, name)| <= (if r.made != {} then 1 else |Named(r.before, name)|)
  {
    if r.made != {} {
      RunRecovers(name, r);
    } else {
      Fewer(Named(r.after, name), Named(r.before, name));
    }
  }

  lemma {:induction false} Fewer(a: set<Pod>, b: set<Pod>)
    requires a <= b
    ensures |a| <= |b|
    decreases a
  {
    if a != {} {
      var p :| p in a;
      Fewer(a - {p}, b - {p});
    }
  }

  // ---- Runs of one runner ----------------------------------------------------------------

  /** A runner can build when it has nothing to build, or remembers no pod, or one that the kill leaves alone. */
  predicate CanBuild(name: string, modules: nat, pods: set<Pod>, known: Option<nat>) {
    modules == 0 || Known(pods - Named(pods, name), known)
  }

  lemma ToBuild(name: string, modules: nat, pods: set<Pod>, removed: set<Pod>, known: Option<nat>)
    ensures removed == Named(pods, name)
            ==> (CanBuild(name, modules, pods, known) <==> modules == 0 || Known(pods - removed, known))
  {
  }

  lemma FreeToBuild(name: string, modules: nat, pods: set<Pod>)
    ensures CanBuild(name, modules, pods, None)
  {
  }

  /**
   What a run does with the pod its runner remembers. A runner with modules
   builds them in that pod, so when it is gone the run ends there, and the
   runner remembers it still. Nothing else stops a run to which every answer is well.
   */
  ghost predicate Memory(name: string, modules: nat, r: RunRecord) {
    && (r.returned ==> r.left.Some? && r.made == {Pod(r.left.value, name)})
    && (!r.killed ==> r.left == r.known)
    && ((r.left == r.known && r.made == {}) || r.left == None || r.made == {Pod(r.left.value, name)})
    && (modules > 0 && !Known(r.before - r.removed, r.known) ==> !r.returned && r.made == {} && r.left == r.known)
    && (r.well ==> !r.refused && (r.returned <==> CanBuild(name, modules, r.before, r.known)))
  }

  /** Runs of one runner in turn, in which every removal succeeds; an identifier stays with the name of its pod. */
  ghost predicate OneRunner(name: string, modules: nat, runs: seq<RunRecord>) {
    && (forall i :: 0 <= i < |runs| ==> RunEffect(name, runs[i]) && Memory(name, modules, runs[i]) && !runs[i].refused)
    && (forall i :: 0 < i < |runs| ==> runs[i].known == runs[i - 1].left)
    && (forall i :: 0 < i < |runs| ==> Remembered(name, runs[i]))
  }

  ghost predicate Remembered(name: string, r: RunRecord) {
    forall p :: p in r.before && Some(p.id) == r.known ==> p.name == name
  }

  /** A run whose runner remembers a pod of its name kills that pod and then cannot build in it. */
  lemma RepeatFails(name: string, modules: nat, r: RunRecord)
    requires RunEffect(name, r) && Memory(name, modules, r) && Remembered(name, r)
    requires modules > 0 && r.known.Some? && !r.refused
    ensures !r.returned && r.made == {} && r.left == r.known
  {
    if r.killed {
      assert forall p :: p in r.before - r.removed ==> p !in Named(r.before, name);
    }
  }

  /** A runner with modules returns nil at most once: no run after that one makes a pod. */
  lemma {:induction false} ReturnsOnce(name: string, modules: nat, runs: seq<RunRecord>, m: nat, n: nat)
    requires OneRunner(name, modules, runs) && modules > 0
    requires m < n < |runs| && runs[m].returned
    ensures !runs[n].returned && runs[n].made == {} && runs[n].left == runs[m].left
    decreases n
  {
    if m + 1 < n {
      ReturnsOnce(name, modules, runs, m, n - 1);
    }
    assert RunEffect(name, runs[n]) && Memory(name, modules, runs[n]) && Memory(name, modules, runs[m]);
    assert runs[n].known == runs[n - 1].left;
    RepeatFails(name, modules, runs[n]);
  }

  /**
   So a later run of a runner that returned nil, with every answer well, returns
   nil exactly when there is nothing to build.
   */
  lemma ReturnsAgainIff(name: string, modules: nat, runs: seq<RunRecord>, m: nat, n: nat)
    requires OneRunner(name, modules, runs)
    requires m < n < |runs| && runs[m].returned && runs[n].well
    ensures runs[n].returned <==> modules == 0
  {
    assert Memory(name, modules, runs[n]);
    if modules > 0 {
      ReturnsOnce(name, modules, runs, m, n);
    }
  }

  class Runner {
    const podman: Podman
    const name: string
    const podName: string
    const modules: nat
    var podId: Option<nat>
    var podContainerId: Option<nat>
    var postgresContainerId: Option<nat>
    var nakamaContainerId: Option<nat>
    var postgresLocal: Url
    var postgresRemote: Url
    var httpLocal: Url
    var httpRemote: Url
    var grpcLocal: Url
    var grpcRemote: Url
    var consoleLocal: Url
    var consoleRemote: Url

    constructor (podman: Podman, name: string, podName: string, modules: nat)
      ensures this.podman == podman && this.name == name && this.podName == podName && this.modules == modules
      ensures podId == podContainerId == postgresContainerId == nakamaContainerId == None
      ensures postgresLocal == postgresRemote == httpLocal == httpRemote == Unset
      ensures grpcLocal == grpcRemote == consoleLocal == consoleRemote == Unset
    {
      this.podman, this.name, this.podName, this.modules := podman, name, podName, modules;
      podId, podContainerId, postgresContainerId, nakamaContainerId := None, None, None, None;
      postgresLocal, postgresRemote, httpLocal, httpRemote := Unset, Unset, Unset, Unset;
      grpcLocal, grpcRemote, consoleLocal, consoleRemote := Unset, Unset, Unset, Unset;
    }

    /** The addresses an answer from one point up to another showed for a service. */
    ghost predicate Shown(svc: Service, local: string, remote: string, since: nat, upto: nat) {
      exists k: nat :: ShownAt(svc, local, remote, k) && since <= k < upto
    }

    ghost predicate ShownAt(svc: Service, local: string, remote: string, k: nat) {
      svc in podman.answers(k).ports && podman.answers(k).ports[svc] == (local, remote)
    }

    ghost predicate PostgresAddressed(since: nat, upto: nat)
      reads this`postgresLocal, this`postgresRemote
    {
      && postgresLocal.Database? && postgresLocal.user == name && postgresRemote.Database?
         && postgresRemote.user == name
      && Shown(PostgresService, postgresLocal.address, postgresRemote.address, since, upto)
    }

    ghost predicate NakamaAddressed(since: nat, upto: nat)
      reads this
    {
      && httpLocal.Http? && httpRemote.Http? && Shown(HttpService, httpLocal.address, httpRemote.address, since, upto)
      && grpcLocal.Grpc? && grpcRemote.Grpc? && Shown(GrpcService, grpcLocal.address, grpcRemote.address, since, upto)
      && consoleLocal.Console? && consoleLocal.user == name && consoleRemote.Console? && consoleRemote.user == name
      && Shown(ConsoleService, consoleLocal.address, consoleRemote.address, since, upto)
    }

    /** A wider range of answers shows no less. */
    lemma AddressedWithin(since: nat, upto: nat, first: nat, last: nat)
      requires first <= since && upto <= last
      ensures PostgresAddressed(since, upto) ==> PostgresAddressed(first, last) && postgresRemote != Unset
      ensures NakamaAddressed(since, upto) ==> NakamaAddressed(first, last)
    {
    }

    /** Both ids name containers there are, in the runner's pod. */
    ghost predicate BothRunning()
      reads this, podman`containers
    {
      && postgresContainerId.Some? && Container(postgresContainerId.value, Postgres, podId) in podman.containers
      && nakamaContainerId.Some? && Container(nakamaContainerId.value, Nakama, podId) in podman.containers
    }

    /**
     What holds of a runner whose run returned nil: the pod it made, both
     containers in it, and every address a caller can ask for, each shown for its
     own service since the run began.
     */
    ghost predicate Up(made: set<Pod>, since: nat)
      reads this, podman
    {
      && PostgresAddressed(since, podman.asked) && NakamaAddressed(since, podman.asked) && BothRunning()
      && podId.Some? && podContainerId.Some? && made == {Pod(podId.value, podName)} && made <= podman.pods
    }

    /** A builder container in the pod the runner knew before this run, if it knew one. */
    ghost predicate OnlyBuilders(es: seq<Event>, pod: Option<nat>) {
      forall i :: 0 <= i < |es| ==> es[i].Created? && es[i].container.role == Builder && es[i].container.pod == pod
    }

    /** The events of a run: its start, builders in one pod, and what was launched in another. */
    lemma RunEvents(builds: seq<Event>, pod: Option<nat>, launched: seq<Event>, next: nat, id: nat)
      requires OnlyBuilders(builds, pod) && NakamaAfterPing(launched) && InPod(launched, podId)
      requires Newer(builds, next) && Newer(launched, id) && next <= id
      ensures var done := [RunStarted] + builds + launched;
              && NakamaAfterPing(done) && Newer(done, next)
              && Made(done) == Made(builds) + Made(launched) && ServicesInPod(done)
    {
      var first := [RunStarted] + builds;
      assert forall c :: c in Made(builds) ==> c.role == Builder;
      NoNakamaIsSafe(first);
      MadeNothing([RunStarted]);
      hide NakamaAfterPing, OnlyBuilders, Made;
      NakamaAfterPingConcat(first, launched);
      MadeConcat([RunStarted], builds);
      MadeConcat(first, launched);
    }

    lemma NothingLaunched(own: Option<nat>, id: nat)
      ensures NakamaAfterPing([]) && InPod([], own) && Newer([], id) && Made([]) == {}
    {
      NoNakamaIsSafe([]);
      MadeNothing([]);
    }

    /** What was grounded stays so, and so is what a run makes. */
    lemma RunGrounds(containers: set<Container>, log: seq<Event>, removed: set<Pod>, done: seq<Event>,
                     now: set<Container>)
      requires NakamaAfterPing(done) && Shed(Outside(containers, removed) + Made(done), now)
      ensures Grounded(containers, log) ==> Grounded(now, log + done)
    {
      MadeAreGrounded(log, done);
      if Grounded(containers, log) { StaysGrounded(containers, log, done); }
    }

    /**
     BuildModule: the paths, the builder container, the wait for it, and the check
     for its output. From then on the builder may go.
     */
    method BuildModule() returns (status: Status, ghost done: seq<Event>)
      requires podman.Valid()
      modifies podman`asked, podman`containers, podman`nextId, podman`log
      ensures podman.Grew(done) && OnlyBuilders(done, podId)
      ensures status == Continue ==> |done| == 1
      ensures !Known(podman.pods, podId) ==> status != Continue && done == []
      ensures podman.Ends(status, Known(podman.pods, podId))
      ensures status == Continue <==>
                podman.asked == old(podman.asked) + 5 && podman.AllOk(old(podman.asked), podman.asked)
      ensures done != [] <==>
                && StatusOf(podman.answers(old(podman.asked))) == Continue && podman.answers(old(podman.asked) + 1).ok
                && Known(podman.pods, podId)
    {
      hide Podman.Cuts, Podman.Ills, Podman.Valid, Known, Well, Shed, Made, Newer;
      done := [];
      NoneMade(podman.nextId);
      ShedNothing(podman.containers);
      assert podman.log + done == podman.log;
      var paths := podman.Ask();
      if StatusOf(paths) != Continue { return StatusOf(paths), done; }
      var id;
      status, id, done := podman.RunContainer(Builder, podId, Unset);
      if status != Continue { return status, done; }
      var wait := podman.Ask();
      if StatusOf(wait) != Continue { return StatusOf(wait), done; }
      var output := podman.Ask();
      return StatusOf(output), done;
    }

    method BuildModules() returns (status: Status, ghost done: seq<Event>)
      requires podman.Valid()
      modifies podman`asked, podman`containers, podman`nextId, podman`log
      ensures podman.Grew(done) && OnlyBuilders(done, podId)
      ensures status == Continue ==> |done| == modules
      ensures !Known(podman.pods, podId) && modules > 0 ==> status != Continue && done == []
      ensures podman.Ends(status, modules == 0 || Known(podman.pods, podId))
      ensures status == Continue ==> podman.AllOk(old(podman.asked), podman.asked)
    {
      hide Podman.Cuts, Podman.Ills, Known;
      done := [];
      MadeNothing(done);
      hide Made, Shed, Podman.Valid, Newer;
      ghost var cs := podman.containers;
      ShedNothing(cs);
      NewerNothing(podman.nextId);
      var i := 0;
      while i < modules
        invariant 0 <= i <= modules && |done| == i
        invariant podman.Grew(done) && OnlyBuilders(done, podId)
        invariant podman.NoCut(old(podman.asked), podman.asked)
        invariant podman.Ills(podman.asked) >= podman.Ills(old(podman.asked))
        invariant podman.AllOk(old(podman.asked), podman.asked)
        invariant !Known(podman.pods, podId) ==> i == 0
      {
        ghost var more, mid, asked, next := [], podman.containers, podman.asked, podman.nextId;
        status, more := BuildModule();
        MadeConcat(done, more);
        ShedMore(cs, Made(done), mid, Made(more), podman.containers);
        NewerConcat(done, more, old(podman.nextId), next);
        done := done + more;
        if status != Continue { return status, done; }
        i := i + 1;
      }
      return Continue, done;
    }

    lemma ShedNothing(cs: set<Container>)
      ensures Made([]) == {} && Shed(cs + Made([]), cs)
    {
      MadeNothing([]);
    }

    lemma NewerNothing(n: nat)
      ensures Newer([], n)
    {
      MadeNothing([]);
    }

    lemma NewerConcat(a: seq<Event>, b: seq<Event>, n: nat, m: nat)
      requires Newer(a, n) && Newer(b, m) && n <= m
      ensures Newer(a + b, n)
    {
      MadeConcat(a, b);
    }

    /**
     PodmanWaitService: the address is asked for once, then the check is retried.
     The retry comes back only after a success, so what is left is to be cut off.
     */
    method WaitService(svc: Service) returns (status: Status, tried: bool, local: string, remote: string)
      modifies podman`asked
      ensures podman.asked > old(podman.asked)
      ensures status == Continue ==> tried
      ensures status == Fail ==> !tried
      ensures tried ==> StatusOf(podman.answers(old(podman.asked))) == Continue
                        && ShownAt(svc, local, remote, old(podman.asked))
      ensures podman.Ends(status, true)
      ensures status == Fail <==> (&& !podman.answers(old(podman.asked)).cut
                                   && (podman.answers(old(podman.asked)).ok
                                      ==> svc !in podman.answers(old(podman.asked)).ports))
    {
      hide Podman.Cuts, Podman.Ills;
      var address := podman.Ask();
      local, remote := "", "";
      if StatusOf(address) != Continue { return StatusOf(address), false, local, remote; }
      if svc !in address.ports { return Fail, false, local, remote; }
      local, remote := address.ports[svc].0, address.ports[svc].1;
      var retry := podman.Ask();
      return if retry.cut then Cut else Continue, retry.tried || !retry.cut, local, remote;
    }

    method RunPostgres() returns (status: Status, ghost done: seq<Event>)
      requires podman.Valid()
      modifies podman`asked, podman`containers, podman`nextId, podman`log
      modifies this`postgresContainerId, this`postgresLocal, this`postgresRemote
      ensures podman.Grew(done) && InPod(done, podId)
      ensures status != Continue ==> NoNakama(done)
      ensures status == Continue ==> PostgresEvents(done) && PostgresAddressed(old(podman.asked), podman.asked)
      ensures podman.Ends(status, Known(podman.pods, podId))
    {
      hide Podman.Cuts, Podman.Ills, Podman.Valid, Known, Shed, Made, Newer;
      ghost var next := podman.nextId;
      status, postgresContainerId, done := podman.RunContainer(Postgres, podId, Unset);
      MadeInPod(done, podId);
      if status != Continue { return status, done; }
      var tried, local, remote;
      status, tried, local, remote := WaitService(PostgresService);
      if tried {
        postgresLocal := Database(name, local);
        postgresRemote := Database(name, remote);
      }
      if status != Continue { return status, done; }
      podman.Note(Pinged(postgresLocal, postgresRemote));
      NothingMore(done, Pinged(postgresLocal, postgresRemote), next);
      done := done + [Pinged(postgresLocal, postgresRemote)];
      return Continue, done;
    }

    lemma MadeInPod(es: seq<Event>, pod: Option<nat>)
      requires forall i :: 0 <= i < |es| ==> es[i].Created? && es[i].container.pod == pod
      ensures InPod(es, pod)
    {
    }

    /** Every container these events create goes to the given pod. */
    ghost predicate InPod(es: seq<Event>, pod: Option<nat>) {
      forall c :: c in Made(es) ==> c.pod == pod
    }

    /** The three waits of RunNakama: http, grpc, console. */
    method AwaitNakama() returns (status: Status)
      modifies podman`asked
      modifies this`httpLocal, this`httpRemote, this`grpcLocal, this`grpcRemote, this`consoleLocal, this`consoleRemote
      ensures podman.Ends(status, true)
      ensures status == Continue ==> NakamaAddressed(old(podman.asked), podman.asked)
    {
      hide Podman.Cuts, Podman.Ills;
      var tried, local, remote;
      status, tried, local, remote := WaitService(HttpService);
      if tried { httpLocal, httpRemote := Http(local), Http(remote); }
      if status != Continue { return; }
      status, tried, local, remote := WaitService(GrpcService);
      if tried { grpcLocal, grpcRemote := Grpc(local), Grpc(remote); }
      if status != Continue { return; }
      status, tried, local, remote := WaitService(ConsoleService);
      if tried { consoleLocal, consoleRemote := Console(name, local), Console(name, remote); }
    }

    method RunNakama() returns (status: Status, ghost done: seq<Event>)
      requires podman.Valid()
      modifies podman`asked, podman`containers, podman`nextId, podman`log
      modifies this`nakamaContainerId, this`httpLocal, this`httpRemote, this`grpcLocal, this`grpcRemote
      modifies this`consoleLocal, this`consoleRemote
      ensures podman.Grew(done) && InPod(done, podId)
      ensures NakamaEvents(done)
      ensures status == Continue ==>
                && done != [] && nakamaContainerId == Some(done[0].container.id)
                && NakamaAddressed(old(podman.asked), podman.asked)
      ensures podman.Ends(status, Known(podman.pods, podId))
    {
      hide Podman.Cuts, Podman.Ills, Known;
      status, nakamaContainerId, done := podman.RunContainer(Nakama, podId, postgresRemote);
      MadeInPod(done, podId);
      if status == Continue { status := AwaitNakama(); }
    }

    /** Postgres, and Nakama only after it. */
    method RunServices() returns (status: Status, ghost done: seq<Event>)
      requires podman.Valid()
      modifies podman`asked, podman`containers, podman`nextId, podman`log
      modifies this`postgresContainerId, this`postgresLocal, this`postgresRemote
      modifies this`nakamaContainerId, this`httpLocal, this`httpRemote, this`grpcLocal, this`grpcRemote
      modifies this`consoleLocal, this`consoleRemote
      ensures podman.Grew(done) && InPod(done, podId) && NakamaAfterPing(done)
      ensures status == Continue ==>
                && PostgresAddressed(old(podman.asked), podman.asked)
                && NakamaAddressed(old(podman.asked), podman.asked) && BothRunning()
      ensures podman.Ends(status, Known(podman.pods, podId))
    {
      hide Podman.Cuts, Podman.Ills, Known;
      hide NakamaAfterPing, Outside, Made, Newer, InPod, Shed, Podman.Valid;
      hide PostgresAddressed, NakamaAddressed, BothRunning, PostgresEvents, NakamaEvents;
      ghost var cs, log, next, since := podman.containers, podman.log, podman.nextId, podman.asked;
      ghost var first, second;
      status, first := RunPostgres();
      done := first;
      if status != Continue {
        NoNakamaIsSafe(done);
        return status, done;
      }
      ghost var mid, asked, between := podman.nextId, podman.asked, podman.containers;
      status, second := RunNakama();
      ShedMore(cs, Made(first), between, Made(second), podman.containers);
      done := first + second;
      AddressedWithin(since, asked, since, podman.asked);
      AddressedWithin(asked, podman.asked, since, podman.asked);
      ServicesEvents(first, second, next, mid);
      JoinSeqs(log, first, second);
      if status == Continue {
        Running(cs, first, second);
      }
      return status, done;
    }

    /** The events of both services. */
    lemma ServicesEvents(first: seq<Event>, second: seq<Event>, next: nat, mid: nat)
      requires PostgresEvents(first) && NakamaEvents(second) && postgresRemote != Unset
      requires InPod(first, podId) && InPod(second, podId) && Newer(first, next) && Newer(second, mid) && next <= mid
      ensures Made(first + second) == Made(first) + Made(second)
      ensures NakamaAfterPing(first + second) && InPod(first + second, podId) && Newer(first + second, next)
    {
      MadeConcat(first, second);
      hide Made, NakamaAfterPing;
      assert first == [first[0]] + [Pinged(postgresLocal, postgresRemote)];
      PingThenNakama([first[0]], postgresLocal, postgresRemote, second);
    }

    /** A Postgres container in the runner's pod and a ping of the addresses recorded. */
    ghost predicate PostgresEvents(es: seq<Event>)
      reads this`postgresContainerId, this`podId, this`postgresLocal, this`postgresRemote
    {
      && postgresContainerId.Some?
      && es == [Created(Container(postgresContainerId.value, Postgres, podId), Unset),
                 Pinged(postgresLocal, postgresRemote)]
    }

    /** A Nakama container in the runner's pod, on the database address recorded, if any. */
    ghost predicate NakamaEvents(es: seq<Event>)
      reads this`podId, this`postgresRemote
    {
      es == [] || (|es| == 1 && NakamaCreated(es[0]) && es[0].container.pod == podId && es[0].db == postgresRemote)
    }

    lemma Running(cs: set<Container>, first: seq<Event>, second: seq<Event>)
      requires PostgresEvents(first) && NakamaEvents(second) && second != []
      requires nakamaContainerId == Some(second[0].container.id)
      requires Shed(cs + (Made(first) + Made(second)), podman.containers)
      ensures BothRunning()
    {
      assert first[0].container in Made(first) && second[0].container in Made(second);
    }

    /** The version of Nakama and the images. */
    method Fetch() returns (status: Status)
      modifies podman`asked
      ensures podman.Ends(status, true)
      ensures status == Continue <==>
                podman.asked == old(podman.asked) + 2 && podman.AllOk(old(podman.asked), podman.asked)
    {
      hide Podman.Cuts, Podman.Ills, Well;
      var version := podman.Ask();
      if StatusOf(version) != Continue { return StatusOf(version); }
      var images := podman.Ask();
      return StatusOf(images);
    }

    /**
     Everything before the pod is created: this run's start, the kill, and the
     builds, whose containers go to the pod the runner remembers from before. If
     that is gone, building fails.
     */
    method Prepare() returns (status: Status, ghost done: seq<Event>, ghost removed: set<Pod>, ghost killed: bool)
      requires podman.Valid()
      modifies podman
      ensures podman.Valid() && podman.log == old(podman.log) + [RunStarted] + done && OnlyBuilders(done, podId)
      ensures Shed(Outside(old(podman.containers), removed) + Made(done), podman.containers)
      ensures Newer(done, old(podman.nextId))
      ensures removed <= Named(old(podman.pods), podName) && podman.pods == old(podman.pods) - removed
      ensures podman.refusals >= old(podman.refusals)
      ensures podman.nextId >= old(podman.nextId) && podman.asked >= old(podman.asked)
      ensures killed && podman.refusals == old(podman.refusals) ==> removed == Named(old(podman.pods), podName)
      ensures status == Continue ==> killed && |done| == modules
      ensures modules > 0 && !Known(podman.pods, podId) ==> status != Continue && done == []
      ensures podman.Ends(status, modules == 0 || Known(podman.pods, podId))
      ensures podman.AllWell(old(podman.asked), podman.asked) ==> killed && podman.refusals == old(podman.refusals)
      ensures killed ==> podman.AllOk(old(podman.asked), old(podman.asked) + 2)
      ensures podman.AllOk(old(podman.asked), old(podman.asked) + 2) && status != Cut ==> killed
      ensures status == Continue || done != [] ==>
                var at := old(podman.asked) + 1 + KillCalls(old(podman.pods), podName);
                killed && podman.AllOk(at, at + 2)
    {
      hide Podman.Cuts, Podman.Ills, Podman.Valid, Known, Well, Shed, Outside, Made, Newer, Named;
      done, removed, killed := [], {}, false;
      ghost var cs, log, next, pods := podman.containers, podman.log, podman.nextId, podman.pods;
      NoneMade(next);
      OutsideTwice(cs, {}, {});
      ShedNothing(cs);
      JoinSeqs(log, [RunStarted], []);
      assert pods - {} == pods && {} <= Named(pods, podName);
      podman.Note(RunStarted);
      var init := podman.Ask();
      if StatusOf(init) != Continue { return StatusOf(init), done, removed, killed; }
      status, removed := podman.PodKill(podName);
      killed := status == Continue;
      ghost var kept, between := Outside(cs, removed), podman.containers;
      ShedAlike(kept, between, {});
      if status != Continue { return status, done, removed, killed; }
      status := Fetch();
      if status != Continue { return status, done, removed, killed; }
      status, done := BuildModules();
      ShedMore(kept, {}, between, Made(done), podman.containers);
      JoinSets({}, Made(done), {});
      return status, done, removed, killed;
    }

    /** The pod and what runs in it. */
    method Launch() returns (status: Status, ghost done: seq<Event>, ghost made: set<Pod>)
      requires podman.Valid()
      modifies this, podman`asked, podman`pods, podman`containers, podman`nextId, podman`log
      ensures podman.Grew(done) && InPod(done, podId) && NakamaAfterPing(done)
      ensures podman.pods == old(podman.pods) + made && (made == {} || made == {Pod(old(podman.nextId), podName)})
      ensures status == Continue ==> Up(made, old(podman.asked))
      ensures podman.Ends(status, true)
      ensures (podId.Some? <==> podContainerId.Some?) && (podId.Some? ==> made == {Pod(podId.value, podName)})
    {
      hide Podman.Cuts, Podman.Ills;
      hide NakamaAfterPing, Outside, Made, Newer, InPod, Shed, Podman.Valid;
      hide PostgresAddressed, NakamaAddressed, BothRunning, Up;
      ghost var next, cs, log, since := podman.nextId, podman.containers, podman.log, podman.asked;
      var pod, infra;
      status, pod, infra, made := podman.CreatePod(podName);
      podId, podContainerId := pod, infra;
      done := if made == {} then [] else [PodCreated(Pod(next, podName))];
      PodEvents(done, next);
      ShedFrom(cs, podman.containers);
      if status != Continue { return; }
      ghost var asked, mid, services, between := podman.asked, podman.nextId, [], podman.containers;
      assert Known(podman.pods, podId) by { assert Pod(podId.value, podName) in podman.pods; }
      status, services := RunServices();
      ShedMore(cs, {}, between, Made(services), podman.containers);
      JoinSets({}, Made(services), {});
      LaunchEvents(done, services, next, mid);
      JoinSeqs(log, done, services);
      done := done + services;
      if status == Continue { IsUp(made, asked, since); }
    }

    lemma ShedFrom(a: set<Container>, b: set<Container>)
      requires Shed(a, b)
      ensures Shed(a + {}, b)
    {
      assert a + {} == a;
    }

    lemma PodEvents(es: seq<Event>, n: nat)
      requires es == [] || (|es| == 1 && es[0].PodCreated?)
      ensures NakamaAfterPing(es) && Made(es) == {} && InPod(es, podId) && Newer(es, n)
    {
      NoNakamaIsSafe(es);
      MadeNothing(es);
    }

    lemma LaunchEvents(es: seq<Event>, services: seq<Event>, next: nat, mid: nat)
      requires NakamaAfterPing(es) && Made(es) == {} && NakamaAfterPing(services) && InPod(services, podId)
      requires Newer(services, mid) && next <= mid
      ensures var done := es + services;
              NakamaAfterPing(done) && Made(done) == Made(services) && InPod(done, podId) && Newer(done, next)
    {
      NakamaAfterPingConcat(es, services);
      MadeConcat(es, services);
    }

    lemma IsUp(made: set<Pod>, later: nat, since: nat)
      requires PostgresAddressed(later, podman.asked) && NakamaAddressed(later, podman.asked) && since <= later
      requires BothRunning()
      requires podId.Some? && podContainerId.Some? && made == {Pod(podId.value, podName)} && made <= podman.pods
      ensures Up(made, since)
    {
    }

    /** Prepare and Launch in turn, with what they did to everything but the record of the run. */
    method Steps() returns (status: Status, ghost done: seq<Event>, ghost removed: set<Pod>, ghost made: set<Pod>,
                            ghost killed: bool)
      requires podman.Valid()
      modifies this, podman
      ensures podman.Valid() && podman.log == old(podman.log) + done && NakamaAfterPing(done)
      ensures Shed(Outside(old(podman.containers), removed) + Made(done), podman.containers)
      ensures Newer(done, old(podman.nextId))
      ensures removed <= Named(old(podman.pods), podName) && podman.pods == old(podman.pods) - removed + made
      ensures made == {} || (killed && exists id: nat :: NewPod(made, id) && id >= old(podman.nextId))
      ensures podman.refusals >= old(podman.refusals)
      ensures killed && podman.refusals == old(podman.refusals) ==> removed == Named(old(podman.pods), podName)
      ensures status == Continue ==> Up(made, old(podman.asked)) && ServicesInPod(done)
      ensures podman.Ends(status, modules == 0 || Known(old(podman.pods) - removed, old(podId)))
      ensures podman.AllWell(old(podman.asked), podman.asked)
              ==> removed == Named(old(podman.pods), podName) && podman.refusals == old(podman.refusals)
      ensures !killed ==> podId == old(podId)
      ensures (podId == old(podId) && made == {}) || podId == None || made == {Pod(podId.value, podName)}
      ensures killed ==> podman.AllOk(old(podman.asked), old(podman.asked) + 2)
      ensures podman.AllOk(old(podman.asked), old(podman.asked) + 2) && status != Cut ==> killed
      ensures Made(done) != {} || made != {} ==>
                var at := old(podman.asked) + 1 + KillCalls(old(podman.pods), podName);
                killed && podman.AllOk(at, at + 2)
      ensures modules > 0 && !Known(old(podman.pods) - removed, old(podId))
              ==> status != Continue && made == {} && podId == old(podId)
    {
      hide Podman.Cuts, Podman.Ills, NakamaAfterPing, Outside, Made, Newer, InPod, Shed, Podman.Valid;
      hide Up, OnlyBuilders, Named, Known, ServicesInPod;
      ghost var cs, log, next, known, since := podman.containers, podman.log, podman.nextId, podId, podman.asked;
      ghost var builds;
      status, builds, removed, killed := Prepare();
      ghost var launched, id, asked := [], podman.nextId, podman.asked;
      ghost var kept, between := Outside(cs, removed), podman.containers;
      made := {};
      NothingLaunched(podId, id);
      ShedFrom(kept + Made(builds), between);
      ShedNothing(between);
      JoinSeqs(log, [RunStarted] + builds, launched);
      JoinSeqs(log, [RunStarted], builds);
      if status == Continue {
        status, launched, made := Launch();
        JoinSeqs(log, [RunStarted] + builds, launched);
        UpSince(made, asked, since);
        assert made == {} || NewPod(made, id);
      }
      ShedMore(kept, Made(builds), between, Made(launched), podman.containers);
      RunEvents(builds, known, launched, next, id);
      done := [RunStarted] + builds + launched;
    }

    ghost predicate NewPod(made: set<Pod>, id: nat) {
      made == {Pod(id, podName)}
    }

    /** Run: nil exactly when the status is Continue. */
    method Run() returns (status: Status, ghost done: seq<Event>, ghost r: RunRecord)
      requires podman.Valid()
      modifies this, podman
      ensures podman.Valid() && podman.log == old(podman.log) + done && NakamaAfterPing(done)
      ensures Shed(Outside(old(podman.containers), r.removed) + Made(done), podman.containers)
      ensures Newer(done, old(podman.nextId))
      ensures old(Grounded(podman.containers, podman.log)) ==> Grounded(podman.containers, podman.log)
      ensures r.before == old(podman.pods) && r.after == podman.pods && r.returned == (status == Continue)
      ensures r.refused == (podman.refusals > old(podman.refusals))
      ensures r.known == old(podId) && r.left == podId
      ensures r.well <==> podman.AllWell(old(podman.asked), podman.asked)
      ensures r.killed ==> podman.AllOk(old(podman.asked), old(podman.asked) + 2)
      ensures podman.AllOk(old(podman.asked), old(podman.asked) + 2) && status != Cut ==>
                r.killed && (!r.refused ==> Named(podman.pods, podName) == r.made)
      ensures Made(done) != {} || r.made != {} ==>
                var at := old(podman.asked) + 1 + KillCalls(old(podman.pods), podName);
                r.killed && podman.AllOk(at, at + 2)
      ensures RunEffect(podName, r) && Memory(podName, modules, r)
      ensures status == Continue ==> Up(r.made, old(podman.asked)) && ServicesInPod(done)
      ensures podman.Ends(status, CanBuild(podName, modules, old(podman.pods), old(podId)))
    {
      hide Podman.Cuts, Podman.Ills, NakamaAfterPing, Outside, Made, Newer, Shed, Podman.Valid;
      hide RunEffect, Memory, Named, Known, CanBuild, Grounded, ServicesInPod;
      hide PostgresAddressed, NakamaAddressed, BothRunning;
      ghost var before, cs, log := podman.pods, podman.containers, podman.log;
      ghost var refusals, next, known, since := podman.refusals, podman.nextId, podId, podman.asked;
      podman.PodsBelow();
      ghost var removed, made, killed;
      status, done, removed, made, killed := Steps();
      r := RunRecord(before, podman.pods, removed, made, killed, podman.refusals > refusals, status == Continue,
                     podman.AllWell(since, podman.asked), known, podId);
      ToBuild(podName, modules, before, removed, known);
      EffectOf(podName, r, next);
      KilledLeavesMade(podName, r);
      MemoryOf(podName, modules, r);
      RunGrounds(cs, log, removed, done, podman.containers);
    }

    lemma JoinSeqs(a: seq<Event>, b: seq<Event>, c: seq<Event>)
      ensures a + b + c == a + (b + c)
      ensures c == [] ==> a + b + c == a + b
    {
    }

    lemma JoinSets(a: set<Container>, b: set<Container>, c: set<Container>)
      ensures a + b + c == a + (b + c)
      ensures c == {} ==> a + b + c == a + b
    {
    }

    lemma UpSince(made: set<Pod>, later: nat, since: nat)
      requires since <= later
      ensures Up(made, later) ==> Up(made, since)
    {
    }

    lemma MemoryOf(name: string, modules: nat, r: RunRecord)
      requires r.returned ==> r.left.Some? && r.made == {Pod(r.left.value, name)}
      requires !r.killed ==> r.left == r.known
      requires (r.left == r.known && r.made == {}) || r.left == None || r.made == {Pod(r.left.value, name)}
      requires modules > 0 && !Known(r.before - r.removed, r.known) ==> !r.returned && r.made == {} && r.left == r.known
      requires r.well ==> !r.refused && (r.returned <==> CanBuild(name, modules, r.before, r.known))
      ensures Memory(name, modules, r)
    {
    }

    /** Every container made is a builder or in the runner's pod. */
    ghost predicate ServicesInPod(es: seq<Event>)
      reads this
    {
      forall c :: c in Made(es) ==> c.role == Builder || c.pod == podId
    }

    /** The order in which the teardown goroutine goes about it. */
    ghost function TeardownOrder(): seq<Event>
      reads this
    {
      [StopAndRemove(nakamaContainerId), Wait(nakamaContainerId),
       StopAndRemove(postgresContainerId), Wait(postgresContainerId), Kill(podName)]
    }

    /** The containers a teardown may remove: the runner's own two, and those in pods of its name. */
    ghost predicate Disposable(c: Container, pods: set<Pod>)
      reads this
    {
      || nakamaContainerId == Some(c.id) || postgresContainerId == Some(c.id)
      || exists p :: p in Named(pods, podName) && c.pod == Some(p.id)
    }

    /**
     The two containers, Nakama's first; each is waited for before the next step.
     Only the end of the process stops it.
     */
    method StopContainers() returns (status: Status, ghost done: seq<Event>)
      requires podman.Valid()
      modifies podman`asked, podman`containers, podman`log
      ensures podman.Valid() && podman.log == old(podman.log) + done && status != Fail
      ensures done <= TeardownOrder()[..4] && (status == Continue ==> done == TeardownOrder()[..4])
      ensures podman.containers <= old(podman.containers)
      ensures forall c :: c in old(podman.containers) && c !in podman.containers
                ==> c.role == Builder || nakamaContainerId == Some(c.id) || postgresContainerId == Some(c.id)
      ensures podman.Ends(status, true) && (status == Continue ==> podman.asked == old(podman.asked) + 6)
      ensures podman.AllWell(old(podman.asked), podman.asked)
              ==> forall c :: c in podman.containers ==> Some(c.id) !in {nakamaContainerId, postgresContainerId}
    {
      hide Podman.Cuts, Podman.Ills;
      status := podman.RemoveContainer(nakamaContainerId);
      done := [StopAndRemove(nakamaContainerId)];
      if status == Cut { return; }
      status := podman.WaitFor(nakamaContainerId);
      done := done + [Wait(nakamaContainerId)];
      if status == Cut { return; }
      status := podman.RemoveContainer(postgresContainerId);
      done := done + [StopAndRemove(postgresContainerId)];
      if status == Cut { return; }
      status := podman.WaitFor(postgresContainerId);
      done := done + [Wait(postgresContainerId)];
    }

    /**
     The goroutine left by a nil return, once the context is closed; errors of
     stop, remove and wait are not looked at. Only the end of the process stops
     it, and the kill at its end runs to its own end when the pods can be listed.
     */
    method Teardown() returns (status: Status, ghost done: seq<Event>, ghost killed: bool)
      requires podman.Valid()
      modifies podman
      ensures podman.Valid() && podman.log == old(podman.log) + done && done <= TeardownOrder()
      ensures Named(podman.pods, podName) <= Named(old(podman.pods), podName)
      ensures podman.pods - Named(podman.pods, podName) == old(podman.pods) - Named(old(podman.pods), podName)
      ensures podman.containers <= old(podman.containers)
      ensures forall c :: c in old(podman.containers) && c !in podman.containers
                ==> c.role == Builder || Disposable(c, old(podman.pods))
      ensures podman.refusals >= old(podman.refusals)
      ensures status != Fail && podman.Ends(status, true)
      ensures status == Continue ==> done == TeardownOrder()
      ensures killed <==> status == Continue && StatusOf(podman.answers(old(podman.asked) + 6)) == Continue
      ensures podman.AllWell(old(podman.asked), podman.asked) ==> killed && podman.refusals == old(podman.refusals)
      ensures killed && podman.refusals == old(podman.refusals) ==>
                && Named(podman.pods, podName) == {}
                && Outside(podman.containers, Named(old(podman.pods), podName)) == podman.containers
    {
      hide Podman.Cuts, Podman.Ills, Well;
      killed := false;
      ghost var since, before := podman.asked, podman.containers;
      status, done := StopContainers();
      if status == Cut { return; }
      podman.Note(Kill(podName));
      done := done + [Kill(podName)];
      ghost var removed, stopped, asked := {}, podman.containers, podman.asked;
      status, removed := podman.PodKill(podName);
      killed := status == Continue;
      OutsideOf(stopped, removed, podman.containers);
      status := if status == Cut then Cut else Continue;
    }

    lemma OutsideOf(containers: set<Container>, pods: set<Pod>, now: set<Container>)
      requires Shed(Outside(containers, pods), now)
      ensures Outside(now, pods) == now && now <= containers
      ensures forall c :: c in containers - now ==> c.role == Builder || exists p :: p in pods && c.pod == Some(p.id)
    {
    }

    /**
     A run and, after a nil return, the teardown it left. When the kill at its end
     ran through and no removal of a pod failed, no pod of the name is left, and
     of the containers this run made only builders may be. With every answer well
     it comes to that exactly when the run can build.
     */
    method RunAndTearDown() returns (status: Status, ghost done: seq<Event>, ghost clean: bool)
      requires podman.Valid()
      modifies this, podman
      ensures podman.Valid()
      ensures clean ==>
                && Named(podman.pods, podName) == {}
                && forall c :: c in podman.containers && c !in old(podman.containers)
                     ==> c.role == Builder && c in Made(done)
      ensures clean ==> status == Continue
      ensures podman.AllWell(old(podman.asked), podman.asked)
              ==> (clean <==> CanBuild(podName, modules, old(podman.pods), old(podId)))
      ensures podman.Ends(status, CanBuild(podName, modules, old(podman.pods), old(podId)))
    {
      hide Podman.Cuts, Podman.Ills;
      hide CanBuild, RunEffect, Memory, Grounded, NakamaAfterPing, Newer, Made;
      ghost var r;
      ghost var since, before := podman.asked, podman.containers;
      status, done, r := Run();
      clean := false;
      if status == Continue {
        ghost var pods, cs, refusals, order, killed := podman.pods, podman.containers, podman.refusals, [], false;
        ghost var asked := podman.asked;
        assert ServicesInPod(done) && podId.Some? && Pod(podId.value, podName) in pods;
        status, order, killed := Teardown();
        clean := killed && podman.refusals == refusals;
        if clean {
          BuildersRemain(before, r.removed, done, Named(pods, podName), podman.containers);
        }
      }
    }

    /** What is outside the pods of the name and was not there before was made as a builder. */
    lemma BuildersRemain(before: set<Container>, removed: set<Pod>, done: seq<Event>, pods: set<Pod>, now: set<Container>)
      requires podId.Some? && Pod(podId.value, podName) in pods
      requires ServicesInPod(done) && now <= Outside(before, removed) + Made(done) && Outside(now, pods) == now
      ensures forall c :: c in now && c !in before ==> c.role == Builder && c in Made(done)
    {
      forall c | c in now && c !in before
        ensures c.role == Builder && c in Made(done)
      {
        assert c in Outside(now, pods);
        assert c !in Outside(before, removed);
      }
    }

    /**
     Two runs of a new runner, with every answer well: the first returns nil, and
     the second does exactly when there was nothing to build.
     */
    method RunAgain() returns (first: Status, second: Status)
      requires podman.Valid() && podId.None?
      requires forall k: nat :: Well(podman.answers(k))
      modifies this, podman
      ensures first == Continue
      ensures second == Continue <==> modules == 0
    {
      hide Podman.Cuts, Podman.Ills, Podman.Valid, CanBuild, RunEffect, Memory;
      hide Grounded, NakamaAfterPing, Newer, Made, Shed;
      hide ServicesInPod, PostgresAddressed, NakamaAddressed, BothRunning;
      ghost var done, r;
      ghost var start, pods := podman.asked, podman.pods;
      first, done, r := Run();
      podman.CountsTell(start, podman.asked);
      FreeToBuild(podName, modules, pods);
      ghost var next, id := podman.asked, podId.value;
      podman.OwnPodGone(podName, modules, id);
      second, done, r := Run();
      podman.CountsTell(next, podman.asked);
    }
  }
}
