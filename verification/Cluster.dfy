/** The API server as the controller sees it: a versioned store, the changes other actors make
    between two calls, and calls that can fail. */
module Cluster {
  import opened Prelude
  import opened Templates
  import opened Roles
  import opened Requests

  datatype Project = Project(version: nat, roles: seq<ProjectRole>)

  /** `rev` is the last version handed out and `next` the first unused request id. */
  datatype Store = Store(
    now: int,
    rev: nat,
    next: nat,
    requests: map<nat, Request>,
    projects: map<Ref, Project>,
    apps: map<Ref, string>,
    templates: map<Ref, RoleTemplate>)

  /** What other actors do: time passes, users create and delete requests and edit their
      durations, administrators edit applications, templates and projects. */
  datatype Event =
    | Tick(ticks: nat)
    | CreateRequest(ns: string, spec: Spec)
    | DeleteRequest(id: nat)
    | EditRequest(id: nat, duration: int)
    | SetApp(app: Ref, project: string)
    | DropApp(app: Ref)
    | SetTemplate(template: RoleTemplate)
    | DropTemplate(ref: Ref)
    | SetProject(key: Ref, roles: seq<ProjectRole>)
    | DropProject(key: Ref)

  /** A call succeeds, is refused without effect, or takes effect while its answer is lost. */
  datatype Outcome = Succeed | Refuse | Lose

  datatype PluginStatus = PluginGranted | PluginPending | PluginDenied | PluginUndeclared

  datatype PluginReply = Answer(status: PluginStatus, message: string) | NoAnswer | CallFailed

  /** What happens around one API or plugin call: first the events, then the call itself. */
  datatype Turn = Turn(events: seq<Event>, outcome: Outcome, reply: PluginReply)

  const QUIET := Turn([], Succeed, NoAnswer)

  /** `names` gives every template reference its role name; `ttl` and `timeout` are off at 0. */
  datatype Config = Config(plugin: bool, ttl: int, timeout: int, requeue: int, names: map<Ref, string>)

  /** What a run has shown: `clean` says that no outside edit has added a group to an ephemeral
      role or renamed a template, `conflicted` holds the requests ever found in conflict,
      `opposed` the very versions of them that were, `projectless` the versions of requests whose
      application was read with an empty project, `deleted` the requests other actors have deleted,
      and `answers` the plugin's answers to grant calls. */
  datatype Evidence = Evidence(
    clean: bool,
    conflicted: set<nat>,
    opposed: set<(nat, nat)>,
    projectless: set<(nat, nat)>,
    deleted: set<nat>,
    answers: set<(nat, PluginStatus)>)

  const NO_EVIDENCE := Evidence(true, {}, {}, {}, {}, {})

  /** The store, the turns still to come, every store passed through, and the evidence. */
  datatype World = World(cfg: Config, store: Store, script: seq<Turn>, trail: seq<Store>, ev: Evidence)

  // ---------------------------------------------------------------- other actors

  function Delete(s: Store, id: nat): Store {
    if id !in s.requests || s.requests[id].deleting then s
    else if s.requests[id].finalizer then
      s.(rev := s.rev + 1, requests := s.requests[id := s.requests[id].(deleting := true, version := s.rev + 1)])
    else s.(requests := s.requests - {id})
  }

  function Apply(s: Store, e: Event): Store {
    match e
    case Tick(t) => s.(now := s.now + t)
    case CreateRequest(ns, spec) =>
      var r := Request(s.next, s.rev + 1, ns, s.now, false, false, spec, FRESH);
      s.(rev := s.rev + 1, next := s.next + 1, requests := s.requests[s.next := r])
    case DeleteRequest(id) => Delete(s, id)
    case EditRequest(id, duration) =>
      if id !in s.requests then s
      else
        var r := s.requests[id];
        s.(rev := s.rev + 1,
           requests := s.requests[id := r.(version := s.rev + 1, spec := r.spec.(duration := duration))])
    case SetApp(app, project) => s.(apps := s.apps[app := project])
    case DropApp(app) => s.(apps := s.apps - {app})
    case SetTemplate(t) => s.(templates := s.templates[t.ref := t])
    case DropTemplate(ref) => s.(templates := s.templates - {ref})
    case SetProject(key, roles) =>
      if key.name == "" then s
      else s.(rev := s.rev + 1, projects := s.projects[key := Project(s.rev + 1, roles)])
    case DropProject(key) => s.(projects := s.projects - {key})
  }

  predicate Ephemeral(role: string) {
    |PREFIX| <= |role| && role[..|PREFIX|] == PREFIX
  }

  function RolesAt(s: Store, key: Ref): seq<ProjectRole> {
    if key in s.projects then s.projects[key].roles else []
  }

  /** The event adds no group to an ephemeral role and gives no template another role name. */
  predicate Polite(names: map<Ref, string>, s: Store, e: Event) {
    match e
    case SetTemplate(t) => t.ref in names && names[t.ref] == t.name
    case SetProject(key, roles) =>
      forall i, k :: 0 <= i < |roles| && Ephemeral(roles[i].name) && 0 <= k < |roles[i].groups| ==>
        Member(RolesAt(s, key), roles[i].name, roles[i].groups[k])
    case _ => true
  }

  function Commit(w: World, s: Store): World {
    w.(store := s, trail := w.trail + [s])
  }

  function EvidenceAfter(w: World, e: Event): Evidence {
    w.ev.(
      clean := w.ev.clean && Polite(w.cfg.names, w.store, e),
      deleted := w.ev.deleted + if e.DeleteRequest? then {e.id} else {})
  }

  /** The world after one thing another actor does. */
  function After(w: World, e: Event): World {
    Commit(w, Apply(w.store, e)).(ev := EvidenceAfter(w, e))
  }

  function Interfere(w: World, events: seq<Event>): World
    decreases |events|
  {
    if events == [] then w else Interfere(After(w, events[0]), events[1..])
  }

  /** Notes that the request's application was read with an empty project. */
  function NoteProjectless(w: World, ar: Request): World {
    w.(ev := w.ev.(projectless := w.ev.projectless + {(ar.id, ar.version)}))
  }

  /** Notes that the request was found in conflict. */
  function NoteConflict(w: World, ar: Request): World {
    w.(ev := w.ev.(conflicted := w.ev.conflicted + {ar.id}, opposed := w.ev.opposed + {(ar.id, ar.version)}))
  }

  /** Notes the plugin's answer to the request's grant call. */
  function NoteAnswer(w: World, id: nat, status: PluginStatus): World {
    w.(ev := w.ev.(answers := w.ev.answers + {(id, status)}))
  }

  // ---------------------------------------------------------------- calls

  /** Takes the next turn and lets the other actors act. */
  function Pause(w: World): (World, Turn) {
    if w.script == [] then (w, QUIET)
    else (Interfere(w.(script := w.script[1..]), w.script[0].events), w.script[0])
  }

  function GetRequest(w: World, id: nat): (World, Result<Request>) {
    var (w1, turn) := Pause(w);
    (w1,
     if !turn.outcome.Succeed? then Err(Failed)
     else if id !in w1.store.requests then Err(NotFound)
     else Ok(w1.store.requests[id]))
  }

  function GetApp(w: World, app: Ref): (World, Result<string>) {
    var (w1, turn) := Pause(w);
    (w1,
     if !turn.outcome.Succeed? then Err(Failed)
     else if app !in w1.store.apps then Err(NotFound)
     else Ok(w1.store.apps[app]))
  }

  function GetTemplate(w: World, ref: Ref): (World, Result<RoleTemplate>) {
    var (w1, turn) := Pause(w);
    (w1,
     if !turn.outcome.Succeed? then Err(Failed)
     else if ref !in w1.store.templates then Err(NotFound)
     else Ok(w1.store.templates[ref]))
  }

  function GetProject(w: World, key: Ref): (World, Result<Project>) {
    var (w1, turn) := Pause(w);
    (w1,
     if !turn.outcome.Succeed? then Err(Failed)
     else if key !in w1.store.projects then Err(NotFound)
     else Ok(w1.store.projects[key]))
  }

  /** The requests of one namespace, user and application, by ascending id. */
  function Listed(s: Store, from: nat, ns: string, user: string, app: Ref): seq<Request>
    decreases s.next - from
  {
    if from >= s.next then []
    else
      var rest := Listed(s, from + 1, ns, user, app);
      if from in s.requests && s.requests[from].ns == ns && s.requests[from].spec.user == user
         && s.requests[from].spec.app == app
      then [s.requests[from]] + rest else rest
  }

  /** The list call looks the requests up in indexes, which leave out empty values. */
  function Siblings(s: Store, ns: string, user: string, app: Ref): seq<Request> {
    if user == "" || app.name == "" || app.ns == "" then [] else Listed(s, 0, ns, user, app)
  }

  lemma {:induction false} ListedHolds(s: Store, from: nat, ns: string, user: string, app: Ref, id: nat)
    requires from <= id < s.next && id in s.requests
    requires s.requests[id].ns == ns && s.requests[id].spec.user == user && s.requests[id].spec.app == app
    ensures s.requests[id] in Listed(s, from, ns, user, app)
    decreases id - from
  {
    if from < id { ListedHolds(s, from + 1, ns, user, app, id); }
  }

  lemma {:induction false} ListedFrom(s: Store, from: nat, ns: string, user: string, app: Ref)
    ensures forall r :: r in Listed(s, from, ns, user, app) ==>
              exists id :: from <= id < s.next && id in s.requests && s.requests[id] == r
                && r.ns == ns && r.spec.user == user && r.spec.app == app
    decreases s.next - from
  {
    if from < s.next { ListedFrom(s, from + 1, ns, user, app); }
  }

  /** The request is stored and of that key, every part of which is named. */
  predicate Indexed(s: Store, ns: string, user: string, app: Ref, r: Request) {
    && user != "" && app.name != "" && app.ns != ""
    && r.ns == ns && r.spec.user == user && r.spec.app == app
    && exists id :: 0 <= id < s.next && id in s.requests && s.requests[id] == r
  }

  /** These are the requests the list call finds. */
  lemma SiblingsHold(s: Store, ns: string, user: string, app: Ref, r: Request)
    ensures r in Siblings(s, ns, user, app) <==> Indexed(s, ns, user, app, r)
  {
    ListedFrom(s, 0, ns, user, app);
    if r.ns == ns && r.spec.user == user && r.spec.app == app {
      if id :| 0 <= id < s.next && id in s.requests && s.requests[id] == r {
        ListedHolds(s, 0, ns, user, app, id);
      }
    }
  }

  function ListRequests(w: World, ns: string, user: string, app: Ref): (World, Result<seq<Request>>) {
    var (w1, turn) := Pause(w);
    (w1, if !turn.outcome.Succeed? then Err(Failed) else Ok(Siblings(w1.store, ns, user, app)))
  }

  /** A merge patch under optimistic lock: it carries the whole list of roles and is refused
      when the stored version is not the one that was read. A patch that changes nothing writes
      nothing. */
  function PatchProject(w: World, key: Ref, version: nat, roles: seq<ProjectRole>): (World, Option<Error>) {
    var (w1, turn) := Pause(w);
    if turn.outcome.Refuse? then (w1, Some(Failed))
    else if key !in w1.store.projects then (w1, Some(NotFound))
    else if w1.store.projects[key].version != version then (w1, Some(Conflict))
    else
      var s := w1.store;
      var w2 :=
        if s.projects[key].roles == roles then w1
        else Commit(w1, s.(rev := s.rev + 1, projects := s.projects[key := Project(s.rev + 1, roles)]));
      (w2, if turn.outcome.Lose? then Some(Failed) else None)
  }

  /** Writes the status of the in-memory copy `ar`; on success the copy becomes the stored request. */
  function PutStatus(w: World, ar: Request): (World, Request, Option<Error>) {
    var (w1, turn) := Pause(w);
    var s := w1.store;
    if turn.outcome.Refuse? then (w1, ar, Some(Failed))
    else if ar.id !in s.requests then (w1, ar, Some(NotFound))
    else if s.requests[ar.id].version != ar.version then (w1, ar, Some(Conflict))
    else
      var r := s.requests[ar.id].(status := ar.status, version := s.rev + 1);
      var w2 := Commit(w1, s.(rev := s.rev + 1, requests := s.requests[ar.id := r]));
      if turn.outcome.Lose? then (w2, ar, Some(Failed)) else (w2, r, None)
  }

  /** Writes the finalizer of `ar`. A request marked for deletion goes away with its finalizer. */
  function PutFinalizer(w: World, ar: Request): (World, Request, Option<Error>) {
    var (w1, turn) := Pause(w);
    var s := w1.store;
    if turn.outcome.Refuse? then (w1, ar, Some(Failed))
    else if ar.id !in s.requests then (w1, ar, Some(NotFound))
    else if s.requests[ar.id].version != ar.version then (w1, ar, Some(Conflict))
    else
      var r := s.requests[ar.id].(finalizer := ar.finalizer, version := s.rev + 1);
      var requests := if r.deleting && !r.finalizer then s.requests - {ar.id} else s.requests[ar.id := r];
      var w2 := Commit(w1, s.(rev := s.rev + 1, requests := requests));
      if turn.outcome.Lose? then (w2, ar, Some(Failed)) else (w2, r, None)
  }

  function DeleteCall(w: World, id: nat): (World, Option<Error>) {
    var (w1, turn) := Pause(w);
    if turn.outcome.Refuse? then (w1, Some(Failed))
    else if id !in w1.store.requests then (w1, Some(NotFound))
    else
      var w2 := Commit(w1, Delete(w1.store, id));
      (w2, if turn.outcome.Lose? then Some(Failed) else None)
  }

  /** A grant or revoke call to the plugin. */
  function CallPlugin(w: World): (World, PluginReply) {
    var (w1, turn) := Pause(w);
    (w1, turn.reply)
  }
}
