/** The attachment store behind the tunnels (relay/src/relay.js): uploads, downloads and deletes
    are checked against the credential the tunnel has at that moment, and files are kept under
    the tunnel's id. A tunnel may be deleted and opened again under the same id: its lives.
    An upload is checked when its form has been read, before its content has; a download when
    it arrives. A crash loses every tunnel and no file. */
module AttachmentOwnership {
  import opened Wrappers
  import Relay
  import RelayOwnership
  import Attachments

  type TunnelId = string
  type Hash = string
  type Key = string
  type TaskId = nat

  /** A credential that was accepted for a tunnel, in one of its lives. */
  datatype Mark = Mark(tunnel: TunnelId, hash: Hash, life: nat)

  /** `lives` lists, for each tunnel id, the credentials its tunnels were opened with. */
  datatype State = State(
    relay: Relay.State,
    store: Attachments.State,
    lives: map<TunnelId, seq<Hash>>,
    admitted: map<TaskId, Mark>,
    uploads: map<Key, Mark>,
    asks: map<TaskId, Mark>)

  const INIT := State(Relay.INIT, Attachments.INIT, map[], map[], map[], map[])

  datatype Event =
    | Sockets(event: Relay.Event)
    | Admit(task: TaskId, tunnel: TunnelId, hash: Hash)
    | Upload(task: TaskId, key: Key, entry: Attachments.Entry)
    | Request(task: TaskId, tunnel: TunnelId, hash: Hash, key: Key, deleting: bool)
    | Files(step: Attachments.Event)
    | Crash

  function LivesOf(lives: map<TunnelId, seq<Hash>>, t: TunnelId): seq<Hash> { if t in lives then lives[t] else [] }

  /** A tunnel that was not stored before begins a life. */
  function LivesAfter(lives: map<TunnelId, seq<Hash>>, before: Relay.State, after: Relay.State): map<TunnelId, seq<Hash>> {
    map t | t in lives.Keys + after.tunnels.Keys ::
      if t in after.tunnels && t !in before.tunnels then LivesOf(lives, t) + [after.tunnels[t].hash] else LivesOf(lives, t)
  }

  predicate Authentic(s: State, tunnel: TunnelId, hash: Hash) {
    tunnel in s.relay.tunnels && s.relay.tunnels[tunnel].hash == hash && LivesOf(s.lives, tunnel) != []
  }

  function MarkNow(s: State, tunnel: TunnelId, hash: Hash): Mark
    requires Authentic(s, tunnel, hash)
  {
    Mark(tunnel, hash, |LivesOf(s.lives, tunnel)| - 1)
  }

  predicate CanHappen(s: State, e: Event) {
    match e
    case Sockets(_) => true
    case Admit(_, tunnel, hash) => Authentic(s, tunnel, hash)
    case Upload(t, k, entry) =>
      && t in s.admitted && entry.meta.tunnel == s.admitted[t].tunnel
      && Attachments.CanHappen(s.store, Attachments.Upload(t, k, entry))
    case Request(t, tunnel, hash, _, _) => Authentic(s, tunnel, hash) && t !in s.store.tasks
    case Files(step) => !step.Upload? && !step.Request? && !step.Crash?
    case Crash => true
  }

  function Step(s: State, e: Event): State {
    if !CanHappen(s, e) then s else
    match e
    case Sockets(event) =>
      var after := Relay.Step(s.relay, event);
      s.(relay := after, lives := LivesAfter(s.lives, s.relay, after))
    case Admit(t, tunnel, hash) => s.(admitted := s.admitted[t := MarkNow(s, tunnel, hash)])
    case Upload(t, k, entry) =>
      s.(store := Attachments.Step(s.store, Attachments.Upload(t, k, entry)), uploads := s.uploads[k := s.admitted[t]])
    case Request(t, tunnel, hash, k, deleting) =>
      s.(store := Attachments.Step(s.store, Attachments.Request(t, tunnel, k, deleting)), asks := s.asks[t := MarkNow(s, tunnel, hash)])
    case Files(step) => s.(store := Attachments.Step(s.store, step))
    case Crash => s.(relay := Relay.INIT, store := Attachments.Step(s.store, Attachments.Crash), admitted := map[], asks := map[])
  }

  function RunFrom(s: State, es: seq<Event>): State {
    if es == [] then s else Step(RunFrom(s, es[..|es| - 1]), es[|es| - 1])
  }

  function Run(es: seq<Event>): State { RunFrom(INIT, es) }

  // -------------------------------------------------------------------- invariant

  /** This tunnel did have this life, and it was opened with this credential. */
  predicate MarkOk(lives: map<TunnelId, seq<Hash>>, m: Mark) {
    m.life < |LivesOf(lives, m.tunnel)| && LivesOf(lives, m.tunnel)[m.life] == m.hash
  }

  /** A stored tunnel has the credential its present life was opened with. */
  ghost predicate LivesOk(s: State) {
    forall t <- s.relay.tunnels :: var l := LivesOf(s.lives, t); l != [] && l[|l| - 1] == s.relay.tunnels[t].hash
  }

  ghost predicate MarksOk(s: State) {
    && (forall t <- s.admitted :: MarkOk(s.lives, s.admitted[t]))
    && (forall k <- s.uploads :: MarkOk(s.lives, s.uploads[k]))
    && (forall t <- s.asks :: MarkOk(s.lives, s.asks[t]))
  }

  predicate OnBehalf(task: Attachments.Task) { task.Looking? || task.Reading? || task.Answered? }

  /** Every upload and every lookup was let in for the tunnel it names. */
  ghost predicate MarkedOk(store: Attachments.State, uploads: map<Key, Mark>, asks: map<TaskId, Mark>) {
    && (forall k <- store.made :: k in uploads && uploads[k].tunnel == store.made[k].meta.tunnel)
    && (forall t <- store.tasks :: OnBehalf(store.tasks[t]) ==> t in asks && asks[t].tunnel == store.tasks[t].tunnel)
  }

  ghost predicate Sound(s: State) {
    Attachments.Inv(s.store) && LivesOk(s) && MarksOk(s) && MarkedOk(s.store, s.uploads, s.asks)
  }

  lemma SocketsKeepLives(s: State, e: Relay.Event)
    requires LivesOk(s) && MarksOk(s)
    ensures LivesOk(Step(s, Sockets(e))) && MarksOk(Step(s, Sockets(e)))
  {
    var s' := Step(s, Sockets(e));
    forall t | t in s'.relay.tunnels
      ensures var l := LivesOf(s'.lives, t); l != [] && l[|l| - 1] == s'.relay.tunnels[t].hash
    {
      if t in s.relay.tunnels { RelayOwnership.StepKeepsHash(s.relay, e, t); }
    }
    forall m: Mark | MarkOk(s.lives, m) ensures MarkOk(s'.lives, m) { assert LivesOf(s.lives, m.tunnel) <= LivesOf(s'.lives, m.tunnel); }
  }

  lemma ReadMetaKeepsMarked(s: Attachments.State, t: TaskId, r: TaskId, uploads: map<Key, Mark>, asks: map<TaskId, Mark>)
    requires MarkedOk(s, uploads, asks) && Attachments.CanHappen(s, Attachments.ReadMeta(t, r))
    ensures MarkedOk(Attachments.OnReadMeta(s, t, r), uploads, asks)
  {
    assert OnBehalf(s.tasks[t]);
  }

  lemma ReadDataKeepsMarked(s: Attachments.State, t: TaskId, uploads: map<Key, Mark>, asks: map<TaskId, Mark>)
    requires MarkedOk(s, uploads, asks) && Attachments.CanHappen(s, Attachments.ReadData(t))
    ensures MarkedOk(Attachments.OnReadData(s, t), uploads, asks)
  {
    assert OnBehalf(s.tasks[t]);
  }

  lemma FilesKeepMarked(s: Attachments.State, e: Attachments.Event, uploads: map<Key, Mark>, asks: map<TaskId, Mark>)
    requires MarkedOk(s, uploads, asks) && !e.Upload? && !e.Request?
    ensures MarkedOk(Attachments.Step(s, e), uploads, asks)
  {
    if Attachments.CanHappen(s, e) {
      if e.ReadMeta? { ReadMetaKeepsMarked(s, e.task, e.removal, uploads, asks); }
      if e.ReadData? { ReadDataKeepsMarked(s, e.task, uploads, asks); }
    }
  }

  lemma UploadKeepsSound(s: State, e: Event)
    requires Sound(s) && e.Upload? && CanHappen(s, e)
    ensures Sound(Step(s, e))
  {
    Attachments.StepKeepsInv(s.store, Attachments.Upload(e.task, e.key, e.entry));
  }

  lemma RequestKeepsSound(s: State, e: Event)
    requires Sound(s) && e.Request? && CanHappen(s, e)
    ensures Sound(Step(s, e))
  {
    Attachments.StepKeepsInv(s.store, Attachments.Request(e.task, e.tunnel, e.key, e.deleting));
  }

  lemma FilesKeepSound(s: State, e: Attachments.Event)
    requires Sound(s) && CanHappen(s, Files(e))
    ensures Sound(Step(s, Files(e)))
  {
    Attachments.StepKeepsInv(s.store, e);
    FilesKeepMarked(s.store, e, s.uploads, s.asks);
  }

  lemma CrashKeepsSound(s: State)
    requires Sound(s)
    ensures Sound(Step(s, Crash))
  {
    Attachments.StepKeepsInv(s.store, Attachments.Crash);
  }

  lemma StepKeepsSound(s: State, e: Event)
    requires Sound(s)
    ensures Sound(Step(s, e))
  {
    if CanHappen(s, e) {
      match e
      case Sockets(event) => SocketsKeepLives(s, event);
      case Admit(_, _, _) =>
      case Upload(_, _, _) => UploadKeepsSound(s, e);
      case Request(_, _, _, _, _) => RequestKeepsSound(s, e);
      case Files(step) => FilesKeepSound(s, step);
      case Crash => CrashKeepsSound(s);
    }
  }

  lemma {:induction false} RunKeepsSound(es: seq<Event>)
    ensures Sound(Run(es))
  {
    if es != [] {
      RunKeepsSound(es[..|es| - 1]);
      StepKeepsSound(Run(es[..|es| - 1]), es[|es| - 1]);
    }
  }

  // --------------------------------------------------------------- who gets what

  /** A successful download goes to a holder of the uploader's credential exactly if the lives
      of the tunnel the two were let in during were opened with the same credential; within
      one life that is always so. */
  lemma DownloaderHasUploadersCredentialIff(es: seq<Event>, t: TaskId)
    requires t in Run(es).store.tasks && Run(es).store.tasks[t].Answered? && Run(es).store.tasks[t].answer.Found?
    ensures var s := Run(es); var task := s.store.tasks[t];
            && task.key in s.store.made && task.key in s.uploads && t in s.asks
            && task.answer == Attachments.Found(s.store.made[task.key].content, s.store.made[task.key].meta)
            && var up, down := s.uploads[task.key], s.asks[t];
            && up.tunnel == down.tunnel == task.tunnel && MarkOk(s.lives, up) && MarkOk(s.lives, down)
            && (up.hash == down.hash <==> LivesOf(s.lives, task.tunnel)[up.life] == LivesOf(s.lives, task.tunnel)[down.life])
            && (up.life == down.life ==> up.hash == down.hash)
  {
    RunKeepsSound(es);
    var s := Run(es);
    assert Attachments.TaskOk(s.store, s.store.tasks[t]);
    assert OnBehalf(s.store.tasks[t]);
  }

  /** The tunnel is stored before, between and after all these steps. */
  predicate StoredThroughout(s: State, es: seq<Event>, t: TunnelId) {
    t in RunFrom(s, es).relay.tunnels && (es == [] || StoredThroughout(s, es[..|es| - 1], t))
  }

  lemma StepLives(s: State, e: Event, t: TunnelId)
    ensures var l, l' := LivesOf(s.lives, t), LivesOf(Step(s, e).lives, t);
            |l'| == if t !in s.relay.tunnels && t in Step(s, e).relay.tunnels then |l| + 1 else |l|
  {
  }

  lemma {:induction false} LivesOnlyGrow(s: State, es: seq<Event>, t: TunnelId)
    ensures |LivesOf(s.lives, t)| <= |LivesOf(RunFrom(s, es).lives, t)|
  {
    if es != [] {
      LivesOnlyGrow(s, es[..|es| - 1], t);
      StepLives(RunFrom(s, es[..|es| - 1]), es[|es| - 1], t);
    }
  }

  /** From one moment at which a tunnel is stored to another it is in the same life exactly if
      it has been stored at every moment in between. */
  lemma {:induction false} SameLifeIffStoredThroughout(s: State, es: seq<Event>, t: TunnelId)
    requires t in s.relay.tunnels
    ensures StoredThroughout(s, es, t) <==>
              t in RunFrom(s, es).relay.tunnels && |LivesOf(RunFrom(s, es).lives, t)| == |LivesOf(s.lives, t)|
  {
    if es != [] {
      var before := es[..|es| - 1];
      SameLifeIffStoredThroughout(s, before, t);
      LivesOnlyGrow(s, before, t);
      StepLives(RunFrom(s, before), es[|es| - 1], t);
    }
  }

  // ------------------------------------------------------------------- a stranger

  const OWNER := Relay.Hello(Relay.Desktop, "t", "h1")
  const STRANGER := Relay.Hello(Relay.Desktop, "t", "h2")
  const ENTRY := Attachments.Entry([7], Attachments.Meta("k", "t", 10, "photo"))

  lemma RunExtends(es: seq<Event>, e: Event)
    ensures Run(es + [e]) == Step(Run(es), e)
  {
    assert (es + [e])[..|es + [e]| - 1] == es;
  }

  /** Two steps after a run with a known result. */
  lemma ThenTwo(es: seq<Event>, s: State, a: Event, b: Event)
    requires Run(es) == s
    ensures Run(es + [a, b]) == Step(Step(s, a), b)
  {
    RunExtends(es, a);
    RunExtends(es + [a], b);
    assert es + [a] + [b] == es + [a, b];
  }

  /** Two steps on the files. */
  lemma TwoFiles(es: seq<Event>, s: State, a: Attachments.Event, b: Attachments.Event, after: Attachments.State)
    requires Run(es) == s && CanHappen(s, Files(a)) && CanHappen(s, Files(b))
    requires Attachments.Step(Attachments.Step(s.store, a), b) == after
    ensures Run(es + [Files(a), Files(b)]) == s.(store := after)
  {
    ThenTwo(es, s, Files(a), Files(b));
  }

  /** A desktop opens the only tunnel. */
  function Open(s: State, c: Relay.ConnId, hello: Relay.Hello): State {
    Step(Step(s, Sockets(Relay.Connect(c))), Sockets(Relay.First(c, Some(hello))))
  }

  lemma TunnelOpens(s: State, c: Relay.ConnId, hello: Relay.Hello)
    requires s.relay.tunnels == map[] && c !in s.relay.sockets && hello.tunnelId == "t" && hello.role.Desktop?
    ensures var s' := Open(s, c, hello);
            && s'.relay.tunnels == map["t" := Relay.Tunnel(hello.hash, Some(c), {}, map[])]
            && s'.relay.sockets == s.relay.sockets[c := Relay.Socket(Relay.Open, true, Some(hello), true)]
            && s'.lives == s.lives["t" := LivesOf(s.lives, "t") + [hello.hash]]
            && s' == s.(relay := s'.relay, lives := s'.lives)
  {
    SocketConnects(s, c);
  }

  lemma SocketConnects(s: State, c: Relay.ConnId)
    requires s.relay.tunnels == map[] && c !in s.relay.sockets
    ensures Step(s, Sockets(Relay.Connect(c))) ==
              s.(relay := s.relay.(sockets := s.relay.sockets[c := Relay.Socket(Relay.Open, false, None, true)]))
  {
    assert Step(s, Sockets(Relay.Connect(c))).lives == s.lives;
  }

  lemma TunnelCloses(s: State, c: Relay.ConnId, hello: Relay.Hello)
    requires s.relay.tunnels == map["t" := Relay.Tunnel(hello.hash, Some(c), {}, map[])] && hello.tunnelId == "t" && hello.role.Desktop?
    requires c in s.relay.sockets && s.relay.sockets[c] == Relay.Socket(Relay.Open, true, Some(hello), true)
    ensures var s' := Step(s, Sockets(Relay.CloseEvent(c)));
            && s'.relay.tunnels == map[] && s'.relay.sockets.Keys == s.relay.sockets.Keys
            && s' == s.(relay := s'.relay)
  {
    assert Step(s, Sockets(Relay.CloseEvent(c))).lives == s.lives;
  }

  /** The upload, stage by stage. */
  function UploadingStore(stage: Attachments.Stage, temp: map<Key, Attachments.Bytes>, data: map<Key, Attachments.Bytes>): Attachments.State {
    Attachments.INIT.(data := data, temp := temp, tasks := map[1 := Attachments.Uploading("k", stage)], made := map["k" := ENTRY])
  }

  function StoredStore(tasks: map<TaskId, Attachments.Task>): Attachments.State {
    Attachments.INIT.(data := map["k" := ENTRY.content], meta := map["k" := ENTRY.meta], made := map["k" := ENTRY], committed := {"k"}, tasks := tasks)
  }

  lemma UploadSteps()
    ensures Attachments.Step(Attachments.INIT, Attachments.Upload(1, "k", ENTRY)) == UploadingStore(Attachments.Created, map[], map[])
    ensures Attachments.Step(UploadingStore(Attachments.Created, map[], map[]), Attachments.WriteTemp(1, 1)) ==
              UploadingStore(Attachments.Created, map["k" := ENTRY.content], map[])
  {
    assert ENTRY.content[..1] == ENTRY.content;
  }

  lemma CommitSteps()
    ensures Attachments.Step(UploadingStore(Attachments.Created, map["k" := ENTRY.content], map[]), Attachments.RenameData(1)) ==
              UploadingStore(Attachments.DataStored, map[], map["k" := ENTRY.content])
    ensures Attachments.Step(UploadingStore(Attachments.DataStored, map[], map["k" := ENTRY.content]), Attachments.WriteMeta(1)) ==
              UploadingStore(Attachments.MetaWritten, map[], map["k" := ENTRY.content])
    ensures Attachments.Step(UploadingStore(Attachments.MetaWritten, map[], map["k" := ENTRY.content]), Attachments.RenameMeta(1)) == StoredStore(map[])
  {
  }

  function Looking(): Attachments.State { StoredStore(map[2 := Attachments.Looking("t", "k", false)]) }

  function Reading(): Attachments.State { StoredStore(map[2 := Attachments.Reading("t", "k", ENTRY.meta, Some(ENTRY), 0)]) }

  function Served(): Attachments.State {
    StoredStore(map[2 := Attachments.Answered("t", "k", Attachments.Found(ENTRY.content, ENTRY.meta), Some(ENTRY), 0)])
  }

  lemma RequestStep()
    ensures Attachments.Step(StoredStore(map[]), Attachments.Request(2, "t", "k", false)) == Looking()
  {
  }

  lemma ReadingSteps()
    ensures Attachments.Step(Looking(), Attachments.ReadMeta(2, 9)) == Reading()
    ensures Attachments.Step(Reading(), Attachments.ReadData(2)) == Served()
  {
    assert Attachments.Store(Looking())["k"] == ENTRY;
  }

  function Uploaded(): seq<Event> {
    [] + [Sockets(Relay.Connect(0)), Sockets(Relay.First(0, Some(OWNER)))] + [Admit(1, "t", "h1"), Upload(1, "k", ENTRY)]
    + [Files(Attachments.WriteTemp(1, 1)), Files(Attachments.RenameData(1))] + [Files(Attachments.WriteMeta(1)), Files(Attachments.RenameMeta(1))]
  }

  /** The owner's tunnel is open, and the upload has come this far. */
  function Owned(store: Attachments.State): State {
    var s := Open(INIT, 0, OWNER);
    s.(store := store, admitted := map[1 := Mark("t", "h1", 0)], uploads := map["k" := Mark("t", "h1", 0)])
  }

  lemma OwnerBegins()
    ensures Run([] + [Sockets(Relay.Connect(0)), Sockets(Relay.First(0, Some(OWNER)))] + [Admit(1, "t", "h1"), Upload(1, "k", ENTRY)]) ==
              Owned(UploadingStore(Attachments.Created, map[], map[]))
  {
    var a := [Sockets(Relay.Connect(0)), Sockets(Relay.First(0, Some(OWNER)))];
    ThenTwo([], INIT, a[0], a[1]);
    ThenTwo([] + a, Open(INIT, 0, OWNER), Admit(1, "t", "h1"), Upload(1, "k", ENTRY));
    OwnerIsAdmitted();
  }

  lemma OwnerIsAdmitted()
    ensures Step(Step(Open(INIT, 0, OWNER), Admit(1, "t", "h1")), Upload(1, "k", ENTRY)) == Owned(UploadingStore(Attachments.Created, map[], map[]))
  {
    TunnelOpens(INIT, 0, OWNER);
    UploadSteps();
  }

  lemma OwnerUploads()
    ensures Run(Uploaded()) == Owned(StoredStore(map[]))
  {
    var a, b := [Sockets(Relay.Connect(0)), Sockets(Relay.First(0, Some(OWNER)))], [Admit(1, "t", "h1"), Upload(1, "k", ENTRY)];
    var c := [Files(Attachments.WriteTemp(1, 1)), Files(Attachments.RenameData(1))];
    OwnerBegins();
    UploadSteps();
    CommitSteps();
    TwoFiles([] + a + b, Owned(UploadingStore(Attachments.Created, map[], map[])), Attachments.WriteTemp(1, 1), Attachments.RenameData(1),
             UploadingStore(Attachments.DataStored, map[], map["k" := ENTRY.content]));
    TwoFiles([] + a + b + c, Owned(UploadingStore(Attachments.DataStored, map[], map["k" := ENTRY.content])),
             Attachments.WriteMeta(1), Attachments.RenameMeta(1), StoredStore(map[]));
  }

  /** The owner leaves, a stranger opens a tunnel under the same id and asks for the file. */
  function Taken(): seq<Event> {
    Uploaded() + [Sockets(Relay.CloseEvent(0))] + [Sockets(Relay.Connect(2)), Sockets(Relay.First(2, Some(STRANGER)))]
    + [Request(2, "t", "h2", "k", false)] + [Files(Attachments.ReadMeta(2, 9)), Files(Attachments.ReadData(2))]
  }

  function Abandoned(): State { Step(Owned(StoredStore(map[])), Sockets(Relay.CloseEvent(0))) }

  function Strange(store: Attachments.State): State {
    Open(Abandoned(), 2, STRANGER).(store := store, asks := map[2 := Mark("t", "h2", 1)])
  }

  lemma OwnerLeaves()
    ensures Deserted(Abandoned())
  {
    TunnelOpens(INIT, 0, OWNER);
    assert [] + ["h1"] == ["h1"];
    TunnelCloses(Owned(StoredStore(map[])), 0, OWNER);
  }

  /** No tunnel, and the owner's upload. */
  predicate Deserted(s: State) {
    && s.relay.tunnels == map[] && 2 !in s.relay.sockets && LivesOf(s.lives, "t") == ["h1"]
    && s.store == StoredStore(map[]) && s.uploads == map["k" := Mark("t", "h1", 0)] && s.asks == map[]
  }

  lemma StrangerOpens(s: State)
    requires Deserted(s)
    ensures var s' := Open(s, 2, STRANGER);
            && "t" in s'.relay.tunnels && s'.relay.tunnels["t"].hash == "h2" && LivesOf(s'.lives, "t") == ["h1", "h2"]
            && s'.store == StoredStore(map[]) && s'.uploads == map["k" := Mark("t", "h1", 0)] && s'.asks == map[]
  {
    TunnelOpens(s, 2, STRANGER);
    assert ["h1"] + ["h2"] == ["h1", "h2"];
  }

  lemma RunsToStranger()
    ensures Run(Uploaded() + [Sockets(Relay.CloseEvent(0))] + [Sockets(Relay.Connect(2)), Sockets(Relay.First(2, Some(STRANGER)))]) ==
              Open(Abandoned(), 2, STRANGER)
  {
    OwnerUploads();
    RunExtends(Uploaded(), Sockets(Relay.CloseEvent(0)));
    ThenTwo(Uploaded() + [Sockets(Relay.CloseEvent(0))], Abandoned(), Sockets(Relay.Connect(2)), Sockets(Relay.First(2, Some(STRANGER))));
  }

  lemma StrangerAsks(s: State)
    requires "t" in s.relay.tunnels && s.relay.tunnels["t"].hash == "h2" && LivesOf(s.lives, "t") == ["h1", "h2"]
    requires s.store == StoredStore(map[]) && s.asks == map[]
    ensures Step(s, Request(2, "t", "h2", "k", false)) == s.(store := Looking(), asks := map[2 := Mark("t", "h2", 1)])
  {
    RequestStep();
  }

  /** The stranger, who never held the uploader's credential, gets the file. */
  lemma StrangerDownloads()
    ensures var s := Run(Taken());
            && 2 in s.store.tasks && s.store.tasks[2].Answered? && s.store.tasks[2].key == "k"
            && s.store.tasks[2].answer == Attachments.Found(ENTRY.content, ENTRY.meta)
            && "k" in s.uploads && 2 in s.asks && s.uploads["k"].hash == "h1" && s.asks[2].hash == "h2"
  {
    var es := Uploaded() + [Sockets(Relay.CloseEvent(0))] + [Sockets(Relay.Connect(2)), Sockets(Relay.First(2, Some(STRANGER)))];
    RunsToStranger();
    OwnerLeaves();
    StrangerOpens(Abandoned());
    RunExtends(es, Request(2, "t", "h2", "k", false));
    StrangerAsks(Open(Abandoned(), 2, STRANGER));
    ReadingSteps();
    TwoFiles(es + [Request(2, "t", "h2", "k", false)], Strange(Looking()), Attachments.ReadMeta(2, 9), Attachments.ReadData(2), Served());
  }
}
