/** The relay's attachment store (relay/src/relay.js): one data file and one metadata file
    per key, each written to a temporary name and renamed, data before metadata. Uploads,
    downloads, deletes and clean-up run concurrently and interleave at every `await`; the
    process may crash at any point and lose every task but no file. */
module Attachments {
  import opened Wrappers

  type Key = string
  type TunnelId = string
  type TaskId = nat
  type Bytes = seq<bv8>

  datatype Meta = Meta(key: Key, tunnel: TunnelId, expires: int, description: string)
  datatype Entry = Entry(content: Bytes, meta: Meta)

  datatype Stage = Created | DataStored | MetaWritten
  datatype Reason = Expired | Owner(tunnel: TunnelId)
  datatype Answer = Found(content: Bytes, meta: Meta) | Missing

  /** `seen` and `at` note what an atomic map would have answered when the metadata was
      read, and when that was. */
  datatype Task =
    | Uploading(key: Key, stage: Stage)
    | Failing(key: Key)
    | Looking(tunnel: TunnelId, key: Key, deleting: bool)
    | Reading(tunnel: TunnelId, key: Key, meta: Meta, seen: Option<Entry>, at: int)
    | Answered(tunnel: TunnelId, key: Key, answer: Answer, seen: Option<Entry>, at: int)
    | Removing(key: Key, reason: Reason)

  /** `made` remembers the upload behind each key ever issued, `committed` the keys whose
      metadata has been renamed into place. */
  datatype State = State(
    data: map<Key, Bytes>,
    meta: map<Key, Meta>,
    temp: map<Key, Bytes>,
    tasks: map<TaskId, Task>,
    clock: int,
    made: map<Key, Entry>,
    committed: set<Key>)

  const INIT := State(map[], map[], map[], map[], 0, map[], {})

  /** The atomic map the two files stand for. */
  function Store(s: State): map<Key, Entry> {
    map k | k in s.data && k in s.meta :: Entry(s.data[k], s.meta[k])
  }

  datatype Event =
    | Upload(task: TaskId, key: Key, entry: Entry)
    | WriteTemp(task: TaskId, written: nat)
    | RenameData(task: TaskId)
    | WriteMeta(task: TaskId)
    | RenameMeta(task: TaskId)
    | Fail(task: TaskId)
    | Undo(task: TaskId, data: bool)
    | Request(task: TaskId, tunnel: TunnelId, key: Key, deleting: bool)
    | ReadMeta(task: TaskId, removal: TaskId)
    | ReadData(task: TaskId)
    | CleanUp(removal: TaskId, key: Key, now: int)
    | Remove(task: TaskId, data: bool)
    | Tick
    | Crash

  predicate CanHappen(s: State, e: Event) {
    match e
    case Upload(t, k, entry) => t !in s.tasks && k !in s.made && entry.meta.key == k
    case WriteTemp(t, n) => t in s.tasks && s.tasks[t].Uploading? && s.tasks[t].stage.Created? && s.tasks[t].key in s.made
                            && n <= |s.made[s.tasks[t].key].content|
    case RenameData(t) => t in s.tasks && s.tasks[t].Uploading? && s.tasks[t].stage.Created? && s.tasks[t].key in s.made
                          && s.tasks[t].key in s.temp && s.temp[s.tasks[t].key] == s.made[s.tasks[t].key].content
    case WriteMeta(t) => t in s.tasks && s.tasks[t].Uploading? && s.tasks[t].stage.DataStored?
    case RenameMeta(t) => t in s.tasks && s.tasks[t].Uploading? && s.tasks[t].stage.MetaWritten? && s.tasks[t].key in s.made
    case Fail(t) => t in s.tasks && s.tasks[t].Uploading?
    case Undo(t, _) => t in s.tasks && s.tasks[t].Failing?
    case Request(t, _, _, _) => t !in s.tasks
    case ReadMeta(t, r) => t in s.tasks && s.tasks[t].Looking? && r !in s.tasks
    case ReadData(t) => t in s.tasks && s.tasks[t].Reading?
    case CleanUp(r, _, now) => r !in s.tasks && now <= s.clock
    case Remove(t, _) => t in s.tasks && s.tasks[t].Removing?
    case Tick => true
    case Crash => true
  }

  function SetTask(s: State, t: TaskId, task: Task): State { s.(tasks := s.tasks[t := task]) }

  /** `readAttachmentMetadata`, then `assertAttachmentMetadata`, for a download or a delete. */
  function OnReadMeta(s: State, t: TaskId, removal: TaskId): State
    requires CanHappen(s, ReadMeta(t, removal))
  {
    var Looking(tunnel, k, deleting) := s.tasks[t];
    var seen := if k in Store(s) then Some(Store(s)[k]) else None;
    if k !in s.meta || s.meta[k].key != k || s.meta[k].tunnel != tunnel then
      SetTask(s, t, Answered(tunnel, k, Missing, seen, s.clock))
    else if s.meta[k].expires <= s.clock then
      SetTask(SetTask(s, t, Answered(tunnel, k, Missing, seen, s.clock)), removal, Removing(k, Expired))
    else if deleting then
      SetTask(s, t, Removing(k, Owner(tunnel)))
    else
      SetTask(s, t, Reading(tunnel, k, s.meta[k], seen, s.clock))
  }

  function OnReadData(s: State, t: TaskId): State
    requires CanHappen(s, ReadData(t))
  {
    var Reading(tunnel, k, meta, seen, at) := s.tasks[t];
    SetTask(s, t, Answered(tunnel, k, if k in s.data then Found(s.data[k], meta) else Missing, seen, at))
  }

  /** One entry of the clean-up scan, with the time the scan started at. */
  function OnCleanUp(s: State, removal: TaskId, k: Key, now: int): State {
    if k in s.meta && s.meta[k].key == k && s.meta[k].expires <= now then SetTask(s, removal, Removing(k, Expired)) else s
  }

  /** One of the two parallel file removals; a task may repeat it, as `rm` is forced. */
  function RemoveFile(s: State, k: Key, data: bool): State {
    if data then s.(data := s.data - {k}) else s.(meta := s.meta - {k})
  }

  function Step(s: State, e: Event): State {
    if !CanHappen(s, e) then s else
    match e
    case Upload(t, k, entry) => SetTask(s.(made := s.made[k := entry]), t, Uploading(k, Created))
    case WriteTemp(t, n) => s.(temp := s.temp[s.tasks[t].key := s.made[s.tasks[t].key].content[..n]])
    case RenameData(t) =>
      var k := s.tasks[t].key;
      SetTask(s.(data := s.data[k := s.temp[k]], temp := s.temp - {k}), t, Uploading(k, DataStored))
    case WriteMeta(t) => SetTask(s, t, Uploading(s.tasks[t].key, MetaWritten))
    case RenameMeta(t) =>
      var k := s.tasks[t].key;
      s.(meta := s.meta[k := s.made[k].meta], committed := s.committed + {k}, tasks := s.tasks - {t})
    case Fail(t) => SetTask(s, t, Failing(s.tasks[t].key))
    case Undo(t, data) => RemoveFile(s, s.tasks[t].key, data)
    case Request(t, tunnel, k, deleting) => SetTask(s, t, Looking(tunnel, k, deleting))
    case ReadMeta(t, removal) => OnReadMeta(s, t, removal)
    case ReadData(t) => OnReadData(s, t)
    case CleanUp(removal, k, now) => OnCleanUp(s, removal, k, now)
    case Remove(t, data) => RemoveFile(s, s.tasks[t].key, data)
    case Tick => s.(clock := s.clock + 1)
    case Crash => s.(tasks := map[])
  }

  function Run(es: seq<Event>): State {
    if es == [] then INIT else Step(Run(es[..|es| - 1]), es[|es| - 1])
  }

  // ------------------------------------------------------------------ invariant

  /** Both files only ever hold what the one upload of that key brought. */
  ghost predicate FilesOk(s: State) {
    && s.committed <= s.made.Keys
    && (forall k <- s.data :: k in s.made && s.data[k] == s.made[k].content)
    && (forall k <- s.meta :: k in s.committed && s.meta[k] == s.made[k].meta)
    && (forall k <- s.made :: s.made[k].meta.key == k)
  }

  ghost predicate TaskOk(s: State, task: Task)
    requires FilesOk(s)
  {
    match task
    case Uploading(k, stage) => k in s.made && k !in s.committed && (stage.Created? || k in s.data)
    case Failing(k) => k in s.made && k !in s.committed
    case Looking(_, _, _) => true
    case Reading(tunnel, k, meta, seen, at) =>
      && k in s.committed && meta == s.made[k].meta && meta.tunnel == tunnel && at < meta.expires && at <= s.clock
      && (if seen.Some? then seen.value == s.made[k] else k !in s.data)
    case Answered(tunnel, k, answer, seen, at) =>
      answer.Found? ==> k in s.committed && seen == Some(Entry(answer.content, answer.meta)) && seen.value == s.made[k]
                        && answer.meta.tunnel == tunnel && at < answer.meta.expires && at <= s.clock
    case Removing(k, reason) => k in s.committed && Justified(s, k, reason)
  }

  ghost predicate Justified(s: State, k: Key, reason: Reason)
    requires k in s.made
  {
    match reason
    case Expired => s.made[k].meta.expires <= s.clock
    case Owner(tunnel) => s.made[k].meta.tunnel == tunnel
  }

  predicate UploadOf(task: Task, k: Key) { (task.Uploading? || task.Failing?) && task.key == k }

  ghost predicate OneUpload(s: State) {
    forall k: Key, t, u :: t in s.tasks && u in s.tasks && UploadOf(s.tasks[t], k) && UploadOf(s.tasks[u], k) ==> t == u
  }

  ghost predicate Inv(s: State) {
    && FilesOk(s)
    && (forall t <- s.tasks :: TaskOk(s, s.tasks[t]))
    && OneUpload(s)
  }

  /** Tasks other than uploads depend on the files only through what is stable. */
  ghost predicate Grows(s: State, s': State) {
    && s.committed <= s'.committed && s.clock <= s'.clock
    && (forall k <- s.made :: k in s'.made && s'.made[k] == s.made[k])
    && (forall k <- s.committed :: k in s'.data ==> k in s.data)
  }

  lemma TaskStaysOk(s: State, s': State, task: Task)
    requires FilesOk(s) && FilesOk(s') && Grows(s, s') && TaskOk(s, task)
    requires task.Uploading? || task.Failing? ==> task.key !in s'.committed
    requires task.Uploading? && task.key in s.data ==> task.key in s'.data
    ensures TaskOk(s', task)
  {
  }

  /** A step that leaves the files alone and changes at most the tasks `t` and `u`. */
  lemma TaskStepKeepsInv(s: State, s': State, t: TaskId, u: TaskId)
    requires Inv(s) && FilesOk(s') && s'.data == s.data && s'.committed == s.committed
    requires Grows(s, s')
    requires forall v <- s'.tasks :: v == t || v == u || (v in s.tasks && s'.tasks[v] == s.tasks[v])
    requires t in s'.tasks ==> TaskOk(s', s'.tasks[t])
    requires u in s'.tasks ==> TaskOk(s', s'.tasks[u])
    requires forall v <- s'.tasks, k: Key :: UploadOf(s'.tasks[v], k) ==> (v in s.tasks && UploadOf(s.tasks[v], k)) || (k !in s.made && v == t)
    ensures Inv(s')
  {
    forall v | v in s'.tasks ensures TaskOk(s', s'.tasks[v]) {
      if v != t && v != u {
        assert TaskOk(s, s.tasks[v]);
        TaskStaysOk(s, s', s.tasks[v]);
      }
    }
    forall k: Key, v, w | v in s'.tasks && w in s'.tasks && UploadOf(s'.tasks[v], k) && UploadOf(s'.tasks[w], k) ensures v == w {
      if v in s.tasks && UploadOf(s.tasks[v], k) { assert TaskOk(s, s.tasks[v]); }
      if w in s.tasks && UploadOf(s.tasks[w], k) { assert TaskOk(s, s.tasks[w]); }
    }
  }

  /** A step on the files of key `k` that leaves alone every task but `t`. */
  lemma FileStepKeepsInv(s: State, s': State, t: TaskId, k: Key)
    requires Inv(s) && FilesOk(s') && Grows(s, s') && t in s.tasks
    requires forall v <- s'.tasks :: v == t || (v in s.tasks && s'.tasks[v] == s.tasks[v])
    requires t in s'.tasks ==> TaskOk(s', s'.tasks[t])
    requires forall j: Key :: j != k ==> (j in s.data <==> j in s'.data) && (j in s.committed <==> j in s'.committed)
    requires (UploadOf(s.tasks[t], k) && forall j: Key :: t in s'.tasks && UploadOf(s'.tasks[t], j) ==> j == k) || (k in s.committed && s'.tasks == s.tasks)
    ensures Inv(s')
  {
    forall v | v in s'.tasks ensures TaskOk(s', s'.tasks[v]) {
      if v != t || s'.tasks == s.tasks {
        assert TaskOk(s, s.tasks[v]);
        if s.tasks[v].Uploading? || s.tasks[v].Failing? { assert UploadOf(s.tasks[v], s.tasks[v].key); }
        if v != t { TaskStaysOk(s, s', s.tasks[v]); }
      }
    }
  }

  /** Spawning the removal of an expired key. */
  lemma SpawnKeepsInv(s: State, r: TaskId, k: Key)
    requires Inv(s) && r !in s.tasks && k in s.meta && s.meta[k].expires <= s.clock
    ensures Inv(SetTask(s, r, Removing(k, Expired)))
  {
    TaskStepKeepsInv(s, SetTask(s, r, Removing(k, Expired)), r, r);
  }

  /** A lookup that answers, starts reading or turns into a removal. */
  lemma LookupKeepsInv(s: State, t: TaskId, task: Task)
    requires Inv(s) && t in s.tasks && TaskOk(s, task) && !task.Uploading? && !task.Failing?
    ensures Inv(SetTask(s, t, task))
  {
    TaskStepKeepsInv(s, SetTask(s, t, task), t, t);
  }

  lemma ReadMetaKeepsInv(s: State, t: TaskId, r: TaskId)
    requires Inv(s) && CanHappen(s, ReadMeta(t, r))
    ensures Inv(OnReadMeta(s, t, r))
  {
    var Looking(tunnel, k, deleting) := s.tasks[t];
    var seen := if k in Store(s) then Some(Store(s)[k]) else None;
    var missing := Answered(tunnel, k, Missing, seen, s.clock);
    if k !in s.meta || s.meta[k].key != k || s.meta[k].tunnel != tunnel {
      LookupKeepsInv(s, t, missing);
    } else if s.meta[k].expires <= s.clock {
      LookupKeepsInv(s, t, missing);
      SpawnKeepsInv(SetTask(s, t, missing), r, k);
    } else {
      LookupKeepsInv(s, t, if deleting then Removing(k, Owner(tunnel)) else Reading(tunnel, k, s.meta[k], seen, s.clock));
    }
  }

  lemma ReadDataKeepsInv(s: State, t: TaskId)
    requires Inv(s) && CanHappen(s, ReadData(t))
    ensures Inv(OnReadData(s, t))
  {
    assert TaskOk(s, s.tasks[t]);
    TaskStepKeepsInv(s, OnReadData(s, t), t, t);
  }

  lemma UploadKeepsInv(s: State, t: TaskId, k: Key, entry: Entry)
    requires Inv(s) && CanHappen(s, Upload(t, k, entry))
    ensures Inv(Step(s, Upload(t, k, entry)))
  {
    var s' := Step(s, Upload(t, k, entry));
    assert Grows(s, s') && FilesOk(s');
    TaskStepKeepsInv(s, s', t, t);
  }

  lemma RenameDataKeepsInv(s: State, t: TaskId)
    requires Inv(s) && CanHappen(s, RenameData(t))
    ensures Inv(Step(s, RenameData(t)))
  {
    assert TaskOk(s, s.tasks[t]);
    FileStepKeepsInv(s, Step(s, RenameData(t)), t, s.tasks[t].key);
  }

  lemma RenameMetaKeepsInv(s: State, t: TaskId)
    requires Inv(s) && CanHappen(s, RenameMeta(t))
    ensures Inv(Step(s, RenameMeta(t)))
  {
    assert TaskOk(s, s.tasks[t]);
    FileStepKeepsInv(s, Step(s, RenameMeta(t)), t, s.tasks[t].key);
  }

  /** Removing a file of a key nobody is uploading, or only the failing upload itself. */
  lemma RemoveFileKeepsInv(s: State, t: TaskId, data: bool)
    requires Inv(s) && t in s.tasks && (s.tasks[t].Failing? || s.tasks[t].Removing?)
    ensures Inv(RemoveFile(s, s.tasks[t].key, data))
  {
    var k := s.tasks[t].key;
    var s' := RemoveFile(s, k, data);
    assert TaskOk(s, s.tasks[t]);
    TaskStaysOk(s, s', s.tasks[t]);
    FileStepKeepsInv(s, s', t, k);
  }

  lemma RemoveKeepsInv(s: State, e: Event)
    requires Inv(s) && CanHappen(s, e) && (e.Undo? || e.Remove?)
    ensures Inv(Step(s, e))
  {
    RemoveFileKeepsInv(s, e.task, e.data);
  }

  /** Steps that only move a task on, or start a lookup. */
  lemma PlainStepKeepsInv(s: State, e: Event)
    requires Inv(s) && CanHappen(s, e)
    requires e.WriteMeta? || e.Fail? || e.Request?
    ensures Inv(Step(s, e))
  {
    var t := e.task;
    if t in s.tasks { assert TaskOk(s, s.tasks[t]); }
    TaskStepKeepsInv(s, Step(s, e), t, t);
  }

  lemma TickKeepsInv(s: State, s': State)
    requires Inv(s) && (s' == s.(clock := s.clock + 1) || s' == s.(temp := s'.temp))
    ensures Inv(s')
  {
    forall t | t in s.tasks ensures TaskOk(s', s.tasks[t]) {
      assert TaskOk(s, s.tasks[t]);
      TaskStaysOk(s, s', s.tasks[t]);
    }
  }

  lemma StepKeepsInv(s: State, e: Event)
    requires Inv(s)
    ensures Inv(Step(s, e))
  {
    var s' := Step(s, e);
    if CanHappen(s, e) {
      match e
      case Upload(t, k, entry) => UploadKeepsInv(s, t, k, entry);
      case WriteTemp(t, _) => TickKeepsInv(s, s');
      case RenameData(t) => RenameDataKeepsInv(s, t);
      case WriteMeta(t) => PlainStepKeepsInv(s, e);
      case RenameMeta(t) => RenameMetaKeepsInv(s, t);
      case Fail(t) => PlainStepKeepsInv(s, e);
      case Undo(_, _) => RemoveKeepsInv(s, e);
      case Request(t, _, _, _) => PlainStepKeepsInv(s, e);
      case ReadMeta(t, r) => ReadMetaKeepsInv(s, t, r);
      case ReadData(t) => ReadDataKeepsInv(s, t);
      case CleanUp(r, k, _) => if s' != s { SpawnKeepsInv(s, r, k); }
      case Remove(_, _) => RemoveKeepsInv(s, e);
      case Tick => TickKeepsInv(s, s');
      case Crash => assert s' == s.(tasks := map[]);
    }
  }

  lemma {:induction false} RunKeepsInv(es: seq<Event>)
    ensures Inv(Run(es))
  {
    if es != [] {
      RunKeepsInv(es[..|es| - 1]);
      StepKeepsInv(Run(es[..|es| - 1]), es[|es| - 1]);
    }
  }

  // ------------------------------------------------- refinement of an atomic map

  /** One step of an atomic map of attachments: nothing, putting the one upload of a new
      key, or taking out a key that has expired or that its own tunnel deletes. */
  ghost predicate AtomicStep(s: State, before: map<Key, Entry>, after: map<Key, Entry>) {
    || after == before
    || (exists k <- s.made :: k !in before && k !in s.committed && after == before[k := s.made[k]])
    || (exists k <- before, reason: Reason :: k in s.made && Justified(s, k, reason) && after == before - {k}
          && exists t <- s.tasks :: s.tasks[t] == Removing(k, reason))
  }

  lemma RemoveRefines(s: State, t: TaskId, data: bool)
    requires Inv(s) && CanHappen(s, Remove(t, data))
    ensures AtomicStep(s, Store(s), Store(Step(s, Remove(t, data))))
  {
    var k := s.tasks[t].key;
    assert TaskOk(s, s.tasks[t]);
    var after := Store(Step(s, Remove(t, data)));
    assert after == Store(s) - {k};
    if k !in Store(s) { assert after == Store(s); }
  }

  lemma UndoRefines(s: State, t: TaskId, data: bool)
    requires Inv(s) && CanHappen(s, Undo(t, data))
    ensures Store(Step(s, Undo(t, data))) == Store(s)
  {
    assert TaskOk(s, s.tasks[t]);
  }

  lemma CommitRefines(s: State, t: TaskId)
    requires Inv(s) && CanHappen(s, RenameMeta(t))
    ensures AtomicStep(s, Store(s), Store(Step(s, RenameMeta(t))))
  {
    var k := s.tasks[t].key;
    assert TaskOk(s, s.tasks[t]);
    assert Store(Step(s, RenameMeta(t))) == Store(s)[k := s.made[k]];
  }

  lemma RenameDataRefines(s: State, t: TaskId)
    requires Inv(s) && CanHappen(s, RenameData(t))
    ensures Store(Step(s, RenameData(t))) == Store(s)
  {
    assert TaskOk(s, s.tasks[t]);
  }

  lemma OtherStepsLeaveFiles(s: State, e: Event)
    requires !(e.Remove? || e.Undo? || e.RenameData? || e.RenameMeta?)
    ensures Step(s, e).data == s.data && Step(s, e).meta == s.meta
  {
  }

  /** The two-file store refines the atomic map, whatever the interleaving and whenever it crashes. */
  lemma StoreRefinesAtomicMap(es: seq<Event>, e: Event)
    ensures AtomicStep(Run(es), Store(Run(es)), Store(Step(Run(es), e)))
  {
    var s := Run(es);
    RunKeepsInv(es);
    if CanHappen(s, e) {
      match e
      case Remove(t, data) => RemoveRefines(s, t, data);
      case Undo(t, data) => UndoRefines(s, t, data);
      case RenameData(t) => RenameDataRefines(s, t);
      case RenameMeta(t) => CommitRefines(s, t);
      case _ => OtherStepsLeaveFiles(s, e);
    }
  }

  /** A successful download returns exactly the bytes and metadata of the one upload of the
      key, of the requesting tunnel, unexpired when checked, and just what the atomic map
      held at that moment. */
  lemma DownloadReturnsTheUpload(es: seq<Event>, t: TaskId)
    requires t in Run(es).tasks && Run(es).tasks[t].Answered? && Run(es).tasks[t].answer.Found?
    ensures var s := Run(es); var Answered(tunnel, k, answer, seen, at) := s.tasks[t];
            && k in s.made && Entry(answer.content, answer.meta) == s.made[k] && seen == Some(s.made[k])
            && answer.meta.key == k && answer.meta.tunnel == tunnel && at < answer.meta.expires
  {
    RunKeepsInv(es);
    assert TaskOk(Run(es), Run(es).tasks[t]);
  }

  predicate Servable(m: map<Key, Entry>, k: Key, tunnel: TunnelId, now: int) {
    k in m && m[k].meta.tunnel == tunnel && now < m[k].meta.expires
  }

  /** A 404 is the atomic map's answer too: no servable entry at the moment it is decided. */
  lemma MissingMeansMissing(es: seq<Event>, e: Event)
    requires var s := Run(es); CanHappen(s, e) && (e.ReadMeta? || e.ReadData?)
    requires var task := Step(Run(es), e).tasks[e.task]; task.Answered? && task.answer.Missing?
    ensures var s := Run(es); !Servable(Store(s), s.tasks[e.task].key, s.tasks[e.task].tunnel, s.clock)
  {
    RunKeepsInv(es);
  }

  // -------------------------------------------------------------- what is removed

  /** Both removals of one task: the files of its key are gone, all others as they were. */
  lemma RemovalsTakeBothFiles(s: State, r: TaskId)
    requires r in s.tasks && s.tasks[r].Removing?
    ensures var s' := Step(Step(s, Remove(r, true)), Remove(r, false));
            s'.data == s.data - {s.tasks[r].key} && s'.meta == s.meta - {s.tasks[r].key} && s'.tasks == s.tasks
  {
  }

  /** The clean-up takes on a key exactly if its metadata, under its own name, had expired
      when the scan began. */
  lemma CleanUpTakesExpired(s: State, r: TaskId, k: Key, now: int)
    requires r !in s.tasks && now <= s.clock
    ensures var s' := Step(s, CleanUp(r, k, now));
            if k in s.meta && s.meta[k].key == k && s.meta[k].expires <= now then s' == s.(tasks := s.tasks[r := Removing(k, Expired)])
            else s' == s
  {
  }

  /** A lookup starts a removal exactly if it finds its own tunnel's entry expired, or is a
      delete that finds it unexpired; only an unexpired one is read on. */
  lemma LookupDecides(s: State, t: TaskId, r: TaskId)
    requires t in s.tasks && s.tasks[t].Looking? && r !in s.tasks
    ensures var s' := Step(s, ReadMeta(t, r)); var k, tunnel := s.tasks[t].key, s.tasks[t].tunnel;
            var own := k in s.meta && s.meta[k].key == k && s.meta[k].tunnel == tunnel;
            var expired := own && s.meta[k].expires <= s.clock;
            && t in s'.tasks && s'.data == s.data && s'.meta == s.meta
            && (r in s'.tasks <==> expired) && (expired ==> s'.tasks[r] == Removing(k, Expired))
            && (s'.tasks[t] == Removing(k, Owner(tunnel)) <==> own && !expired && s.tasks[t].deleting)
            && (s'.tasks[t].Reading? <==> own && !expired && !s.tasks[t].deleting)
            && (s'.tasks[t].Answered? <==> !own || expired)
  {
  }

  /** An upload may fail at any stage; undone, nothing of its key is left, and the atomic map
      is as it was. */
  lemma FailedUploadLeavesNothing(es: seq<Event>, t: TaskId)
    requires t in Run(es).tasks && Run(es).tasks[t].Uploading?
    ensures var s, k := Run(es), Run(es).tasks[t].key;
            var s' := Step(Step(Step(s, Fail(t)), Undo(t, true)), Undo(t, false));
            k !in s'.data && k !in s'.meta && s'.data == s.data - {k} && s'.meta == s.meta - {k} && Store(s') == Store(s)
  {
    RunKeepsInv(es);
    assert TaskOk(Run(es), Run(es).tasks[t]);
  }

  /** A write may stop anywhere; then the data file cannot take its place. */
  lemma PartialWriteStaysTemporary(s: State, t: TaskId, n: nat)
    requires t in s.tasks && s.tasks[t].Uploading? && s.tasks[t].stage.Created? && s.tasks[t].key in s.made
    requires n < |s.made[s.tasks[t].key].content|
    ensures var s' := Step(s, WriteTemp(t, n));
            s' == s.(temp := s.temp[s.tasks[t].key := s.made[s.tasks[t].key].content[..n]]) && Step(s', RenameData(t)) == s'
  {
  }
}
