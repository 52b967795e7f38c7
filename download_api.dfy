/** The daemon's download handler (internal/api/download.go): it builds a
    downloader, subscribes the requesting connection, registers the
    download with the manager and starts it, and turns every downloader
    callback into messages for the download's subscribers. */
module DownloadApi {
  import opened Wrappers
  import opened Warplib

  /** The command names the server registers handlers under (api.go), plus
      the name of the progress updates the callbacks broadcast. */
  datatype Command =
    | UpdateDownload | UpdateResume | UpdateAttach | UpdateFlush | UpdateStop | UpdateList
    | UpdateLoadExt | UpdateGetExt | UpdateDownloading

  /** A client connection, identified by a number. */
  type Conn = nat

  datatype ErrorType = Critical

  /** The decoded request body. */
  datatype DownloadParams = DownloadParams(
    url: string, headers: seq<Header>, forceParts: bool, fileName: string,
    downloadDirectory: string, maxConnections: int, maxSegments: int,
    childHash: string, isHidden: bool, isChildren: bool)

  /** The options handed to warplib.NewDownloader (the callbacks aside). */
  datatype DownloaderOpts = DownloaderOpts(
    headers: seq<Header>, forceParts: bool, fileName: string,
    downloadDirectory: string, maxConnections: int, maxSegments: int)

  /** What the handler reads back from a downloader. */
  datatype Downloader = Downloader(
    hash: string, fileName: string, savePath: string, downloadDirectory: string, contentLength: int)

  /** The options handed to the manager's AddDownload. */
  datatype AddDownloadOpts = AddDownloadOpts(
    childHash: string, isHidden: bool, isChildren: bool, absoluteLocation: string)

  /** The reply to the requesting connection. */
  datatype DownloadResponse = DownloadResponse(
    contentLength: int, downloadId: string, fileName: string, savePath: string, downloadDirectory: string)

  /** The record every progress update carries. */
  datatype DownloadingResponse = DownloadingResponse(
    downloadId: string, action: string, value: int, hash: string)

  datatype Message = MakeResult(command: Command, body: DownloadingResponse) | InitError(err: string)

  /** One call on the outside world: the downloader, the pool or the manager. */
  datatype Op =
    | NewDownloaderCall(url: string, opts: DownloaderOpts)
    | PoolAddDownload(uid: string, conn: Conn)
    | ManagerAddDownload(uid: string, addOpts: AddDownloadOpts)
    | StartDownload(uid: string)
    | Broadcast(uid: string, msg: Message)
    | WriteError(uid: string, kind: ErrorType, text: string)
    | PoolStopDownload(uid: string)
    | StopDownloader(uid: string)

  /** The seven downloader callbacks, with their arguments. */
  datatype Event =
    | Failed(msg: string)
    | DownloadProgress(hash: string, nread: int)
    | DownloadComplete(hash: string, tread: int)
    | DownloadStopped
    | CompileStart(hash: string)
    | CompileProgress(hash: string, nread: int)
    | CompileComplete(hash: string, tread: int)

  const ProgressAction := "download_progress"
  const CompleteAction := "download_complete"
  const StoppedAction := "download_stopped"
  const CompileStartAction := "compile_start"
  const CompileProgressAction := "compile_progress"
  const CompileCompleteAction := "compile_complete"

  // ---------------------------------------------------------------------
  // The callbacks

  /** The record a non-error callback broadcasts for the download `uid`. */
  function Downloading(uid: string, e: Event): (r: DownloadingResponse)
    requires !e.Failed?
    ensures r.downloadId == uid
  {
    match e
    case DownloadProgress(h, n) => DownloadingResponse(uid, ProgressAction, n, h)
    case DownloadComplete(h, t) => DownloadingResponse(uid, CompleteAction, t, h)
    case DownloadStopped => DownloadingResponse(uid, StoppedAction, 0, "")
    case CompileStart(h) => DownloadingResponse(uid, CompileStartAction, 0, h)
    case CompileProgress(h, n) => DownloadingResponse(uid, CompileProgressAction, n, h)
    case CompileComplete(h, t) => DownloadingResponse(uid, CompileCompleteAction, t, h)
  }

  /** How a subscriber reads a progress record back into the callback it
      came from. */
  function EventOf(r: DownloadingResponse): Option<Event>
  {
    if r.action == ProgressAction then Some(DownloadProgress(r.hash, r.value))
    else if r.action == CompleteAction then Some(DownloadComplete(r.hash, r.value))
    else if r.action == StoppedAction then Some(DownloadStopped)
    else if r.action == CompileStartAction then Some(CompileStart(r.hash))
    else if r.action == CompileProgressAction then Some(CompileProgress(r.hash, r.value))
    else if r.action == CompileCompleteAction then Some(CompileComplete(r.hash, r.value))
    else None
  }

  /** Each callback kind has its own action, and its record keeps every
      argument: the record determines the callback. */
  lemma DownloadingRoundTrip(uid: string, e: Event)
    requires !e.Failed?
    ensures EventOf(Downloading(uid, e)) == Some(e)
  {
  }

  /** The fields each kind fills: progress and complete carry a value and a
      hash, compile_start only a hash, download_stopped neither. */
  lemma DownloadingFields(uid: string, e: Event)
    requires !e.Failed?
    ensures var r := Downloading(uid, e);
      && (e.DownloadProgress? || e.CompileProgress? ==> r.value == e.nread && r.hash == e.hash)
      && (e.DownloadComplete? || e.CompileComplete? ==> r.value == e.tread && r.hash == e.hash)
      && (e.CompileStart? ==> r.value == 0 && r.hash == e.hash)
      && (e.DownloadStopped? ==> r.value == 0 && r.hash == "")
  {
  }

  /** The calls a callback makes for the download `uid`. */
  function EventOps(uid: string, e: Event): (r: seq<Op>)
    ensures |r| == if e.Failed? then 4 else 1
    ensures r[0].Broadcast? && r[0].uid == uid
    ensures (exists i :: 0 <= i < |r| && r[i].PoolStopDownload?) <==> e.Failed?
    ensures forall i :: 0 <= i < |r| ==>
      && !r[i].NewDownloaderCall? && r[i].uid == uid
      && !r[i].PoolAddDownload? && !r[i].ManagerAddDownload? && !r[i].StartDownload?
  {
    match e
    case Failed(msg) =>
      var ops := [Broadcast(uid, InitError(msg)), WriteError(uid, Critical, msg), PoolStopDownload(uid), StopDownloader(uid)];
      assert ops[2].PoolStopDownload?;
      ops
    case _ => [Broadcast(uid, MakeResult(UpdateDownloading, Downloading(uid, e)))]
  }

  /** A non-error callback makes exactly one call: one UPDATE_DOWNLOADING
      broadcast to the download's subscribers, whose downloadId is the
      download's own hash whatever hash the callback was given. */
  lemma OneBroadcastPerEvent(uid: string, e: Event)
    requires !e.Failed?
    ensures |EventOps(uid, e)| == 1
    ensures EventOps(uid, e)[0].Broadcast? && EventOps(uid, e)[0].uid == uid
    ensures EventOps(uid, e)[0].msg.MakeResult? && EventOps(uid, e)[0].msg.command == UpdateDownloading
    ensures EventOps(uid, e)[0].msg.body.downloadId == uid
    ensures EventOf(EventOps(uid, e)[0].msg.body) == Some(e)
  {
  }

  /** The error callback broadcasts the error, writes it as critical, ends
      the subscription and stops the downloader, in that order, and touches
      no other download. */
  lemma ErrorSequence(uid: string, msg: string)
    ensures var ops := EventOps(uid, Failed(msg));
      && |ops| == 4
      && ops[0] == Broadcast(uid, InitError(msg))
      && ops[1] == WriteError(uid, Critical, msg)
      && ops[2] == PoolStopDownload(uid)
      && ops[3] == StopDownloader(uid)
    ensures forall op :: op in EventOps(uid, Failed(msg)) ==> op.uid == uid
  {
  }

  // ---------------------------------------------------------------------
  // The handler

  function OptsOf(m: DownloadParams): (o: DownloaderOpts)
  {
    DownloaderOpts(m.headers, m.forceParts, m.fileName, m.downloadDirectory, m.maxConnections, m.maxSegments)
  }

  function AddOptsOf(m: DownloadParams, d: Downloader): AddDownloadOpts
  {
    AddDownloadOpts(m.childHash, m.isHidden, m.isChildren, d.downloadDirectory)
  }

  function ResponseOf(d: Downloader): DownloadResponse
  {
    DownloadResponse(d.contentLength, d.hash, d.fileName, d.savePath, d.downloadDirectory)
  }

  /** The handler's three results: the command name, the reply, the error. */
  datatype Reply = Reply(command: Command, response: Option<DownloadResponse>, err: Option<string>)

  /** The calls downloadHandler makes.  `body` is the decoded request,
      `created` what NewDownloader returns and `managerErr` what the
      manager's AddDownload reports. */
  function HandlerOps(conn: Conn, body: Result<DownloadParams, string>, created: Result<Downloader, string>,
                      managerErr: Option<string>): (r: seq<Op>)
    ensures |r| == if body.Failure? then 0 else if created.Failure? then 1 else if managerErr.Some? then 3 else 4
    ensures body.Success? ==> r[0] == NewDownloaderCall(body.value.url, OptsOf(body.value))
    ensures forall i :: 1 <= i < |r| ==>
      && created.Success? && !r[i].NewDownloaderCall? && r[i].uid == created.value.hash
      && !r[i].Broadcast? && !r[i].PoolStopDownload?
  {
    match body
    case Failure(_) => []
    case Success(m) =>
      [NewDownloaderCall(m.url, OptsOf(m))]
      + match created
        case Failure(_) => []
        case Success(d) =>
          [PoolAddDownload(d.hash, conn), ManagerAddDownload(d.hash, AddOptsOf(m, d))]
          + if managerErr.None? then [StartDownload(d.hash)] else []
  }

  function HandlerReply(body: Result<DownloadParams, string>, created: Result<Downloader, string>,
                        managerErr: Option<string>): (r: Reply)
    ensures r.command == UpdateDownload
    ensures r.response.Some? <==> r.err.None?
    ensures body.Failure? ==> r == Reply(UpdateDownload, None, Some(body.error))
    ensures body.Success? && created.Failure? ==> r == Reply(UpdateDownload, None, Some(created.error))
    ensures body.Success? && created.Success? && managerErr.Some? ==> r == Reply(UpdateDownload, None, managerErr)
    ensures body.Success? && created.Success? && managerErr.None? ==> r.response == Some(ResponseOf(created.value))
  {
    match body
    case Failure(e) => Reply(UpdateDownload, None, Some(e))
    case Success(_) =>
      match created
      case Failure(e) => Reply(UpdateDownload, None, Some(e))
      case Success(d) =>
        match managerErr
        case Some(e) => Reply(UpdateDownload, None, Some(e))
        case None => Reply(UpdateDownload, Some(ResponseOf(d)), None)
  }

  /** A body that does not decode is answered with its error, and nothing
      is created, subscribed or registered. */
  lemma DecodeFailureTouchesNothing(conn: Conn, err: string, created: Result<Downloader, string>,
                                    managerErr: Option<string>)
    ensures HandlerOps(conn, Failure(err), created, managerErr) == []
    ensures HandlerReply(Failure(err), created, managerErr) == Reply(UpdateDownload, None, Some(err))
  {
  }

  /** When NewDownloader fails there is no subscription, no manager entry
      and no start; its error is the reply. */
  lemma CreateFailureNoSubscription(conn: Conn, m: DownloadParams, err: string, managerErr: Option<string>)
    ensures var ops := HandlerOps(conn, Success(m), Failure(err), managerErr);
      ops == [NewDownloaderCall(m.url, OptsOf(m))]
      && forall op :: op in ops ==> !op.PoolAddDownload? && !op.ManagerAddDownload? && !op.StartDownload?
    ensures HandlerReply(Success(m), Failure(err), managerErr) == Reply(UpdateDownload, None, Some(err))
  {
  }

  /** Once the downloader exists, the connection is subscribed under the
      download's hash before the manager registers it, and the manager
      gets the request's child, hidden and children flags with the
      downloader's directory as absolute location. */
  lemma SubscribeBeforeRegister(conn: Conn, m: DownloadParams, d: Downloader, managerErr: Option<string>)
    ensures var ops := HandlerOps(conn, Success(m), Success(d), managerErr);
      && ops[1] == PoolAddDownload(d.hash, conn)
      && ops[2] == ManagerAddDownload(d.hash, AddDownloadOpts(m.childHash, m.isHidden, m.isChildren, d.downloadDirectory))
      && (forall i :: 0 <= i < |ops| && ops[i].ManagerAddDownload? ==> i == 2)
      && (forall i :: 0 <= i < |ops| && ops[i].PoolAddDownload? ==> i == 1)
  {
  }

  /** The download is started exactly when it was created and the manager
      accepted it, and then as the last call. */
  lemma StartOnlyAfterRegistration(conn: Conn, body: Result<DownloadParams, string>,
                                   created: Result<Downloader, string>, managerErr: Option<string>)
    ensures var ops := HandlerOps(conn, body, created, managerErr);
      (exists i :: 0 <= i < |ops| && ops[i].StartDownload?) <==>
        body.Success? && created.Success? && managerErr.None?
    ensures var ops := HandlerOps(conn, body, created, managerErr);
      body.Success? && created.Success? && managerErr.None? ==>
        |ops| == 4 && ops[3] == StartDownload(created.value.hash)
  {
    var ops := HandlerOps(conn, body, created, managerErr);
    if body.Success? && created.Success? && managerErr.None? {
      assert ops[3].StartDownload?;
    }
  }

  /** A successful reply describes the downloader: its hash as the
      download id, and its length, file name, save path and directory. */
  lemma ResponseFromDownloader(m: DownloadParams, d: Downloader)
    ensures var r := HandlerReply(Success(m), Success(d), None);
      && r.err.None?
      && r.response == Some(DownloadResponse(d.contentLength, d.hash, d.fileName, d.savePath, d.downloadDirectory))
  {
  }

  // ---------------------------------------------------------------------
  // The pool and the manager as state

  /** The daemon's shared state: the pool's subscriber sets per download,
      the manager's registrations and the log of the calls made. */
  class Daemon {
    var subscribers: map<string, set<Conn>>
    var registered: map<string, AddDownloadOpts>
    var log: seq<Op>

    constructor ()
      ensures subscribers == map[] && registered == map[] && log == []
    {
      subscribers := map[];
      registered := map[];
      log := [];
    }

    /** Subscribe `conn` to `uid`. */
    method AddDownload(uid: string, conn: Conn)
      modifies this
      ensures subscribers == old(subscribers)[uid := Subscribed(old(subscribers), uid) + {conn}]
      ensures registered == old(registered)
      ensures log == old(log) + [PoolAddDownload(uid, conn)]
    {
      subscribers := subscribers[uid := Subscribed(subscribers, uid) + {conn}];
      log := log + [PoolAddDownload(uid, conn)];
    }

    /** End every subscription of `uid`. */
    method StopDownload(uid: string)
      modifies this
      ensures subscribers == old(subscribers) - {uid}
      ensures registered == old(registered)
      ensures log == old(log) + [PoolStopDownload(uid)]
    {
      subscribers := subscribers - {uid};
      log := log + [PoolStopDownload(uid)];
    }

    /** A call that changes neither the subscriptions nor the manager. */
    method Record(op: Op)
      requires !op.PoolAddDownload? && !op.PoolStopDownload? && !op.ManagerAddDownload?
      modifies this
      ensures subscribers == old(subscribers) && registered == old(registered)
      ensures log == old(log) + [op]
    {
      log := log + [op];
    }

    /** The manager's AddDownload, which registers only when it succeeds. */
    method ManagerAdd(uid: string, opts: AddDownloadOpts, err: Option<string>)
      modifies this
      ensures subscribers == old(subscribers)
      ensures registered == if err.None? then old(registered)[uid := opts] else old(registered)
      ensures log == old(log) + [ManagerAddDownload(uid, opts)]
    {
      if err.None? {
        registered := registered[uid := opts];
      }
      log := log + [ManagerAddDownload(uid, opts)];
    }

    /** A callback of the downloader `uid`. */
    method OnEvent(uid: string, e: Event)
      modifies this
      ensures log == old(log) + EventOps(uid, e)
      ensures subscribers == if e.Failed? then old(subscribers) - {uid} else old(subscribers)
      ensures registered == old(registered)
    {
      match e
      case Failed(msg) =>
        Record(Broadcast(uid, InitError(msg)));
        Record(WriteError(uid, Critical, msg));
        StopDownload(uid);
        Record(StopDownloader(uid));
      case _ =>
        Record(Broadcast(uid, MakeResult(UpdateDownloading, Downloading(uid, e))));
    }

    /** downloadHandler(sconn, pool, body). */
    method DownloadHandler(conn: Conn, body: Result<DownloadParams, string>,
                           created: Result<Downloader, string>, managerErr: Option<string>)
      returns (reply: Reply)
      modifies this
      ensures reply == HandlerReply(body, created, managerErr)
      ensures log == old(log) + HandlerOps(conn, body, created, managerErr)
      ensures subscribers == if body.Success? && created.Success?
        then old(subscribers)[created.value.hash := Subscribed(old(subscribers), created.value.hash) + {conn}]
        else old(subscribers)
      ensures registered == if body.Success? && created.Success? && managerErr.None?
        then old(registered)[created.value.hash := AddOptsOf(body.value, created.value)]
        else old(registered)
    {
      if body.Failure? {
        return Reply(UpdateDownload, None, Some(body.error));
      }
      var m := body.value;
      Record(NewDownloaderCall(m.url, OptsOf(m)));
      if created.Failure? {
        return Reply(UpdateDownload, None, Some(created.error));
      }
      var d := created.value;
      AddDownload(d.hash, conn);
      ManagerAdd(d.hash, AddOptsOf(m, d), managerErr);
      if managerErr.Some? {
        return Reply(UpdateDownload, None, managerErr);
      }
      Record(StartDownload(d.hash));
      reply := Reply(UpdateDownload, Some(ResponseOf(d)), None);
    }
  }

  /** The subscribers of `uid`, none when it has no entry. */
  function Subscribed(subs: map<string, set<Conn>>, uid: string): set<Conn>
  {
    if uid in subs then subs[uid] else {}
  }

  /** From any daemon state, a request whose downloader was created but
      whose manager registration failed leaves the connection subscribed
      to the download, registers nothing and starts nothing; the reply
      carries the manager's error. */
  method SubscriptionSurvivesManagerFailure(st: Daemon, m: DownloadParams, d: Downloader, conn: Conn, err: string)
    returns (reply: Reply)
    modifies st
    ensures d.hash in st.subscribers && conn in st.subscribers[d.hash]
    ensures forall u :: u in old(st.subscribers) ==> u in st.subscribers && old(st.subscribers[u]) <= st.subscribers[u]
    ensures st.registered == old(st.registered)
    ensures |st.log| == |old(st.log)| + 3 && st.log[..|old(st.log)|] == old(st.log)
    ensures forall op :: op in st.log[|old(st.log)|..] ==> !op.StartDownload?
    ensures reply == Reply(UpdateDownload, None, Some(err))
  {
    reply := st.DownloadHandler(conn, Success(m), Success(d), Some(err));
    assert st.log[|old(st.log)|..] == HandlerOps(conn, Success(m), Success(d), Some(err));
  }

  /** After the error callback the download has no subscribers left. */
  method ErrorEndsSubscription(st: Daemon, uid: string, msg: string)
    modifies st
    ensures uid !in st.subscribers
    ensures forall u :: u in old(st.subscribers) && u != uid ==> u in st.subscribers && st.subscribers[u] == old(st.subscribers[u])
  {
    st.OnEvent(uid, Failed(msg));
  }
}
