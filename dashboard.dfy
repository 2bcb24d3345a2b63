/** The Dashboard component's state and its two asynchronous handlers.
    `loadDashboardData` fetches the statistics and the five most recent
    scrapes together and shows them; `handleDelete` asks for confirmation,
    deletes one scrape and reloads. Each handler is split at its `await`: a
    method that runs up to the call and returns the request it issues, and a
    method that runs the rest once the call has settled. Mounting the
    component and every tick of its 5-minute interval start a load. */
module Dashboard {
  import opened JsValue
  import opened Api
  import opened Toasts

  const RecentPage: nat := 1
  const RecentLimit: nat := 5

  const LoadFailedText := "Failed to load dashboard data"
  const DeletingText := "Deleting..."
  const DeletedText := "Deleted successfully!"
  const DeleteFailedText := "Failed to delete"

  /** The two GETs a load issues at once, awaited jointly. */
  datatype LoadRequest = LoadRequest(stats: Request, recent: Request)

  function DashboardRequests(): LoadRequest {
    LoadRequest(GetStatistics, GetAllData(RecentPage, RecentLimit))
  }

  /** A delete waiting for the backend: the request and its loading toast. */
  datatype PendingDelete = PendingDelete(request: Request, toastId: nat)

  /** What a settled load writes: the new statistics and records where they
      are replaced, and whether the error toast is shown. */
  datatype LoadEffect = LoadEffect(newStats: Option<Json>, newRecent: Option<Json>, failed: bool)

  /** The continuation of `loadDashboardData`. The joint await rejects when
      either call does; the two `.data.data` reads throw on a null or
      undefined body, the second one only after the statistics have been
      set. */
  function LoadEffectOf(statsRes: Outcome, dataRes: Outcome): (e: LoadEffect)
    ensures e.failed <==> e.newRecent.None?
    ensures e.newRecent.Some? ==> e.newStats.Some?
    ensures e.newRecent.Some? <==>
              statsRes.Responded? && dataRes.Responded? && !Nullish(statsRes.body) && !Nullish(dataRes.body)
    ensures e.newStats.Some? <==> statsRes.Responded? && dataRes.Responded? && !Nullish(statsRes.body)
    ensures e.newStats.Some? ==> e.newStats.value == Prop(statsRes.body, "data")
    ensures statsRes.Responded? && Nullish(statsRes.body) ==> e == LoadEffect(None, None, true)
    ensures statsRes.Rejected? || dataRes.Rejected? ==> e == LoadEffect(None, None, true)
    ensures statsRes.Responded? && dataRes.Responded? && !Nullish(statsRes.body) && !Nullish(dataRes.body) ==>
              e == LoadEffect(Some(Prop(statsRes.body, "data")), Some(Prop(dataRes.body, "data")), false)
    ensures e.newStats.Some? && e.newRecent.None? ==>
              statsRes.Responded? && dataRes.Responded? && !Nullish(statsRes.body) && Nullish(dataRes.body)
  {
    if statsRes.Rejected? || dataRes.Rejected? then LoadEffect(None, None, true)
    else
      match Read(statsRes.body, "data")
      case Err(_) => LoadEffect(None, None, true)
      case Ok(s) =>
        match Read(dataRes.body, "data")
        case Err(_) => LoadEffect(Some(s), None, true)
        case Ok(d) => LoadEffect(Some(s), Some(d), false)
  }

  /** The text of a failed delete: the error response's `message`, else the
      error's own `message`, else the fixed fallback. */
  function DeleteFailureText(e: ApiError): (r: string)
    ensures r != ""
    ensures ErrorField(e, "message") != "" ==> r == ErrorField(e, "message")
    ensures ErrorField(e, "message") == "" && e.message != "" ==> r == e.message
    ensures ErrorField(e, "message") == "" && e.message == "" ==> r == DeleteFailedText
  {
    var candidates := [ErrorField(e, "message"), e.message];
    FirstNonEmptyPrecedence(candidates, DeleteFailedText);
    FirstNonEmpty(candidates, DeleteFailedText)
  }

  /** The continuation of `handleDelete`: success shows the response's
      `message` or a default; a rejection, or a body whose `message` cannot
      be read, shows the failure text. */
  function DeleteToast(outcome: Outcome): (t: Toast)
    ensures t.message != ""
    ensures t.kind == Success <==> outcome.Responded? && !Nullish(outcome.body)
    ensures t.kind != Success ==> t.kind == Error
    ensures outcome.Rejected? ==> t.message == DeleteFailureText(outcome.error)
    ensures outcome.Responded? && Nullish(outcome.body) ==>
              t == Toast(Error, DeleteFailureText(ApiError(JUndefined, ReadErrorText(outcome.body, "message"))))
    ensures t.kind == Success && TextOf(Prop(outcome.body, "message")) != "" ==>
              t.message == TextOf(Prop(outcome.body, "message"))
    ensures t.kind == Success && TextOf(Prop(outcome.body, "message")) == "" ==> t.message == DeletedText
  {
    match outcome
    case Rejected(e) => Toast(Error, DeleteFailureText(e))
    case Responded(body) =>
      match Read(body, "message")
      case Err(typeError) => Toast(Error, DeleteFailureText(ApiError(JUndefined, typeError)))
      case Ok(m) => Toast(Success, FirstNonEmpty([TextOf(m)], DeletedText))
  }

  class DashboardState {
    var stats: Json
    var recentData: Json
    var loading: bool
    const toaster: Toaster

    /** The state before the mount effect runs: no statistics, no records,
        and the spinner on. */
    constructor (toaster: Toaster)
      ensures this.toaster == toaster
      ensures stats == JNull && recentData == JArr([]) && loading
    {
      this.toaster := toaster;
      stats := JNull;
      recentData := JArr([]);
      loading := true;
    }

    /** `loadDashboardData` up to its await: spinner on, both GETs issued.
        Mounting the component and each interval tick run exactly this. */
    method StartLoad() returns (req: LoadRequest)
      modifies this`loading
      ensures loading && req == DashboardRequests()
    {
      loading := true;
      req := DashboardRequests();
    }

    /** `loadDashboardData` after its await: both snapshots are replaced on
        success; a rejected call changes neither and shows one error toast;
        the spinner is off either way. */
    method SettleLoad(statsRes: Outcome, dataRes: Outcome)
      requires toaster.Valid()
      modifies this`stats, this`recentData, this`loading, toaster
      ensures toaster.Valid() && !loading
      ensures var e := LoadEffectOf(statsRes, dataRes);
              && stats == (if e.newStats.Some? then e.newStats.value else old(stats))
              && recentData == (if e.newRecent.Some? then e.newRecent.value else old(recentData))
              && toaster.log == old(toaster.log) + (if e.failed then [Shown(Error, LoadFailedText)] else [])
              && toaster.nextId == old(toaster.nextId)
    {
      var e := LoadEffectOf(statsRes, dataRes);
      if e.newStats.Some? {
        stats := e.newStats.value;
      }
      if e.newRecent.Some? {
        recentData := e.newRecent.value;
      }
      if e.failed {
        toaster.Show(Error, LoadFailedText);
      }
      loading := false;
    }

    /** `handleDelete` up to its await. A declined confirmation returns
        before anything happens; otherwise a loading toast opens and the
        DELETE is issued. */
    method RequestDelete(id: Json, confirmed: bool) returns (pending: Option<PendingDelete>)
      requires toaster.Valid()
      modifies toaster
      ensures toaster.Valid()
      ensures !confirmed ==> pending == None && toaster.log == old(toaster.log) && toaster.nextId == old(toaster.nextId)
      ensures confirmed ==> && pending == Some(PendingDelete(DeleteData(id), old(toaster.nextId)))
                            && toaster.log == old(toaster.log) + [LoadingShown(old(toaster.nextId), DeletingText)]
                            && toaster.nextId == old(toaster.nextId) + 1
    {
      if !confirmed {
        return None;
      }
      var toastId := toaster.ShowLoading(DeletingText);
      pending := Some(PendingDelete(DeleteData(id), toastId));
    }

    /** `handleDelete` after its await: the loading toast becomes the
        success or error toast, and only a success starts a reload. */
    method SettleDelete(pending: PendingDelete, outcome: Outcome) returns (reload: Option<LoadRequest>)
      requires toaster.Valid()
      modifies this`loading, toaster
      ensures toaster.Valid() && toaster.nextId == old(toaster.nextId)
      ensures var t := DeleteToast(outcome);
              && toaster.log == old(toaster.log) + [Updated(pending.toastId, t.kind, t.message)]
              && (reload.Some? <==> t.kind == Success)
      ensures reload.Some? ==> reload.value == DashboardRequests() && loading
      ensures reload.None? ==> loading == old(loading)
    {
      var t := DeleteToast(outcome);
      toaster.Update(pending.toastId, t.kind, t.message);
      if t.kind == Success {
        var req := StartLoad();
        reload := Some(req);
      } else {
        reload := None;
      }
    }
  }
}
