/**
 * The state of the dashboard page (src/app/page.tsx): the one-shot load of the
 * dashboard document, the selected video whose trend modal is open, the sort order
 * of the ranking card, and which screen a render yields from that state.
 */
module Dashboard {
  import opened Wrappers
  import opened Projectors

  /** One card of "Next Month's Focus". */
  datatype FocusItem = FocusItem(title: string, metric: string)

  datatype NextMonthFocus = NextMonthFocus(topQualityCommentVideo: FocusItem, mostDiscussedProduct: FocusItem)

  /** The decoded dashboard document. */
  datatype DashboardData = DashboardData(
    videoCqsData: seq<Video>,
    videoCqsHistory: map<string, seq<HistoryPoint>>,
    productDiscussionData: seq<Category>,
    videoTypeData: seq<Category>,
    nextMonthFocusData: NextMonthFocus)

  /** What `response.json()` gave: a rejection, the JSON value `null`, or a document. */
  datatype JsonBody = Unparsable | JsonNull | Document(data: DashboardData)

  /** How the fetch of the dashboard document settled. */
  datatype FetchOutcome =
    | TransportError
    | Response(ok: bool, body: JsonBody)

  /** The fetch handler reaches `setData` with a document and nothing is thrown. */
  predicate Delivers(outcome: FetchOutcome)
  {
    outcome.Response? && outcome.ok && outcome.body.Document?
  }

  /** The handler throws: transport failure, a non-ok status, or a body that is not JSON. */
  predicate Throws(outcome: FetchOutcome)
  {
    outcome.TransportError? || !outcome.ok || outcome.body.Unparsable?
  }

  const FetchErrorMessage: string :=
    "Failed to fetch dashboard data. Please ensure output.json exists in the /public folder."

  const NoDataMessage: string := "No data available."

  /** The sort order the ranking card starts with. */
  const InitialSortOrder: string := "cqs"

  /** The open trend modal: the selected video and the history series it plots. */
  datatype TrendModal = TrendModal(video: Video, history: seq<HistoryPoint>)

  /** What a render of the page shows. */
  datatype Screen =
    | LoadingScreen
    | ErrorScreen(message: string)
    | DashboardScreen(
        ranking: seq<Video>,
        productSlices: seq<Slice>,
        videoTypeSlices: seq<Slice>,
        focus: NextMonthFocus,
        modal: Option<TrendModal>)

  /** The ranking card's own state: the value of its sort `<select>`. */
  class VideoCqsRanking {
    var sortOrder: string

    constructor ()
      ensures sortOrder == InitialSortOrder
    {
      sortOrder := InitialSortOrder;
    }

    /** `onChange` of the select: any string is stored; `Ranking` falls back to CQS for all but "timestamp". */
    method OnSortOrderChange(value: string)
      modifies this
      ensures sortOrder == value
    {
      sortOrder := value;
    }
  }

  /** `DashboardPage` and its four state slots. */
  class DashboardPage {
    var data: Option<DashboardData>
    var loading: bool
    var error: Option<string>
    var selectedVideo: Option<Video>

    constructor ()
      ensures data == None && loading && error == None && selectedVideo == None
    {
      data, loading, error, selectedVideo := None, true, None, None;
    }

    /** `error` is truthy: set and not the empty string. */
    predicate HasError()
      reads this
    {
      error.Some? && error.value != ""
    }

    /** The page is past loading, has no error and has data: the dashboard is on screen. */
    predicate ShowsDashboard()
      reads this
    {
      !loading && !HasError() && data.Some?
    }

    /**
     * The body of the fetch effect once the fetch has settled: `setData` with the decoded
     * body when nothing throws, `setError` when something does, and `setLoading(false)` in
     * either case.
     */
    method FetchSettled(outcome: FetchOutcome)
      modifies this
      ensures !loading && selectedVideo == old(selectedVideo)
      ensures Throws(outcome) ==> data == old(data) && error == Some(FetchErrorMessage)
      ensures !Throws(outcome) ==> error == old(error)
      ensures Delivers(outcome) ==> data == Some(outcome.body.data)
      ensures !Throws(outcome) && !Delivers(outcome) ==> data == None
    {
      if Throws(outcome) {
        error := Some(FetchErrorMessage);
      } else if outcome.body.Document? {
        data := Some(outcome.body.data);
      } else {
        data := None;
      }
      loading := false;
    }

    /** `onVideoSelect`, i.e. `setSelectedVideo(video)`: replaces any earlier selection. */
    method OnVideoSelect(video: Video)
      modifies this
      ensures selectedVideo == Some(video)
      ensures data == old(data) && loading == old(loading) && error == old(error)
    {
      selectedVideo := Some(video);
    }

    /** A click on row `index` of the ranking list: the row's video becomes the selection. */
    method ClickRankingRow(sortOrder: string, index: nat)
      requires ShowsDashboard()
      requires index < |Ranking(data.value.videoCqsData, sortOrder)|
      modifies this
      ensures data == old(data) && loading == old(loading) && error == old(error)
      ensures selectedVideo == Some(Ranking(data.value.videoCqsData, sortOrder)[index])
      ensures selectedVideo.value in data.value.videoCqsData
    {
      var row := Ranking(data.value.videoCqsData, sortOrder)[index];
      assert row in multiset(Ranking(data.value.videoCqsData, sortOrder));
      OnVideoSelect(row);
    }

    /** The modal's `onClose`, `setSelectedVideo(null)`; a no-op when nothing is selected. */
    method OnClose()
      modifies this
      ensures selectedVideo == None
      ensures data == old(data) && loading == old(loading) && error == old(error)
    {
      selectedVideo := None;
    }

    /**
     * The page's render: the loading view while loading, then the error view when `error`
     * is set or there is no data (with `error || 'No data available.'`), otherwise the
     * dashboard with the modal open exactly when a video is selected.
     */
    function Render(sortOrder: string): (s: Screen)
      reads this
      ensures s.LoadingScreen? <==> loading
      ensures s.ErrorScreen? <==> !loading && !ShowsDashboard()
      ensures s.ErrorScreen? ==> s.message == (if HasError() then error.value else NoDataMessage)
      ensures s.DashboardScreen? <==> ShowsDashboard()
      ensures s.DashboardScreen? ==> (s.modal.Some? <==> selectedVideo.Some?)
    {
      if loading then LoadingScreen
      else if HasError() || data.None? then
        ErrorScreen(if HasError() then error.value else NoDataMessage)
      else
        var d := data.value;
        DashboardScreen(
          Ranking(d.videoCqsData, sortOrder),
          DonutSlices(d.productDiscussionData, Colors),
          DonutSlices(d.videoTypeData, VideoTypeColors()),
          d.nextMonthFocusData,
          if selectedVideo.Some? then
            Some(TrendModal(selectedVideo.value, HistoryFor(d.videoCqsHistory, selectedVideo.value.id)))
          else None)
    }
  }

  /**
   * One page lifetime up to its first settled render: the first render shows the loading
   * view; once the fetch settles the page shows a single error view when the fetch threw
   * or gave no document, and otherwise the dashboard built from the fetched document,
   * ranked by CQS, with no modal open.
   */
  method LoadDashboard(outcome: FetchOutcome) returns (pending: Screen, settled: Screen)
    ensures pending == LoadingScreen
    ensures settled.ErrorScreen? <==> !Delivers(outcome)
    ensures Throws(outcome) ==> settled == ErrorScreen(FetchErrorMessage)
    ensures !Throws(outcome) && !Delivers(outcome) ==> settled == ErrorScreen(NoDataMessage)
    ensures Delivers(outcome) ==> settled == DashboardScreen(
      Ranking(outcome.body.data.videoCqsData, InitialSortOrder),
      DonutSlices(outcome.body.data.productDiscussionData, Colors),
      DonutSlices(outcome.body.data.videoTypeData, VideoTypeColors()),
      outcome.body.data.nextMonthFocusData,
      None)
  {
    var page := new DashboardPage();
    var card := new VideoCqsRanking();
    pending := page.Render(card.sortOrder);
    page.FetchSettled(outcome);
    settled := page.Render(card.sortOrder);
  }

  /**
   * The selection state machine on a loaded dashboard: selecting `a` then `b` shows `b`'s
   * trend (the second selection replaces the first), closing hides the modal, and closing
   * again changes nothing.
   */
  method SelectThenDismiss(d: DashboardData, a: Video, b: Video)
    returns (afterA: Screen, afterB: Screen, closed: Screen, closedAgain: Screen)
    ensures afterA.DashboardScreen? && afterA.modal == Some(TrendModal(a, HistoryFor(d.videoCqsHistory, a.id)))
    ensures afterB.DashboardScreen? && afterB.modal == Some(TrendModal(b, HistoryFor(d.videoCqsHistory, b.id)))
    ensures closed.DashboardScreen? && closed.modal == None
    ensures closedAgain == closed
    ensures afterA.ranking == afterB.ranking == closed.ranking
  {
    var page := new DashboardPage();
    page.FetchSettled(Response(true, Document(d)));
    page.OnVideoSelect(a);
    afterA := page.Render(InitialSortOrder);
    page.OnVideoSelect(b);
    afterB := page.Render(InitialSortOrder);
    page.OnClose();
    closed := page.Render(InitialSortOrder);
    page.OnClose();
    closedAgain := page.Render(InitialSortOrder);
  }
}
