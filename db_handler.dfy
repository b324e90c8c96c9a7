/**
 * The reconciliation job: for every asset row of a stored procedure it asks the directory API for
 * the users of the row's site (or of every site in the row's site group), keeping only the last
 * row's answer, and then inserts one row comparing the number of users seen on the bus with the
 * number the API reported. The database and the HTTP transport are parameters.
 */
module DbHandler {
  import opened Wrappers
  import opened Json
  import Api

  /** A row of the asset stored procedure; `SiteID` and `SiteGroupId` may be NULL. */
  datatype AssetRow = AssetRow(assetId: int, siteId: Option<int>, siteGroupId: Option<int>)

  /** A row of `usp_NEXD_GetSiteGroupSites`. */
  datatype SiteRow = SiteRow(siteid: int)

  /** The outcome of running a query: its rows, or a database exception. */
  datatype Query<T> = Rows(rows: seq<T>) | QueryFailed

  /** What the job talks to besides its own state. */
  datatype Services = Services(
    apiUrl: Option<string>,                       // API_URL, read by every `APIHandler()`
    employerId: Option<string>,                   // EMPLOYER_ID, read by every `APIHandler()`
    siteGroupSites: Option<int> -> Query<SiteRow>, // the site-group stored procedure, by group id
    post: Value -> Api.Reply)                      // `requests.post` to the API URL

  /** The row `_save_to_db` inserts, in the table's column order (SerialNo, MQTTEmployeeno, DatabaseEmoNo, Diff). */
  datatype Insert = Insert(serialNo: int, mqttEmployeeNo: int, databaseEmpNo: int, diff: int)

  /** The branch rule of `_process_row`: site 0 and no site group means "the bare site". */
  predicate IsBareSite(row: AssetRow)
  {
    row.siteId == Some(0) && row.siteGroupId.None?
  }

  /** The `siteid` of each site row, in order. */
  function SiteIds(rows: seq<SiteRow>): (ids: seq<int>)
    ensures |ids| == |rows| && forall i :: 0 <= i < |rows| ==> ids[i] == rows[i].siteid
  {
    seq(|rows|, i requires 0 <= i < |rows| => rows[i].siteid)
  }

  /** The site ids `_process_row` sends to the API for a row, or the database exception of the group lookup. */
  function RowSites(row: AssetRow, siteGroupSites: Option<int> -> Query<SiteRow>): (r: Result<seq<int>, Exception>)
    ensures r.Failure? <==> !IsBareSite(row) && siteGroupSites(row.siteGroupId).QueryFailed?
    ensures r.Failure? ==> r.error == DatabaseError
    ensures IsBareSite(row) ==> r == Success([0])
  {
    if IsBareSite(row) then Success([row.siteId.value])
    else
      match siteGroupSites(row.siteGroupId)
      case QueryFailed => Failure(DatabaseError)
      case Rows(sites) => Success(SiteIds(sites))
  }

  /** The ids the API reports for a row, or the exception that escapes `_process_row`. */
  function RowUsers(row: AssetRow, s: Services): (r: Result<seq<Value>, Exception>)
    ensures r.Failure? ==> r.error in {DatabaseError, ValueError, AttributeError, TypeError}
  {
    match RowSites(row, s.siteGroupSites)
    case Failure(e) => Failure(e)
    case Success(sites) =>
      match Api.NewApiHandler(s.apiUrl, s.employerId)
      case Failure(e) => Failure(e)
      case Success(h) => Api.FetchDeviceSerialNumbers(h, sites, s.post)
  }

  /** A row with site 0 and no group asks the API about the single site 0. */
  lemma BareSiteAsksForSiteZero(row: AssetRow, siteGroupSites: Option<int> -> Query<SiteRow>)
    requires row.siteId == Some(0) && row.siteGroupId.None?
    ensures RowSites(row, siteGroupSites) == Success([0])
  {
  }

  /** Every other row, a non-zero site without a group included, goes through the site-group lookup. */
  lemma OtherRowsUseSiteGroup(row: AssetRow, siteGroupSites: Option<int> -> Query<SiteRow>)
    requires row.siteId != Some(0) || row.siteGroupId.Some?
    ensures siteGroupSites(row.siteGroupId).Rows? ==>
      RowSites(row, siteGroupSites) == Success(SiteIds(siteGroupSites(row.siteGroupId).rows))
    ensures siteGroupSites(row.siteGroupId).QueryFailed? ==> RowSites(row, siteGroupSites) == Failure(DatabaseError)
  {
  }

  /** The two fields the row loop overwrites. */
  datatype Progress = Progress(assetId: int, apiSerialNumberList: seq<Value>)

  /** The fields after one row: the asset id always, the API list only when the row got an answer. */
  function AfterRow(p: Progress, row: AssetRow, s: Services): (next: Progress)
    ensures next.assetId == row.assetId
    ensures RowUsers(row, s).Success? ==> next.apiSerialNumberList == RowUsers(row, s).value
    ensures RowUsers(row, s).Failure? ==> next.apiSerialNumberList == p.apiSerialNumberList
  {
    Progress(row.assetId, match RowUsers(row, s) case Success(users) => users case Failure(_) => p.apiSerialNumberList)
  }

  /**
   * The row loop of `execute_stored_proc`: rows in order until the first exception, which the
   * catch-all reports and which ends the loop.
   */
  function ProcessRows(p: Progress, rows: seq<AssetRow>, s: Services): (r: (Progress, Option<Exception>))
    ensures r.1.None? ==> rows == [] || r.0.assetId == rows[|rows| - 1].assetId
    ensures rows == [] ==> r == (p, None)
    decreases |rows|
  {
    if rows == [] then (p, None)
    else
      var next := AfterRow(p, rows[0], s);
      match RowUsers(rows[0], s)
      case Failure(e) => (next, Some(e))
      case Success(_) => ProcessRows(next, rows[1..], s)
  }

  /** When every row gets an answer, only the last row's asset id and answer remain. */
  lemma {:induction false} LastRowWins(p: Progress, rows: seq<AssetRow>, s: Services)
    requires rows != []
    requires forall i :: 0 <= i < |rows| ==> RowUsers(rows[i], s).Success?
    ensures ProcessRows(p, rows, s) ==
      (Progress(rows[|rows| - 1].assetId, RowUsers(rows[|rows| - 1], s).value), None)
    decreases |rows|
  {
    if |rows| > 1 {
      LastRowWins(AfterRow(p, rows[0], s), rows[1..], s);
    }
  }

  /** The first row whose call fails ends the loop: its asset id is kept, the previous answer stays, the exception is reported. */
  lemma {:induction false} FirstFailureEndsLoop(p: Progress, rows: seq<AssetRow>, s: Services, k: nat)
    requires k < |rows| && RowUsers(rows[k], s).Failure?
    requires forall i :: 0 <= i < k ==> RowUsers(rows[i], s).Success?
    ensures ProcessRows(p, rows, s).1 == Some(RowUsers(rows[k], s).error)
    ensures ProcessRows(p, rows, s).0.assetId == rows[k].assetId
    ensures ProcessRows(p, rows, s).0.apiSerialNumberList ==
      if k == 0 then p.apiSerialNumberList else RowUsers(rows[k - 1], s).value
    decreases k
  {
    if k > 0 {
      FirstFailureEndsLoop(AfterRow(p, rows[0], s), rows[1..], s, k - 1);
    }
  }

  /** The sign convention of the difference: observed on the bus minus reported by the API. */
  function Difference(mqttCount: int, apiCount: int): (d: int)
    ensures d > 0 <==> mqttCount > apiCount
    ensures d == 0 <==> mqttCount == apiCount
    ensures apiCount + d == mqttCount
  {
    mqttCount - apiCount
  }

  class DatabaseHandler {
    var assetId: int
    var apiSerialNumberList: seq<Value>
    /** The serial numbers read from the CSV file when the handler is built. */
    const mqttSerialNumberList: seq<string>
    const tableName: string

    constructor (mqttSerialNumberList: seq<string>, tableName: string)
      ensures assetId == 0 && apiSerialNumberList == []
      ensures this.mqttSerialNumberList == mqttSerialNumberList && this.tableName == tableName
    {
      assetId := 0;
      apiSerialNumberList := [];
      this.mqttSerialNumberList := mqttSerialNumberList;
      this.tableName := tableName;
    }

    function State(): Progress
      reads this
    {
      Progress(assetId, apiSerialNumberList)
    }

    /** `_get_site_group_sites`: starts empty and appends the `siteid` of each row of the group lookup. */
    method GetSiteGroupSites(siteGroupSites: Option<int> -> Query<SiteRow>, siteGroupId: Option<int>)
      returns (r: Result<seq<int>, Exception>)
      ensures siteGroupSites(siteGroupId).QueryFailed? ==> r == Failure(DatabaseError)
      ensures siteGroupSites(siteGroupId).Rows? ==>
        r.Success? && |r.value| == |siteGroupSites(siteGroupId).rows|
        && forall i :: 0 <= i < |r.value| ==> r.value[i] == siteGroupSites(siteGroupId).rows[i].siteid
    {
      var reply := siteGroupSites(siteGroupId);
      if reply.QueryFailed? {
        return Failure(DatabaseError);
      }
      var siteGroupList: seq<int> := [];
      var i := 0;
      while i < |reply.rows|
        invariant 0 <= i <= |reply.rows|
        invariant |siteGroupList| == i
        invariant forall k :: 0 <= k < i ==> siteGroupList[k] == reply.rows[k].siteid
      {
        siteGroupList := siteGroupList + [reply.rows[i].siteid];
        i := i + 1;
      }
      r := Success(siteGroupList);
    }

    /** `_process_row`: overwrites the asset id, then the API list if the call returns. */
    method ProcessRow(row: AssetRow, s: Services) returns (error: Option<Exception>)
      modifies this`assetId, this`apiSerialNumberList
      ensures State() == AfterRow(old(State()), row, s)
      ensures error.None? <==> RowUsers(row, s).Success?
      ensures error.Some? ==> error.value == RowUsers(row, s).error
    {
      assetId := row.assetId;
      var sites: seq<int>;
      if row.siteId == Some(0) && row.siteGroupId.None? {
        sites := [row.siteId.value];
      } else {
        var lookup := GetSiteGroupSites(s.siteGroupSites, row.siteGroupId);
        if lookup.Failure? {
          return Some(lookup.error);
        }
        sites := lookup.value;
        assert sites == SiteIds(s.siteGroupSites(row.siteGroupId).rows);
      }
      var handler := Api.NewApiHandler(s.apiUrl, s.employerId);
      if handler.Failure? {
        return Some(handler.error);
      }
      var users := Api.FetchDeviceSerialNumbers(handler.value, sites, s.post);
      if users.Failure? {
        return Some(users.error);
      }
      apiSerialNumberList := users.value;
      error := None;
    }

    /**
     * `execute_stored_proc`: runs the asset query and processes its rows in order; a database
     * exception or any other exception is reported and ends the loop, never propagated.
     */
    method ExecuteStoredProc(assets: Query<AssetRow>, s: Services) returns (reported: Option<Exception>)
      modifies this`assetId, this`apiSerialNumberList
      ensures assets.QueryFailed? ==> reported == Some(DatabaseError) && State() == old(State())
      ensures assets.Rows? ==> (State(), reported) == ProcessRows(old(State()), assets.rows, s)
    {
      if assets.QueryFailed? {
        return Some(DatabaseError);
      }
      var rows := assets.rows;
      var i := 0;
      while i < |rows|
        invariant 0 <= i <= |rows|
        invariant ProcessRows(old(State()), rows, s) == ProcessRows(State(), rows[i..], s)
      {
        assert rows[i..][1..] == rows[i + 1..];
        var error := ProcessRow(rows[i], s);
        if error.Some? {
          return error;
        }
        i := i + 1;
      }
      reported := None;
    }

    /** `_save_to_db`: the row it inserts, or the database exception it reports. */
    method SaveToDb(databaseAvailable: bool) returns (r: Result<Insert, Exception>)
      ensures r.Success? <==> databaseAvailable
      ensures r.Failure? ==> r.error == DatabaseError
      ensures r.Success? ==>
        r.value.serialNo == assetId && r.value.mqttEmployeeNo == |mqttSerialNumberList| && r.value.databaseEmpNo == |apiSerialNumberList|
      ensures r.Success? ==> r.value.mqttEmployeeNo == r.value.databaseEmpNo + r.value.diff
    {
      if !databaseAvailable {
        return Failure(DatabaseError);
      }
      var difference := Difference(|mqttSerialNumberList|, |apiSerialNumberList|);
      r := Success(Insert(assetId, |mqttSerialNumberList|, |apiSerialNumberList|, difference));
    }
  }

  /**
   * The job as its entry point runs it: build the handler, process the asset rows, save. With no
   * rows the insert records asset 0, no API users and the whole bus count as difference; when
   * every row gets an answer it records the last row's asset and answer.
   */
  method Reconcile(mqttSerialNumberList: seq<string>, tableName: string, assets: Query<AssetRow>,
                   s: Services, databaseAvailable: bool)
    returns (reported: Option<Exception>, saved: Result<Insert, Exception>)
    ensures saved.Success? <==> databaseAvailable
    ensures databaseAvailable && assets == Rows([]) ==>
      reported.None? && saved.value == Insert(0, |mqttSerialNumberList|, 0, |mqttSerialNumberList|)
    ensures (databaseAvailable && assets.Rows? && assets.rows != []
      && forall i :: 0 <= i < |assets.rows| ==> RowUsers(assets.rows[i], s).Success?) ==>
        var last := assets.rows[|assets.rows| - 1];
        reported.None? && saved.value.serialNo == last.assetId
        && saved.value.databaseEmpNo == |RowUsers(last, s).value|
        && saved.value.diff == |mqttSerialNumberList| - |RowUsers(last, s).value|
  {
    var handler := new DatabaseHandler(mqttSerialNumberList, tableName);
    reported := handler.ExecuteStoredProc(assets, s);
    if assets.Rows? && assets.rows != [] && forall i :: 0 <= i < |assets.rows| ==> RowUsers(assets.rows[i], s).Success? {
      LastRowWins(Progress(0, []), assets.rows, s);
    }
    saved := handler.SaveToDb(databaseAvailable);
  }
}
