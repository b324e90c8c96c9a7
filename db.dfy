/**
 * The earlier draft of the reconciliation job: for every asset row it posts the row's sites to the
 * API directly. It differs from the handler in four ways the model keeps: the bare-site branch
 * passes a single number where a list is iterated, the site-group list is never reset between
 * rows, the success test compares the integer status code with the string "200", and the request
 * carries the employer as a number with a look-back window of 0.
 */
module DbDraft {
  import opened Wrappers
  import opened Json
  import Api
  import DbHandler

  /** The argument `save_to_db` receives: a list of site ids, or (bare-site branch) the site id itself. */
  datatype SiteArg = SiteList(ids: seq<int>) | BareSite(id: int)

  /** What `save_to_db` reports: "Insert Successful", nothing, or the caught `RequestException`. */
  datatype SaveReport = InsertSuccessful | Silent | RequestErrorReported

  /** `prepare_employer_site_list`: one `{employerId, siteId}` object per site id; iterating a number raises `TypeError`. */
  method PrepareEmployerSiteList(employerId: int, arg: SiteArg) returns (r: Result<seq<Value>, Exception>)
    ensures arg.BareSite? ==> r == Failure(TypeError)
    ensures arg.SiteList? ==> r == Success(Api.EmployerSiteList(Num(employerId), arg.ids))
  {
    if arg.BareSite? {
      return Failure(TypeError);
    }
    var employersSiteList: seq<Value> := [];
    var i := 0;
    while i < |arg.ids|
      invariant 0 <= i <= |arg.ids|
      invariant employersSiteList == Api.EmployerSiteList(Num(employerId), arg.ids[..i])
    {
      employersSiteList := employersSiteList + [Api.SiteEntry(Num(employerId), arg.ids[i])];
      i := i + 1;
    }
    assert arg.ids[..i] == arg.ids;
    r := Success(employersSiteList);
  }

  /** `prepare_request_object`: the same body as the handler's, with the employer as a number and a look-back window of 0. */
  function PrepareRequestObject(employerId: int, arg: SiteArg): (r: Result<Value, Exception>)
    ensures r.Failure? <==> arg.BareSite?
    ensures r.Failure? ==> r.error == TypeError
    ensures r.Success? ==>
      Api.RequestedSites(r.value) == Some(arg.ids) && r.value.Obj? && "lookBackWindowsInMinutes" in r.value.fields
      && r.value.fields["lookBackWindowsInMinutes"] == Num(0)
  {
    match arg
    case BareSite(_) => Failure(TypeError)
    case SiteList(ids) => Success(Api.RequestBody(Num(employerId), ids, 0))
  }

  /** The draft and the handler ask about the same sites; only the look-back window differs (0 against -1). */
  lemma DraftAndHandlerAskForSameSites(employerId: int, h: Api.ApiHandler, ids: seq<int>)
    ensures var draft := PrepareRequestObject(employerId, SiteList(ids));
      var handler := Api.PrepareRequestObject(h, ids);
      draft.Success? && Api.RequestedSites(draft.value) == Api.RequestedSites(handler) == Some(ids)
      && draft.value.fields["lookBackWindowsInMinutes"] != handler.fields["lookBackWindowsInMinutes"]
  {
  }

  /**
   * `save_to_db`: builds the body (a `TypeError` there escapes), posts it, reports a caught
   * `RequestException`, and prints success only when the status code equals the string "200".
   */
  function SaveToDb(employerId: int, arg: SiteArg, post: Value -> Api.Reply): (r: Result<SaveReport, Exception>)
    ensures r.Failure? <==> arg.BareSite?
    ensures r.Failure? ==> r.error == TypeError
    ensures r.Success? ==>
      (r.value == RequestErrorReported <==> post(PrepareRequestObject(employerId, arg).value).TransportFailed?)
    ensures r != Success(InsertSuccessful)
  {
    match PrepareRequestObject(employerId, arg)
    case Failure(e) => Failure(e)
    case Success(request) =>
      match post(request)
      case TransportFailed => Success(RequestErrorReported)
      // Python's `response.status_code == "200"` compares an int with a str
      case Response(status, _) => if Num(status) == Str("200") then Success(InsertSuccessful) else Success(Silent)
  }

  /** One call of `save_to_db` that reached the API: the sites it asked about and what it reported. */
  datatype Call = Call(sites: seq<int>, report: SaveReport)

  /** The calls the row loop makes, and the exception that ends the script, if any. */
  datatype Outcome = Outcome(calls: seq<Call>, crash: Option<Exception>)

  /**
   * The row loop of `execute_stored_proc` over the remaining rows, with `groupSites` the site
   * list collected so far: nothing catches a database error or the bare-site `TypeError`.
   */
  function DraftRun(employerId: int, rows: seq<DbHandler.AssetRow>,
                    siteGroupSites: Option<int> -> DbHandler.Query<DbHandler.SiteRow>,
                    post: Value -> Api.Reply, groupSites: seq<int>): (r: Outcome)
    ensures |r.calls| <= |rows|
    ensures r.crash.None? ==> |r.calls| == |rows|
    decreases |rows|
  {
    if rows == [] then Outcome([], None)
    else if DbHandler.IsBareSite(rows[0]) then
      Outcome([], Some(SaveToDb(employerId, BareSite(rows[0].siteId.value), post).error))
    else
      match siteGroupSites(rows[0].siteGroupId)
      case QueryFailed => Outcome([], Some(DatabaseError))
      case Rows(sites) =>
        var collected := groupSites + DbHandler.SiteIds(sites);
        var rest := DraftRun(employerId, rows[1..], siteGroupSites, post, collected);
        Outcome([Call(collected, SaveToDb(employerId, SiteList(collected), post).value)] + rest.calls, rest.crash)
  }

  /** The calls already made in front of an outcome. */
  function After(calls: seq<Call>, o: Outcome): Outcome
  {
    Outcome(calls + o.calls, o.crash)
  }

  /** One row that is not bare and whose group lookup succeeds: one call, then the remaining rows with the longer list. */
  lemma DraftRunStep(employerId: int, rows: seq<DbHandler.AssetRow>,
                     siteGroupSites: Option<int> -> DbHandler.Query<DbHandler.SiteRow>,
                     post: Value -> Api.Reply, groupSites: seq<int>)
    requires rows != [] && !DbHandler.IsBareSite(rows[0]) && siteGroupSites(rows[0].siteGroupId).Rows?
    ensures var collected := groupSites + DbHandler.SiteIds(siteGroupSites(rows[0].siteGroupId).rows);
      DraftRun(employerId, rows, siteGroupSites, post, groupSites)
      == After([Call(collected, SaveToDb(employerId, SiteList(collected), post).value)],
               DraftRun(employerId, rows[1..], siteGroupSites, post, collected))
  {
  }

  /** The inner loop of `execute_stored_proc`: appends the `siteid` of each row of the group lookup to the list so far. */
  method CollectGroupSites(siteGroupList: seq<int>, sites: seq<DbHandler.SiteRow>) returns (collected: seq<int>)
    ensures collected == siteGroupList + DbHandler.SiteIds(sites)
  {
    collected := siteGroupList;
    var j := 0;
    while j < |sites|
      invariant 0 <= j <= |sites|
      invariant |collected| == |siteGroupList| + j
      invariant collected[..|siteGroupList|] == siteGroupList
      invariant forall k :: 0 <= k < j ==> collected[|siteGroupList| + k] == sites[k].siteid
    {
      collected := collected + [sites[j].siteid];
      j := j + 1;
    }
  }

  /** `execute_stored_proc`: the asset query, then each row in order, collecting site-group sites into one list. */
  method ExecuteStoredProc(employerId: int, assets: DbHandler.Query<DbHandler.AssetRow>,
                           siteGroupSites: Option<int> -> DbHandler.Query<DbHandler.SiteRow>,
                           post: Value -> Api.Reply)
    returns (calls: seq<Call>, crash: Option<Exception>)
    ensures assets.QueryFailed? ==> calls == [] && crash == Some(DatabaseError)
    ensures assets.Rows? ==> Outcome(calls, crash) == DraftRun(employerId, assets.rows, siteGroupSites, post, [])
  {
    calls := [];
    if assets.QueryFailed? {
      return calls, Some(DatabaseError);
    }
    var rows := assets.rows;
    var siteGroupList: seq<int> := [];
    var i := 0;
    while i < |rows|
      invariant 0 <= i <= |rows|
      invariant DraftRun(employerId, rows, siteGroupSites, post, [])
        == After(calls, DraftRun(employerId, rows[i..], siteGroupSites, post, siteGroupList))
    {
      var row := rows[i];
      if row.siteId == Some(0) && row.siteGroupId.None? {
        var saved := SaveToDb(employerId, BareSite(row.siteId.value), post);
        return calls, Some(saved.error);
      }
      var reply := siteGroupSites(row.siteGroupId);
      if reply.QueryFailed? {
        return calls, Some(DatabaseError);
      }
      ghost var before := siteGroupList;
      siteGroupList := CollectGroupSites(siteGroupList, reply.rows);
      var saved := SaveToDb(employerId, SiteList(siteGroupList), post);
      DraftRunStep(employerId, rows[i..], siteGroupSites, post, before);
      assert rows[i..][1..] == rows[i + 1..];
      calls := calls + [Call(siteGroupList, saved.value)];
      i := i + 1;
    }
    crash := None;
  }

  /** Prefixes of prefixes are prefixes. */
  lemma PrefixTransitive(a: seq<int>, b: seq<int>, c: seq<int>)
    requires a <= b && b <= c
    ensures a <= c
  {
    assert c[..|a|] == c[..|b|][..|a|];
  }

  /** The site list is never reset: every call repeats the sites of the call before it, and of what was collected before. */
  lemma {:induction false} GroupListsOnlyGrow(employerId: int, rows: seq<DbHandler.AssetRow>,
                                              siteGroupSites: Option<int> -> DbHandler.Query<DbHandler.SiteRow>,
                                              post: Value -> Api.Reply, groupSites: seq<int>)
    ensures var o := DraftRun(employerId, rows, siteGroupSites, post, groupSites);
      (forall k :: 0 <= k < |o.calls| ==> groupSites <= o.calls[k].sites)
      && forall k :: 0 < k < |o.calls| ==> o.calls[k - 1].sites <= o.calls[k].sites
    decreases |rows|
  {
    if rows != [] && !DbHandler.IsBareSite(rows[0]) && siteGroupSites(rows[0].siteGroupId).Rows? {
      var collected := groupSites + DbHandler.SiteIds(siteGroupSites(rows[0].siteGroupId).rows);
      GroupListsOnlyGrow(employerId, rows[1..], siteGroupSites, post, collected);
      DraftRunStep(employerId, rows, siteGroupSites, post, groupSites);
      var o := DraftRun(employerId, rows, siteGroupSites, post, groupSites);
      var rest := DraftRun(employerId, rows[1..], siteGroupSites, post, collected);
      assert groupSites <= collected by {
        assert collected[..|groupSites|] == groupSites;
      }
      forall k | 0 <= k < |o.calls|
        ensures groupSites <= o.calls[k].sites
      {
        if k > 0 {
          assert o.calls[k] == rest.calls[k - 1];
          PrefixTransitive(groupSites, collected, o.calls[k].sites);
        }
      }
      forall k | 0 < k < |o.calls|
        ensures o.calls[k - 1].sites <= o.calls[k].sites
      {
        if k > 1 {
          assert o.calls[k - 1] == rest.calls[k - 2] && o.calls[k] == rest.calls[k - 1];
        } else {
          assert o.calls[k] == rest.calls[k - 1];
        }
      }
    }
  }

  /** The site ids of the groups of the given rows, concatenated in row order. */
  function GroupSites(rows: seq<DbHandler.AssetRow>, siteGroupSites: Option<int> -> DbHandler.Query<DbHandler.SiteRow>): (sites: seq<int>)
    ensures rows == [] ==> sites == []
    ensures rows != [] && siteGroupSites(rows[0].siteGroupId).Rows? ==>
      DbHandler.SiteIds(siteGroupSites(rows[0].siteGroupId).rows) <= sites
    decreases |rows|
  {
    if rows == [] then []
    else
      var here := match siteGroupSites(rows[0].siteGroupId) case Rows(sites) => DbHandler.SiteIds(sites) case QueryFailed => [];
      here + GroupSites(rows[1..], siteGroupSites)
  }

  /** The groups of rows 0..k are the first row's group followed by the groups of rows 1..k. */
  lemma GroupSitesOfPrefix(rows: seq<DbHandler.AssetRow>, siteGroupSites: Option<int> -> DbHandler.Query<DbHandler.SiteRow>, k: nat)
    requires k < |rows| && siteGroupSites(rows[0].siteGroupId).Rows?
    ensures GroupSites(rows[..k + 1], siteGroupSites)
      == DbHandler.SiteIds(siteGroupSites(rows[0].siteGroupId).rows) + GroupSites(rows[1..][..k], siteGroupSites)
  {
    assert rows[..k + 1][0] == rows[0] && rows[..k + 1][1..] == rows[1..][..k];
  }

  /** The k-th call of a run whose first call collected `here`, given what the later calls ask about. */
  lemma CallSitesAt(rows: seq<DbHandler.AssetRow>, siteGroupSites: Option<int> -> DbHandler.Query<DbHandler.SiteRow>,
                    groupSites: seq<int>, calls: seq<Call>, k: nat)
    requires k < |rows| && |calls| == |rows| && siteGroupSites(rows[0].siteGroupId).Rows?
    requires calls[0].sites == groupSites + DbHandler.SiteIds(siteGroupSites(rows[0].siteGroupId).rows)
    requires forall j :: 0 <= j < |rows| - 1 ==>
      calls[1..][j].sites == calls[0].sites + GroupSites(rows[1..][..j + 1], siteGroupSites)
    ensures calls[k].sites == groupSites + GroupSites(rows[..k + 1], siteGroupSites)
  {
    GroupSitesOfPrefix(rows, siteGroupSites, k);
    if k == 0 {
      assert GroupSites(rows[1..][..0], siteGroupSites) == [];
    } else {
      assert calls[k] == calls[1..][k - 1];
    }
  }

  /** With no bare-site row and no failed lookup, the k-th call asks about the sites of every group of rows 0..k. */
  lemma {:induction false} CallsRepeatEarlierGroups(employerId: int, rows: seq<DbHandler.AssetRow>,
                                                    siteGroupSites: Option<int> -> DbHandler.Query<DbHandler.SiteRow>,
                                                    post: Value -> Api.Reply, groupSites: seq<int>)
    requires forall i :: 0 <= i < |rows| ==> !DbHandler.IsBareSite(rows[i]) && siteGroupSites(rows[i].siteGroupId).Rows?
    ensures var o := DraftRun(employerId, rows, siteGroupSites, post, groupSites);
      o.crash.None? && |o.calls| == |rows|
      && forall k :: 0 <= k < |rows| ==> o.calls[k].sites == groupSites + GroupSites(rows[..k + 1], siteGroupSites)
    decreases |rows|
  {
    if rows != [] {
      var collected := groupSites + DbHandler.SiteIds(siteGroupSites(rows[0].siteGroupId).rows);
      CallsRepeatEarlierGroups(employerId, rows[1..], siteGroupSites, post, collected);
      DraftRunStep(employerId, rows, siteGroupSites, post, groupSites);
      var o := DraftRun(employerId, rows, siteGroupSites, post, groupSites);
      assert o.calls[1..] == DraftRun(employerId, rows[1..], siteGroupSites, post, collected).calls;
      forall k | 0 <= k < |rows|
        ensures o.calls[k].sites == groupSites + GroupSites(rows[..k + 1], siteGroupSites)
      {
        CallSitesAt(rows, siteGroupSites, groupSites, o.calls, k);
      }
    }
  }

  /** The first bare-site row ends the script with `TypeError` after one call per earlier row. */
  lemma {:induction false} BareSiteRowCrashes(employerId: int, rows: seq<DbHandler.AssetRow>,
                                              siteGroupSites: Option<int> -> DbHandler.Query<DbHandler.SiteRow>,
                                              post: Value -> Api.Reply, groupSites: seq<int>, k: nat)
    requires k < |rows| && DbHandler.IsBareSite(rows[k])
    requires forall i :: 0 <= i < k ==> !DbHandler.IsBareSite(rows[i]) && siteGroupSites(rows[i].siteGroupId).Rows?
    ensures var o := DraftRun(employerId, rows, siteGroupSites, post, groupSites);
      o.crash == Some(TypeError) && |o.calls| == k
    decreases k
  {
    if k > 0 {
      var collected := groupSites + DbHandler.SiteIds(siteGroupSites(rows[0].siteGroupId).rows);
      BareSiteRowCrashes(employerId, rows[1..], siteGroupSites, post, collected, k - 1);
    }
  }

  /** No call of the draft ever reports success, whatever the API answers. */
  lemma {:induction false} NeverReportsSuccess(employerId: int, rows: seq<DbHandler.AssetRow>,
                                               siteGroupSites: Option<int> -> DbHandler.Query<DbHandler.SiteRow>,
                                               post: Value -> Api.Reply, groupSites: seq<int>)
    ensures var o := DraftRun(employerId, rows, siteGroupSites, post, groupSites);
      forall k :: 0 <= k < |o.calls| ==> o.calls[k].report != InsertSuccessful
    decreases |rows|
  {
    if rows != [] && !DbHandler.IsBareSite(rows[0]) && siteGroupSites(rows[0].siteGroupId).Rows? {
      var collected := groupSites + DbHandler.SiteIds(siteGroupSites(rows[0].siteGroupId).rows);
      NeverReportsSuccess(employerId, rows[1..], siteGroupSites, post, collected);
      DraftRunStep(employerId, rows, siteGroupSites, post, groupSites);
      var o := DraftRun(employerId, rows, siteGroupSites, post, groupSites);
      var rest := DraftRun(employerId, rows[1..], siteGroupSites, post, collected);
      forall k | 0 < k < |o.calls|
        ensures o.calls[k].report != InsertSuccessful
      {
        assert o.calls[k] == rest.calls[k - 1];
      }
    }
  }
}
