/** The reorder endpoint (app/api/sections/reorder/route.ts): after the sign-in, argument
    and ownership checks, one update per `{ id, orderIndex }` entry, all restricted to the
    report, and one answer for the batch. The updates run concurrently; here their results
    are an argument, as a map from an entry's position to the error its update reported. */
module ReorderRoute {
  import opened Common
  import opened ApiCommon

  /** `update({ order_index: orderIndex }).eq('id', id).eq('report_id', reportId)`; an absent
      field is None. */
  datatype OrderUpdate = OrderUpdate(id: Option<Json>, orderIndex: Option<Json>, reportId: Json)

  datatype ReorderOutcome = ReorderOutcome(response: Response, updates: seq<OrderUpdate>)

  /** The update for one entry, or None for a `null` entry, whose destructuring throws. */
  function UpdateFor(entry: Json, reportId: Json): Option<OrderUpdate> {
    match BodyFields(entry)
    case None => None
    case Some(fields) => Some(OrderUpdate(Field(fields, "id"), Field(fields, "orderIndex"), reportId))
  }

  /** `sectionOrders.map(...)`: the updates in entry order, or None when an entry is `null`,
      in which case the map throws before any update is sent. */
  function UpdatesFor(entries: seq<Json>, reportId: Json): (r: Option<seq<OrderUpdate>>)
    ensures r.Some? <==> forall k :: 0 <= k < |entries| ==> !entries[k].JNull?
    ensures r.Some? ==> |r.value| == |entries|
    ensures r.Some? ==> forall k :: 0 <= k < |entries| ==> Some(r.value[k]) == UpdateFor(entries[k], reportId)
  {
    if forall k :: 0 <= k < |entries| ==> !entries[k].JNull? then
      Some(seq(|entries|, k requires 0 <= k < |entries| => UpdateFor(entries[k], reportId).value))
    else None
  }

  /** The error messages of the failed updates, in entry order. */
  function ErrorsUpTo(failures: map<nat, string>, n: nat): (r: seq<string>)
    ensures |r| <= n
    ensures r == [] <==> forall k: nat :: k < n ==> k !in failures
  {
    if n == 0 then []
    else ErrorsUpTo(failures, n - 1) + (if n - 1 in failures then [failures[n - 1]] else [])
  }

  /** `POST` with a JSON body (None when it cannot be read); `reports` maps report ids to
      their authors, and `failures` gives the error of each failed update by position. */
  function Reorder(user: Option<string>, body: Option<Json>, reports: map<string, string>,
                   failures: map<nat, string>): ReorderOutcome
  {
    if user.None? then ReorderOutcome(Unauthorized, [])
    else if body.None? || BodyFields(body.value).None? then ReorderOutcome(InternalError, [])
    else
      var fields := BodyFields(body.value).value;
      var reportId := Field(fields, "reportId");
      var orders := Field(fields, "sectionOrders");
      if !FieldTruthy(reportId) || !(orders.Some? && orders.value.JArray?) then
        ReorderOutcome(Response(400, ErrorBody("reportId and sectionOrders array are required")), [])
      else
        var key := AsKey(reportId);
        if key.None? || key.value !in reports then
          ReorderOutcome(Response(404, ErrorBody("Report not found")), [])
        else if reports[key.value] != user.value then ReorderOutcome(Forbidden, [])
        else
          match UpdatesFor(orders.value.items, reportId.value)
          case None => ReorderOutcome(InternalError, [])
          case Some(updates) =>
            var errors := ErrorsUpTo(failures, |updates|);
            if |errors| > 0 then
              ReorderOutcome(Response(500, ErrorDetails("Failed to reorder some sections", errors)), updates)
            else ReorderOutcome(Response(200, SuccessBody), updates)
  }

  /** The checks come in order: 401 without a user, 400 without a truthy `reportId` or an
      array of orders, 404 for an unknown report and 403 for anyone but its author. */
  lemma ReorderStatuses(user: Option<string>, body: Option<Json>, reports: map<string, string>,
                        failures: map<nat, string>)
    ensures var r := Reorder(user, body, reports, failures);
            (r.response.status == 401 <==> user.None?) &&
            (user.Some? && body.Some? && body.value.JObject? ==>
               var fields := body.value.fields;
               var reportId := Field(fields, "reportId");
               var orders := Field(fields, "sectionOrders");
               var valid := FieldTruthy(reportId) && orders.Some? && orders.value.JArray?;
               var key := AsKey(reportId);
               (r.response.status == 400 <==> !valid) &&
               (r.response.status == 404 <==> valid && (key.None? || key.value !in reports)) &&
               (r.response.status == 403 <==> valid && key.Some? && key.value in reports &&
                                              reports[key.value] != user.value))
  {
  }

  /** Only the author's request issues updates: one per entry, in entry order, each setting
      that entry's `orderIndex` on the section with that entry's `id` within the report. */
  lemma ReorderUpdatesEachEntry(user: Option<string>, body: Option<Json>, reports: map<string, string>,
                                failures: map<nat, string>)
    requires Reorder(user, body, reports, failures).updates != []
    ensures var fields := body.value.fields;
            var entries := fields["sectionOrders"].items;
            var updates := Reorder(user, body, reports, failures).updates;
            AsKey(Field(fields, "reportId")).Some? &&
            reports[AsKey(Field(fields, "reportId")).value] == user.value &&
            |updates| == |entries| &&
            forall k :: 0 <= k < |entries| ==>
              !entries[k].JNull? &&
              updates[k].reportId == fields["reportId"] &&
              (entries[k].JObject? ==>
                 updates[k].id == Field(entries[k].fields, "id") &&
                 updates[k].orderIndex == Field(entries[k].fields, "orderIndex")) &&
              (!entries[k].JObject? ==> updates[k].id.None? && updates[k].orderIndex.None?)
  {
  }

  /** Success is reported only when no update failed; a failure answers 500 listing every
      failed update's error, and the updates that succeeded stay applied. */
  lemma ReorderAllOrNothingReport(user: Option<string>, body: Option<Json>, reports: map<string, string>,
                                  failures: map<nat, string>)
    requires Reorder(user, body, reports, failures).updates != []
    ensures var r := Reorder(user, body, reports, failures);
            (r.response.status == 200 <==> forall k: nat :: k < |r.updates| ==> k !in failures) &&
            (r.response.status != 200 ==>
               r.response == Response(500, ErrorDetails("Failed to reorder some sections",
                                                        ErrorsUpTo(failures, |r.updates|)))) &&
            r.updates == Reorder(user, body, reports, map[]).updates
  {
  }
}
