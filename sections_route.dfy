/** The section API (app/api/sections/route.ts): listing a report's sections, adding one,
    patching one and deleting one, each guarded by sign-in, argument and ownership checks.
    The database is an argument: the rows the routes look up are maps, and what a query or
    a write returns is given with the request. Each handler answers with a response and
    says which write, if any, it issued. */
module SectionsRoute {
  import opened Common
  import opened ApiCommon

  /** The columns of a `reports` row the routes read. */
  datatype Report = Report(createdBy: string, published: bool)

  /** A `sections` row as `select('id, report_id, reports!inner(created_by)')` returns it. */
  datatype SectionOwner = SectionOwner(reportId: string, reportCreatedBy: string)

  /** The rows the routes look up: reports by id and sections by id. */
  datatype Database = Database(reports: map<string, Report>, sections: map<string, SectionOwner>)

  /** Who may read a report: its author, or anyone once it is published. */
  predicate CanRead(report: Report, user: string) {
    report.createdBy == user || report.published
  }

  // ===========================================================================
  // GET

  /** `GET ?reportId=`: `user` is the signed-in user's id (None when there is none or the
      lookup failed) and `listing` what the ordered query of the report's sections returned. */
  function Get(user: Option<string>, reportId: Option<string>, db: Database, listing: Result<seq<Json>, string>):
    (r: Response)
    ensures r.status in {200, 400, 401, 403, 404, 500}
  {
    if user.None? then Unauthorized
    else if !Truthy(reportId) then Response(400, ErrorBody("reportId is required"))
    else if reportId.value !in db.reports then Response(404, ErrorBody("Report not found"))
    else if !CanRead(db.reports[reportId.value], user.value) then Forbidden
    else
      match listing
      case Err(message) => Response(500, ErrorBody(message))
      case Ok(sections) => Response(200, SectionsBody(sections))
  }

  /** Each failure has its own status, checked in this order: sign-in, argument, existence,
      access; only then is the listing returned, and only to the author or, for a published
      report, to anyone signed in. */
  lemma GetStatuses(user: Option<string>, reportId: Option<string>, db: Database, listing: Result<seq<Json>, string>)
    ensures var r := Get(user, reportId, db, listing);
            (r.status == 401 <==> user.None?) &&
            (r.status == 400 <==> user.Some? && !Truthy(reportId)) &&
            (r.status == 404 <==> user.Some? && Truthy(reportId) && reportId.value !in db.reports) &&
            (r.status == 403 <==>
               user.Some? && Truthy(reportId) && reportId.value in db.reports &&
               !CanRead(db.reports[reportId.value], user.value)) &&
            (r.status == 200 <==>
               user.Some? && Truthy(reportId) && reportId.value in db.reports &&
               CanRead(db.reports[reportId.value], user.value) && listing.Ok?) &&
            (r.status == 200 ==> r.body == SectionsBody(listing.value))
  {
  }

  // ===========================================================================
  // POST

  /** The row POST inserts. `title` is None when the body has none. */
  datatype NewSection = NewSection(
    reportId: string,
    sectionType: Json,
    title: Option<Json>,
    parentId: Json,
    orderIndex: int,
    contentBlocks: seq<Json>)

  datatype PostOutcome = PostOutcome(response: Response, inserted: Option<NewSection>)

  /** The largest of `xs[i..]` and `best`. */
  function MaxFrom(xs: seq<int>, i: nat, best: int): (m: int)
    requires i <= |xs|
    ensures best <= m && forall k :: i <= k < |xs| ==> xs[k] <= m
    ensures m == best || exists k :: i <= k < |xs| && xs[k] == m
    decreases |xs| - i
  {
    if i == |xs| then best
    else MaxFrom(xs, i + 1, if xs[i] > best then xs[i] else best)
  }

  /** `finalOrderIndex`: a numeric `orderIndex` is used as given; otherwise the section goes
      after the report's last one (`existing` holds the order indexes of its sections), or
      at 0 when it has none. */
  function FinalOrderIndex(orderIndex: Option<Json>, existing: seq<int>): (r: int)
    ensures orderIndex.Some? && orderIndex.value.JNum? ==> r == orderIndex.value.n
    ensures !(orderIndex.Some? && orderIndex.value.JNum?) && existing == [] ==> r == 0
    ensures !(orderIndex.Some? && orderIndex.value.JNum?) && existing != [] ==>
              (forall k :: 0 <= k < |existing| ==> existing[k] < r) && r - 1 in existing
  {
    if orderIndex.Some? && orderIndex.value.JNum? then orderIndex.value.n
    else if existing == [] then 0
    else MaxFrom(existing, 1, existing[0]) + 1
  }

  /** `POST` with a JSON body (None when it cannot be read); `existing` holds the order
      indexes of the report's sections and `insertResult` what the insert returned. */
  function Post(user: Option<string>, body: Option<Json>, db: Database, existing: seq<int>,
                insertResult: Result<Json, string>): (r: PostOutcome)
    ensures r.inserted.Some? ==> r.response.status in {201, 500}
  {
    if user.None? then PostOutcome(Unauthorized, None)
    else if body.None? || BodyFields(body.value).None? then PostOutcome(InternalError, None)
    else
      var fields := BodyFields(body.value).value;
      var reportId := Field(fields, "reportId");
      var sectionType := Field(fields, "type");
      if !FieldTruthy(reportId) || !FieldTruthy(sectionType) then
        PostOutcome(Response(400, ErrorBody("reportId and type are required")), None)
      else
        var key := AsKey(reportId);
        if key.None? || key.value !in db.reports then
          PostOutcome(Response(404, ErrorBody("Report not found")), None)
        else if db.reports[key.value].createdBy != user.value then PostOutcome(Forbidden, None)
        else
          var parentId := Field(fields, "parentId");
          var row := NewSection(
            key.value,
            sectionType.value,
            Field(fields, "title"),
            if FieldTruthy(parentId) then parentId.value else JNull,
            FinalOrderIndex(Field(fields, "orderIndex"), existing),
            []);
          match insertResult
          case Err(message) => PostOutcome(Response(500, ErrorBody(message)), Some(row))
          case Ok(section) => PostOutcome(Response(201, SectionBody(section)), Some(row))
  }

  /** Only the report's author can add a section, publication notwithstanding: 404 for an
      unknown report, 403 for anyone else; a section is inserted exactly when every check
      passes, and 201 means the insert succeeded. */
  lemma PostStatuses(user: Option<string>, body: Option<Json>, db: Database, existing: seq<int>,
                     insertResult: Result<Json, string>)
    ensures var r := Post(user, body, db, existing, insertResult);
            (r.response.status == 401 <==> user.None?) &&
            (user.Some? && (body.None? || body.value.JNull?) ==> r.response == InternalError && r.inserted.None?) &&
            (user.Some? && body.Some? && body.value.JObject? ==>
               var fields := body.value.fields;
               var key := AsKey(Field(fields, "reportId"));
               (r.response.status == 400 <==>
                  !FieldTruthy(Field(fields, "reportId")) || !FieldTruthy(Field(fields, "type"))) &&
               (r.response.status == 404 <==>
                  FieldTruthy(Field(fields, "reportId")) && FieldTruthy(Field(fields, "type")) &&
                  (key.None? || key.value !in db.reports)) &&
               (r.response.status == 403 <==>
                  FieldTruthy(Field(fields, "reportId")) && FieldTruthy(Field(fields, "type")) &&
                  key.Some? && key.value in db.reports && db.reports[key.value].createdBy != user.value) &&
               (r.inserted.Some? <==>
                  FieldTruthy(Field(fields, "reportId")) && FieldTruthy(Field(fields, "type")) &&
                  key.Some? && key.value in db.reports && db.reports[key.value].createdBy == user.value)) &&
            (r.response.status == 201 <==> r.inserted.Some? && insertResult.Ok?)
  {
  }

  /** The inserted row belongs to the named report, has no content blocks, has a null
      parent unless a truthy `parentId` was given, and takes its order index from
      `FinalOrderIndex`. */
  lemma PostInsertsNewSection(user: Option<string>, body: Option<Json>, db: Database, existing: seq<int>,
                              insertResult: Result<Json, string>)
    requires Post(user, body, db, existing, insertResult).inserted.Some?
    ensures var row := Post(user, body, db, existing, insertResult).inserted.value;
            var fields := BodyFields(body.value).value;
            Some(JString(row.reportId)) == Field(fields, "reportId") && row.reportId in db.reports &&
            db.reports[row.reportId].createdBy == user.value &&
            row.contentBlocks == [] &&
            (FieldTruthy(Field(fields, "parentId")) ==> row.parentId == fields["parentId"]) &&
            (!FieldTruthy(Field(fields, "parentId")) ==> row.parentId == JNull) &&
            row.orderIndex == FinalOrderIndex(Field(fields, "orderIndex"), existing)
  {
  }

  /** Publishing a report does not change what POST does. */
  lemma PostIgnoresPublication(user: Option<string>, body: Option<Json>, db: Database, existing: seq<int>,
                               insertResult: Result<Json, string>, id: string)
    requires id in db.reports
    ensures var published := Database(db.reports[id := db.reports[id].(published := true)], db.sections);
            Post(user, body, published, existing, insertResult) == Post(user, body, db, existing, insertResult)
  {
  }

  // ===========================================================================
  // PUT

  /** The columns PUT may write, each with the body key it is copied from. */
  const PatchColumns: map<string, string> :=
    map[
      "title" := "title",
      "type" := "type",
      "content_blocks" := "contentBlocks",
      "style_overrides" := "styleOverrides",
      "interaction_hints" := "interactionHints",
      "locked" := "locked"]

  /** One `if (x !== undefined) updates.column = x` step: a present key, `null` included,
      is copied to its column. */
  function CopyField(updates: map<string, Json>, fields: map<string, Json>, key: string, column: string):
    map<string, Json>
  {
    if key in fields then updates[column := fields[key]] else updates
  }

  /** The `updates` object PUT builds from the body. */
  function Patch(fields: map<string, Json>): map<string, Json> {
    var u := CopyField(map[], fields, "title", "title");
    var u := CopyField(u, fields, "type", "type");
    var u := CopyField(u, fields, "contentBlocks", "content_blocks");
    var u := CopyField(u, fields, "styleOverrides", "style_overrides");
    var u := CopyField(u, fields, "interactionHints", "interaction_hints");
    CopyField(u, fields, "locked", "locked")
  }

  /** The six `if (x !== undefined) updates.y = x` steps. */
  method BuildUpdates(fields: map<string, Json>) returns (updates: map<string, Json>)
    ensures updates == Patch(fields)
  {
    updates := map[];
    if "title" in fields {
      updates := updates["title" := fields["title"]];
    }
    if "type" in fields {
      updates := updates["type" := fields["type"]];
    }
    if "contentBlocks" in fields {
      updates := updates["content_blocks" := fields["contentBlocks"]];
    }
    if "styleOverrides" in fields {
      updates := updates["style_overrides" := fields["styleOverrides"]];
    }
    if "interactionHints" in fields {
      updates := updates["interaction_hints" := fields["interactionHints"]];
    }
    if "locked" in fields {
      updates := updates["locked" := fields["locked"]];
    }
  }

  /** The patch holds exactly the patchable columns whose body key is present, each with the
      value given. */
  lemma PatchIsSuppliedColumns(fields: map<string, Json>)
    ensures forall c :: c in Patch(fields) <==> c in PatchColumns && PatchColumns[c] in fields
    ensures forall c :: c in Patch(fields) ==> Patch(fields)[c] == fields[PatchColumns[c]]
  {
  }

  /** Applying the patch to a stored row writes exactly the supplied columns and keeps every
      other one; the row's identity, report, position and parent can never be written. */
  lemma PatchWritesOnlySupplied(row: map<string, Json>, fields: map<string, Json>)
    ensures forall c :: c in row && c !in Patch(fields) ==> (row + Patch(fields))[c] == row[c]
    ensures forall c :: c in Patch(fields) ==> (row + Patch(fields))[c] == fields[PatchColumns[c]]
    ensures "id" !in Patch(fields) && "report_id" !in Patch(fields)
    ensures "order_index" !in Patch(fields) && "parent_id" !in Patch(fields)
  {
    PatchIsSuppliedColumns(fields);
  }

  datatype PutOutcome = PutOutcome(response: Response, update: Option<(string, map<string, Json>)>)

  /** `PUT` with a JSON body; `updateResult` is what the update returned. */
  function Put(user: Option<string>, body: Option<Json>, db: Database, updateResult: Result<Json, string>):
    (r: PutOutcome)
    ensures r.update.Some? ==> r.response.status in {200, 500}
  {
    if user.None? then PutOutcome(Unauthorized, None)
    else if body.None? || BodyFields(body.value).None? then PutOutcome(InternalError, None)
    else
      var fields := BodyFields(body.value).value;
      var id := Field(fields, "id");
      if !FieldTruthy(id) then PutOutcome(Response(400, ErrorBody("id is required")), None)
      else
        var key := AsKey(id);
        if key.None? || key.value !in db.sections then
          PutOutcome(Response(404, ErrorBody("Section not found")), None)
        else if db.sections[key.value].reportCreatedBy != user.value then PutOutcome(Forbidden, None)
        else
          var update := Some((key.value, Patch(fields)));
          match updateResult
          case Err(message) => PutOutcome(Response(500, ErrorBody(message)), update)
          case Ok(section) => PutOutcome(Response(200, SectionBody(section)), update)
  }

  /** A section is patched only by its report's author, with exactly the supplied fields;
      otherwise 400 without an id, 404 for an unknown section and 403 for anyone else. */
  lemma PutStatuses(user: Option<string>, body: Option<Json>, db: Database, updateResult: Result<Json, string>)
    ensures var r := Put(user, body, db, updateResult);
            (r.response.status == 401 <==> user.None?) &&
            (user.Some? && body.Some? && body.value.JObject? ==>
               var fields := body.value.fields;
               var key := AsKey(Field(fields, "id"));
               (r.response.status == 400 <==> !FieldTruthy(Field(fields, "id"))) &&
               (r.response.status == 404 <==>
                  FieldTruthy(Field(fields, "id")) && (key.None? || key.value !in db.sections)) &&
               (r.response.status == 403 <==>
                  FieldTruthy(Field(fields, "id")) && key.Some? && key.value in db.sections &&
                  db.sections[key.value].reportCreatedBy != user.value) &&
               (r.update.Some? <==>
                  FieldTruthy(Field(fields, "id")) && key.Some? && key.value in db.sections &&
                  db.sections[key.value].reportCreatedBy == user.value) &&
               (r.update.Some? ==> r.update.value == (key.value, Patch(fields))) &&
               (r.response.status == 200 <==> r.update.Some? && updateResult.Ok?) &&
               (r.update.Some? && updateResult.Err? ==> r.response.status == 500)) &&
            (user.Some? && (body.None? || body.value.JNull?) ==> r.response.status == 500 && r.update.None?)
  {
  }

  // ===========================================================================
  // DELETE

  datatype DeleteOutcome = DeleteOutcome(response: Response, deleted: Option<string>)

  /** `DELETE ?id=`; `deleteError` is the delete's error, if any. */
  function Delete(user: Option<string>, id: Option<string>, db: Database, deleteError: Option<string>):
    (r: DeleteOutcome)
    ensures r.deleted.Some? ==> r.response.status in {200, 500}
  {
    if user.None? then DeleteOutcome(Unauthorized, None)
    else if !Truthy(id) then DeleteOutcome(Response(400, ErrorBody("id is required")), None)
    else if id.value !in db.sections then DeleteOutcome(Response(404, ErrorBody("Section not found")), None)
    else if db.sections[id.value].reportCreatedBy != user.value then DeleteOutcome(Forbidden, None)
    else
      match deleteError
      case Some(message) => DeleteOutcome(Response(500, ErrorBody(message)), Some(id.value))
      case None => DeleteOutcome(Response(200, SuccessBody), Some(id.value))
  }

  /** A section is deleted only by its report's author; 400 without an id, 404 for an
      unknown section, 403 for anyone else, and success only when the delete succeeded. */
  lemma DeleteStatuses(user: Option<string>, id: Option<string>, db: Database, deleteError: Option<string>)
    ensures var r := Delete(user, id, db, deleteError);
            (r.response.status == 401 <==> user.None?) &&
            (r.response.status == 400 <==> user.Some? && !Truthy(id)) &&
            (r.response.status == 404 <==> user.Some? && Truthy(id) && id.value !in db.sections) &&
            (r.response.status == 403 <==>
               user.Some? && Truthy(id) && id.value in db.sections &&
               db.sections[id.value].reportCreatedBy != user.value) &&
            (r.deleted.Some? <==>
               user.Some? && Truthy(id) && id.value in db.sections &&
               db.sections[id.value].reportCreatedBy == user.value) &&
            (r.deleted.Some? ==> r.deleted == id) &&
            (r.response.status == 200 <==> r.deleted.Some? && deleteError.None?)
  {
  }
}
