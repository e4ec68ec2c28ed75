/** The backend's screening endpoints: saving answers 201, a missing
    screening 404, and the listings are for the user the list belongs to
    and for clinicians (doctors and admins) only. */
module ScreeningController {
  import opened Base
  import opened Strings
  import opened Js
  import opened AuthMiddleware
  import opened ScreeningService

  /** A JSON response: its status and body. */
  datatype Response = Response(status: int, body: Value)

  const Clinicians: seq<string> := ["doctor", "admin"]

  /** `createScreening`: 201 with the stored row. */
  function CreateScreening(row: Value): (r: Response)
    ensures r.status == 201 && Get(Fields(r.body), "data") == row
    ensures Get(Fields(r.body), "message") == Str("Screening saved")
  {
    Response(201, Obj(map["message" := Str("Screening saved"), "data" := row]))
  }

  /** `getScreening` for what the lookup gave. */
  function GetScreening(found: Value): (r: Result<Value>)
    ensures r.Fail? <==> Falsy(found)
    ensures r.Fail? ==> r.error == HttpError(404, "Screening not found")
    ensures r.Ok? ==> Get(Fields(r.value), "data") == found
  {
    if Falsy(found) then Fail(HttpError(404, "Screening not found"))
    else Ok(Obj(map["data" := found]))
  }

  /** A screening id without a row is not found; a row is sent back whole. */
  lemma LookupToResponse(row: map<string, Value>)
    ensures GetScreening(FirstRowOrNull([])) == Fail(HttpError(404, "Screening not found"))
    ensures GetScreening(FirstRowOrNull([Obj(row)])) == Ok(Obj(map["data" := Obj(row)]))
  {
  }

  /** The condition `listScreenings` lets through: a requester whose id
      is numerically the one in the path, or a clinician. */
  predicate MayListFor(userId: string, requester: Value) {
    !Falsy(requester)
    && (SameNumber(StringToNumber(userId), ToNumber(Get(Fields(requester), "id"))) || HasRole(requester, Clinicians))
  }

  /** `listScreenings(userId)` with the requester and the rows found. */
  function ListScreenings(userId: string, requester: Value, rows: seq<Value>): (r: Result<seq<Value>>)
    ensures r.Ok? <==> MayListFor(userId, requester)
    ensures r.Ok? ==> r.value == rows
    ensures r.Fail? ==> r.error == HttpError(403, "Not authorised to view these screenings")
  {
    if !MayListFor(userId, requester) then Fail(HttpError(403, "Not authorised to view these screenings"))
    else Ok(rows)
  }

  /** A user may list their own screenings, by the decimal id in the path. */
  lemma OwnerMayList(id: int, fields: map<string, Value>, rows: seq<Value>)
    ensures ListScreenings(IntToString(id), Obj(fields["id" := Num(id as real)]), rows) == Ok(rows)
  {
    StringToNumberOfInt(id);
    MayListById(IntToString(id), Obj(fields["id" := Num(id as real)]), id as real);
  }

  lemma MayListById(userId: string, requester: Value, x: real)
    requires requester.Obj? && StringToNumber(userId) == Some(x)
    requires Get(Fields(requester), "id") == Num(x)
    ensures MayListFor(userId, requester)
  {
  }

  /** A parent may not list another user's screenings. */
  lemma ParentMayNotListOthers(id: int, other: int, fields: map<string, Value>, rows: seq<Value>)
    requires other != id
    ensures ListScreenings(IntToString(other), Obj(fields["id" := Num(id as real)]["role" := Str("parent")]), rows).Fail?
  {
    StringToNumberOfInt(other);
    MayNotListOther(IntToString(other), Obj(fields["id" := Num(id as real)]["role" := Str("parent")]), other as real, id as real);
  }

  lemma MayNotListOther(userId: string, requester: Value, x: real, y: real)
    requires requester.Obj? && StringToNumber(userId) == Some(x) && x != y
    requires Get(Fields(requester), "id") == Num(y) && Get(Fields(requester), "role") == Str("parent")
    ensures !MayListFor(userId, requester)
  {
    assert !HasRole(requester, Clinicians);
  }

  /** A clinician may list anyone's screenings. */
  lemma ClinicianMayList(userId: string, fields: map<string, Value>, rows: seq<Value>)
    ensures ListScreenings(userId, Obj(fields["role" := Str("doctor")]), rows) == Ok(rows)
    ensures ListScreenings(userId, Obj(fields["role" := Str("admin")]), rows) == Ok(rows)
  {
    MayListAsClinician(userId, Obj(fields["role" := Str("doctor")]), "doctor");
    MayListAsClinician(userId, Obj(fields["role" := Str("admin")]), "admin");
  }

  lemma MayListAsClinician(userId: string, requester: Value, role: string)
    requires requester.Obj? && Get(Fields(requester), "role") == Str(role) && role in Clinicians
    ensures MayListFor(userId, requester)
  {
  }

  /** `listAllScreenings`: clinicians only. */
  function ListAllScreenings(requester: Value, rows: seq<Value>): (r: Result<seq<Value>>)
    ensures r.Ok? <==> RequireRole(requester, Clinicians).None?
    ensures r.Ok? ==> r.value == rows
    ensures r.Fail? ==> r.error == HttpError(403, "Not authorised")
  {
    if Falsy(requester) || !HasRole(requester, Clinicians) then Fail(HttpError(403, "Not authorised"))
    else Ok(rows)
  }
}
