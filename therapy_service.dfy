/** The backend's therapy-session rules: only the three games exist, the
    child must exist, a parent may only record sessions for their own
    child, and missing numbers get defaults. The database is left out;
    the child row found is an input. */
module TherapyService {
  import opened Base
  import opened Js

  /** `GAME_TYPES` */
  const GameTypes: seq<string> := ["movingDot", "contrastChallenge", "objectMatch"]

  const ChildNotFound: HttpError := HttpError(404, "Child not found")
  const NotYourChild: HttpError := HttpError(403, "Not authorised for this child")
  const InvalidGame: HttpError := HttpError(400, "Invalid therapy game type")

  /** A parent whose id is not numerically the child's owner. */
  predicate ForeignParent(child: Value, user: Value) {
    Get(Fields(user), "role") == Str("parent")
    && !SameNumber(ToNumber(Get(Fields(child), "userId")), ToNumber(Get(Fields(user), "id")))
  }

  /** `ensureChildAccess` for the child row found (undefined when none).
      Reading the role of a missing user would throw, and the routes
      always authenticate first. */
  function EnsureChildAccess(child: Value, user: Value): (r: Result<Value>)
    requires !Nullish(user)
    ensures Falsy(child) ==> r == Fail(ChildNotFound)
    ensures !Falsy(child) && ForeignParent(child, user) ==> r == Fail(NotYourChild)
    ensures r.Ok? <==> !Falsy(child) && !ForeignParent(child, user)
    ensures r.Ok? ==> r.value == child
  {
    if Falsy(child) then Fail(ChildNotFound)
    else if ForeignParent(child, user) then Fail(NotYourChild)
    else Ok(child)
  }

  /** A parent may reach a child they own; any other role reaches every
      existing child. */
  lemma ChildAccessRules(child: map<string, Value>, user: map<string, Value>, n: real)
    ensures Get(child, "userId") == Num(n) && Get(user, "id") == Num(n) ==> EnsureChildAccess(Obj(child), Obj(user)).Ok?
    ensures Get(user, "role") != Str("parent") ==> EnsureChildAccess(Obj(child), Obj(user)).Ok?
  {
  }

  /** The members of a session payload in the order of the insert's
      columns; the first two are bound as they are. */
  const PayloadFields: seq<string> := ["childId", "gameType", "durationMinutes", "pointsEarned", "accuracyPercent", "streak", "level", "notes"]

  /** The default each member from the third on gets when it is falsy. */
  const PayloadDefaults: seq<Value> := [Undefined, Undefined, Num(0.0), Num(0.0), Num(0.0), Num(0.0), Num(1.0), Null]

  /** The values of the insert in `createTherapySession`. */
  function SessionValues(payload: map<string, Value>): (values: seq<Value>)
    ensures |values| == |PayloadFields| == |PayloadDefaults|
    ensures values[0] == Get(payload, "childId") && values[1] == Get(payload, "gameType")
    ensures forall i :: 2 <= i < |PayloadFields| ==>
              values[i] == if Falsy(Get(payload, PayloadFields[i])) then PayloadDefaults[i] else Get(payload, PayloadFields[i])
  {
    [Get(payload, "childId"),
     Get(payload, "gameType"),
     Or(Get(payload, "durationMinutes"), Num(0.0)),
     Or(Get(payload, "pointsEarned"), Num(0.0)),
     Or(Get(payload, "accuracyPercent"), Num(0.0)),
     Or(Get(payload, "streak"), Num(0.0)),
     Or(Get(payload, "level"), Num(1.0)),
     Or(Get(payload, "notes"), Null)]
  }

  /** `GAME_TYPES.includes(gameType)` */
  predicate KnownGame(gameType: Value) {
    gameType.Str? && gameType.s in GameTypes
  }

  /** `createTherapySession`: the values inserted, or the error thrown. */
  function CreateTherapySession(user: Value, payload: map<string, Value>, child: Value): (r: Result<seq<Value>>)
    requires !Nullish(user)
    ensures !KnownGame(Get(payload, "gameType")) ==> r == Fail(InvalidGame)
    ensures KnownGame(Get(payload, "gameType")) ==>
              (r.Fail? <==> EnsureChildAccess(child, user).Fail?)
              && (r.Fail? ==> r.error == EnsureChildAccess(child, user).error)
    ensures r.Ok? ==> r.value == SessionValues(payload)
  {
    if !KnownGame(Get(payload, "gameType")) then Fail(InvalidGame)
    else
      match EnsureChildAccess(child, user)
      case Fail(e) => Fail(e)
      case Ok(_) => Ok(SessionValues(payload))
  }

  /** The game type is checked before the child: an unknown game gives 400
      even for a missing child or a foreign parent. */
  lemma GameCheckedFirst(user: Value, payload: map<string, Value>, child: Value, other: Value)
    requires !Nullish(user) && !KnownGame(Get(payload, "gameType"))
    ensures CreateTherapySession(user, payload, child) == CreateTherapySession(user, payload, other) == Fail(InvalidGame)
  {
  }
}
