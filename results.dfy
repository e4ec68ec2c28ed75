/** The result step of a screening: once the session holds consent and all
    three scores, the scores are read back as numbers, weighted into a risk
    score in [0, 1], classified as low, moderate or high risk, written back
    to the session and saved to the backend once. */
module Results {
  import opened Base
  import opened Js
  import opened ScreeningSession

  // ---------------------------------------------------------------------
  // the risk score

  /** `Number(v ?? 0)`; `None` stands for NaN. */
  function SessionNumber(v: Value): (r: Option<real>)
    ensures Nullish(v) ==> r == Some(0.0)
    ensures v.Num? ==> r == Some(v.n)
    ensures v.Obj? ==> r.None?
  {
    ToNumber(Coalesce(v, Num(0.0)))
  }

  /** `0.4·alignment + 0.3·tracking + 0.3·contrast` */
  function RawRisk(alignment: real, tracking: real, contrast: real): real {
    alignment * 0.4 + tracking * 0.3 + contrast * 0.3
  }

  /** The weights add up to one: three equal scores give that score back,
      and scores in [0, 1] give a raw risk in [0, 1]. */
  lemma RawRiskWeights(a: real, t: real, c: real)
    ensures RawRisk(a, a, a) == a
    ensures 0.0 <= a <= 1.0 && 0.0 <= t <= 1.0 && 0.0 <= c <= 1.0 ==> 0.0 <= RawRisk(a, t, c) <= 1.0
    ensures RawRisk(a, t, c) <= RawRisk(a + 1.0, t, c) && RawRisk(a, t, c) <= RawRisk(a, t + 1.0, c)
            && RawRisk(a, t, c) <= RawRisk(a, t, c + 1.0)
  {
  }

  /** `Math.min(1, Math.max(0, Number(raw.toFixed(2))))` */
  function NormalizedRisk(raw: real): (r: real)
    ensures 0.0 <= r <= 1.0
    ensures 0.0 <= raw <= 1.0 ==> Abs(r - raw) <= 0.005
    ensures raw <= 0.0 ==> r == 0.0
    ensures raw >= 1.0 ==> r == 1.0
  {
    Round2Near(raw);
    Round2OfCents(0);
    Round2OfCents(100);
    Round2Monotone(Min(raw, 0.0), 0.0);
    Round2Monotone(1.0, Max(raw, 1.0));
    Min(1.0, Max(0.0, Round2(raw)))
  }

  datatype Classification = Low | Moderate | High {
    /** The string stored and sent: "low", "moderate" or "high". */
    function Name(): string {
      match this
      case Low => "low"
      case Moderate => "moderate"
      case High => "high"
    }

    function Rank(): nat {
      match this
      case Low => 0
      case Moderate => 1
      case High => 2
    }
  }

  /** `classifyRisk`: low up to and including 0.3, moderate up to and
      including 0.6, high above. */
  function ClassifyRisk(score: real): (c: Classification)
    ensures c == Low <==> score <= 0.3
    ensures c == Moderate <==> 0.3 < score <= 0.6
    ensures c == High <==> score > 0.6
  {
    if score <= 0.3 then Low else if score <= 0.6 then Moderate else High
  }

  /** A higher risk score never lands in a lower band. */
  lemma ClassifyMonotone(a: real, b: real)
    requires a <= b
    ensures ClassifyRisk(a).Rank() <= ClassifyRisk(b).Rank()
  {
  }

  /** The three scores as numbers, the risk derived from them and its class.
      A score that is not a number makes the risk NaN too, and NaN fails
      every comparison in `classifyRisk`, so it is classified high. */
  datatype Scores = Scores(alignment: Option<real>, tracking: Option<real>, contrast: Option<real>,
                           risk: Option<real>, classification: Classification)

  function ScoresOf(session: map<string, Value>): (r: Scores)
    ensures r.alignment == SessionNumber(Get(session, "alignmentDeviationScore"))
    ensures r.tracking == SessionNumber(Get(session, "trackingStabilityScore"))
    ensures r.contrast == SessionNumber(Get(session, "contrastSensitivityScore"))
    ensures r.risk.Some? <==> r.alignment.Some? && r.tracking.Some? && r.contrast.Some?
    ensures r.risk.Some? ==> 0.0 <= r.risk.value <= 1.0 && r.classification == ClassifyRisk(r.risk.value)
    ensures r.risk.None? ==> r.classification == High
  {
    var a := SessionNumber(Get(session, "alignmentDeviationScore"));
    var t := SessionNumber(Get(session, "trackingStabilityScore"));
    var c := SessionNumber(Get(session, "contrastSensitivityScore"));
    if a.Some? && t.Some? && c.Some? then
      var risk := NormalizedRisk(RawRisk(a.value, t.value, c.value));
      Scores(a, t, c, Some(risk), ClassifyRisk(risk))
    else
      Scores(a, t, c, None, High)
  }

  /** The members the page merges into the session. */
  function ScoresPatch(s: Scores): (m: map<string, Value>)
    ensures PlainMembers(m)
  {
    map["alignmentDeviationScore" := JsonNumber(s.alignment),
        "trackingStabilityScore" := JsonNumber(s.tracking),
        "contrastSensitivityScore" := JsonNumber(s.contrast),
        "riskScore" := JsonNumber(s.risk),
        "classification" := Str(s.classification.Name())]
  }

  // ---------------------------------------------------------------------
  // saving

  /** The body posted to the backend; `notes` is always null and is left out. */
  datatype SavePayload = SavePayload(userId: real, childId: real,
                                     alignmentScore: Option<real>, trackingScore: Option<real>, contrastScore: Option<real>,
                                     finalRiskScore: Option<real>, classification: Classification, consentGiven: bool)

  function PayloadOf(userId: real, childId: real, session: map<string, Value>, s: Scores): (p: SavePayload)
    ensures p.alignmentScore == s.alignment && p.trackingScore == s.tracking && p.contrastScore == s.contrast
    ensures p.finalRiskScore == s.risk && p.classification == s.classification
    ensures p.consentGiven <==> !Falsy(Get(session, "consentGiven"))
    ensures p.userId == userId && p.childId == childId
  {
    SavePayload(userId, childId, s.alignment, s.tracking, s.contrast, s.risk, s.classification,
                !Falsy(Get(session, "consentGiven")))
  }

  /** `response?.data?.id` */
  function SavedId(response: Value): Value {
    Get(Fields(Get(Fields(response), "data")), "id")
  }

  class ResultsPage {
    const store: SessionStore
    /** `NEXT_PUBLIC_DEMO_PARENT_ID` and `NEXT_PUBLIC_DEMO_CHILD_ID` as numbers. */
    const userId: real
    const childId: real
    /** The in-memory copy of the session. The score members it also gets
        are kept in `scores`. */
    var session: Option<map<string, Value>>
    var scores: Option<Scores>
    var saving: bool
    var saveError: string
    var initialised: bool

    constructor (store: SessionStore, userId: real, childId: real)
      ensures this.store == store && this.userId == userId && this.childId == childId
      ensures session == None && scores == None && !saving && saveError == "" && !initialised
    {
      this.store := store;
      this.userId := userId;
      this.childId := childId;
      session := None;
      scores := None;
      saving := false;
      saveError := "";
      initialised := false;
    }

    /** The mount effect: redirect to the first missing step, or score the
        session and merge the scores into it. */
    method Mount() returns (redirect: Option<string>)
      requires store.Valid()
      modifies this, store
      ensures store.Valid()
      ensures redirect == Redirect(old(store.Read()), 3)
      ensures redirect.Some? ==> store.entry == old(store.entry) && session == old(session) && scores == old(scores)
                                 && initialised == old(initialised)
      ensures redirect.None? ==> session == Some(Fields(old(store.Read()))) && initialised
                                 && scores == Some(ScoresOf(Fields(old(store.Read()))))
      ensures redirect.None? && store.hasWindow ==>
                Fields(store.Read()) == Fields(old(store.Read())) + ScoresPatch(scores.value)
      ensures saving == old(saving) && saveError == old(saveError)
    {
      var sessionData := store.Read();
      redirect := Redirect(sessionData, 3);
      if redirect.Some? {
        return;
      }
      Initialise(Fields(sessionData), ScoresOf(Fields(sessionData)));
    }

    /** The page takes the session and its scores, and merges the scores
        into the stored session. */
    method Initialise(fields: map<string, Value>, s: Scores)
      requires store.Valid()
      modifies this, store
      ensures store.Valid()
      ensures session == Some(fields) && initialised && scores == Some(s)
      ensures store.hasWindow ==> Fields(store.Read()) == Fields(old(store.Read())) + ScoresPatch(s)
      ensures saving == old(saving) && saveError == old(saveError)
    {
      store.MergeDefined(ScoresPatch(s));
      session, scores, initialised := Some(fields), Some(s), true;
    }

    /** The save effect runs only with a session and scores, and never once
        the session has a saved screening id. */
    predicate ShouldSave()
      reads this
    {
      session.Some? && scores.Some? && Falsy(Get(session.value, "savedScreeningId"))
    }

    /** The start of `persistScreening`: the payload to post, or nothing
        when no save is due. */
    method BeginSave() returns (payload: Option<SavePayload>)
      modifies this
      ensures session == old(session) && scores == old(scores) && initialised == old(initialised)
      ensures payload.Some? <==> old(ShouldSave())
      ensures payload.None? ==> saving == old(saving) && saveError == old(saveError)
      ensures payload.Some? ==> saving && saveError == ""
                                && payload.value == PayloadOf(userId, childId, session.value, scores.value)
    {
      if !ShouldSave() {
        return None;
      }
      saving := true;
      saveError := "";
      payload := Some(PayloadOf(userId, childId, session.value, scores.value));
    }

    /** A successful post: the id from the response is merged into the
        stored session and the in-memory copy. A response without a
        (truthy) id leaves a save due again. */
    method SaveSucceeded(response: Value)
      requires store.Valid() && session.Some?
      modifies this, store
      ensures store.Valid()
      ensures session == Some(old(session).value["savedScreeningId" := SavedId(response)])
      ensures !saving && scores == old(scores) && saveError == old(saveError)
      ensures scores.Some? ==> (ShouldSave() <==> Falsy(SavedId(response)))
      ensures store.hasWindow ==>
                (if SavedId(response).Undefined? then "savedScreeningId" !in Fields(store.Read())
                 else Get(Fields(store.Read()), "savedScreeningId") == JsonNormal(SavedId(response)))
      ensures store.hasWindow ==> forall k :: k != "savedScreeningId" ==>
                Get(Fields(store.Read()), k) == Get(Fields(old(store.Read())), k)
    {
      var savedId := SavedId(response);
      var _ := store.Merge(map["savedScreeningId" := savedId]);
      session := Some(session.value["savedScreeningId" := savedId]);
      saving := false;
    }

    /** A failed post: `error.message || "Unable to save screening."` */
    method SaveFailed(message: string)
      modifies this
      ensures saveError == if message == "" then "Unable to save screening." else message
      ensures !saving && session == old(session) && scores == old(scores)
    {
      saveError := if message == "" then "Unable to save screening." else message;
      saving := false;
    }

    /** `handleRetrySave`: forgets the saved id so that the save runs again. */
    method RetrySave()
      modifies this
      ensures session == if old(session).None? then None else Some(old(session).value["savedScreeningId" := Undefined])
      ensures scores == old(scores) && saving == old(saving) && saveError == old(saveError)
      ensures session.Some? && scores.Some? ==> ShouldSave()
    {
      if session.None? {
        return;
      }
      session := Some(session.value["savedScreeningId" := Undefined]);
    }
  }
}
