/** The rules behind the parent summary report: how a score and a date are
    printed, who may ask for the report, and which screenings and therapy
    sessions it shows. The PDF layout is left out; the report is modelled
    as the data it prints. */
module ReportController {
  import opened Base
  import opened Strings
  import opened Js

  /** `formatPercent(value)`: "--" for a missing value, otherwise the value
      times 100, rounded, with a percent sign (`NaN%` when it is not a
      number). */
  function FormatPercent(v: Value): (r: string)
    ensures Nullish(v) ==> r == "--"
    ensures !Nullish(v) ==> |r| >= 2 && r[|r| - 1] == '%' && r != "--"
  {
    if Nullish(v) then "--"
    else
      var number := ToNumber(v);
      if number.None? then "NaN%"
      else Percent(number.value)
  }

  /** A number as a whole percent with its sign. */
  function Percent(n: real): (r: string)
    ensures |r| >= 2 && r[|r| - 1] == '%' && r[..|r| - 1] == IntToString(MathRound(n * 100.0))
  {
    var digits := IntToString(MathRound(n * 100.0));
    assert |digits| >= 1;
    digits + "%"
  }

  /** Before its percent sign, a printed number reads back as the whole
      percent nearest to it; a score in [0, 1] prints as 0% to 100%. */
  lemma PercentReadsBack(n: real)
    ensures var r := FormatPercent(Num(n));
            exists p: int :: r == IntToString(p) + "%" && StringToNumber(r[..|r| - 1]) == Some(p as real)
                             && n * 100.0 - 0.5 < p as real <= n * 100.0 + 0.5
                             && (0.0 <= n <= 1.0 ==> 0 <= p <= 100)
  {
    var p := MathRound(n * 100.0);
    var r := FormatPercent(Num(n));
    assert r == Percent(n);
    assert r == IntToString(p) + "%";
    StringToNumberOfInt(p);
  }

  /** `formatDate(dateString)`: "N/A" for an empty value, otherwise the
      locale text of the date, which is a parameter. */
  function FormatDate(v: Value, localeText: Value -> string): (r: string)
    ensures Falsy(v) ==> r == "N/A"
    ensures !Falsy(v) ==> r == localeText(v)
  {
    if Falsy(v) then "N/A" else localeText(v)
  }

  /** A session's duration is a number or missing, as the integer column
      it comes from gives it. */
  predicate MinutesKnown(session: Value) {
    var d := Get(Fields(session), "durationMinutes");
    d.Num? || Falsy(d)
  }

  /** `session.durationMinutes || 0` */
  function Minutes(session: Value): (m: real)
    requires MinutesKnown(session)
    ensures Falsy(Get(Fields(session), "durationMinutes")) ==> m == 0.0
    ensures Get(Fields(session), "durationMinutes").Num? ==> m == Get(Fields(session), "durationMinutes").n
  {
    var d := Or(Get(Fields(session), "durationMinutes"), Num(0.0));
    d.n
  }

  /** `sessions.reduce((sum, s) => sum + (s.durationMinutes || 0), 0)` */
  function TotalMinutes(sessions: seq<Value>): real
    requires forall i :: 0 <= i < |sessions| ==> MinutesKnown(sessions[i])
  {
    if sessions == [] then 0.0
    else TotalMinutes(sessions[..|sessions| - 1]) + Minutes(sessions[|sessions| - 1])
  }

  /** The total over two runs of sessions is the sum of their totals. */
  lemma {:induction false} TotalMinutesAppend(a: seq<Value>, b: seq<Value>)
    requires forall i :: 0 <= i < |a| ==> MinutesKnown(a[i])
    requires forall i :: 0 <= i < |b| ==> MinutesKnown(b[i])
    ensures forall i :: 0 <= i < |a + b| ==> MinutesKnown((a + b)[i])
    ensures TotalMinutes(a + b) == TotalMinutes(a) + TotalMinutes(b)
    decreases |b|
  {
    assert forall i :: 0 <= i < |a + b| ==> (a + b)[i] == (if i < |a| then a[i] else b[i - |a|]);
    if b != [] {
      var c := b[..|b| - 1];
      TotalMinutesAppend(a, c);
      assert (a + b)[..|a + b| - 1] == a + c;
      assert c + [b[|b| - 1]] == b;
    } else {
      assert a + b == a;
    }
  }

  /** Sessions without a duration add nothing; with durations that are
      not negative the total is not negative. */
  lemma {:induction false} TotalMinutesBounds(sessions: seq<Value>)
    requires forall i :: 0 <= i < |sessions| ==> MinutesKnown(sessions[i])
    ensures (forall i :: 0 <= i < |sessions| ==> Minutes(sessions[i]) >= 0.0) ==> TotalMinutes(sessions) >= 0.0
    ensures (forall i :: 0 <= i < |sessions| ==> Falsy(Get(Fields(sessions[i]), "durationMinutes"))) ==> TotalMinutes(sessions) == 0.0
  {
    if sessions != [] {
      var front := sessions[..|sessions| - 1];
      assert forall i :: 0 <= i < |front| ==> front[i] == sessions[i];
      TotalMinutesBounds(front);
    }
  }

  /** What the report prints about the screenings and therapy sessions. */
  datatype Summary = Summary(latest: Option<Value>, recentScreenings: seq<Value>,
                             sessionCount: nat, totalMinutes: Option<real>, recentSessions: seq<Value>)

  const ParentsOnly: HttpError := HttpError(403, "Only parents can generate this report")

  /** `generateParentSummary`, for the signed-in user (the route
      authenticates first) and the rows listed for them, newest first. */
  function ParentSummary(user: Value, screenings: seq<Value>, sessions: seq<Value>): (r: Result<Summary>)
    requires !Nullish(user)
    requires forall i :: 0 <= i < |sessions| ==> MinutesKnown(sessions[i])
    ensures r.Fail? <==> Get(Fields(user), "role") != Str("parent")
    ensures r.Fail? ==> r.error == ParentsOnly
    ensures r.Ok? ==>
              var s := r.value;
              (s.latest.Some? <==> |screenings| > 0) && (s.latest.Some? ==> s.latest.value == screenings[0])
              && |s.recentScreenings| == MinInt(5, |screenings|) && s.recentScreenings <= screenings
              && |s.recentSessions| == MinInt(5, |sessions|) && s.recentSessions <= sessions
              && s.sessionCount == |sessions|
              && (s.totalMinutes.Some? <==> |sessions| > 0)
              && (s.totalMinutes.Some? ==> s.totalMinutes.value == TotalMinutes(sessions))
  {
    if Get(Fields(user), "role") != Str("parent") then Fail(ParentsOnly)
    else
      Ok(Summary(if |screenings| == 0 then None else Some(screenings[0]),
                 screenings[..MinInt(5, |screenings|)],
                 |sessions|,
                 if |sessions| == 0 then None else Some(TotalMinutes(sessions)),
                 sessions[..MinInt(5, |sessions|)]))
  }
}
