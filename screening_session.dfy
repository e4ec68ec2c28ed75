/** The screening session: one JSON object kept in the browser's session
    storage under the key "visionai-screening", shared by the steps of a
    screening (consent, alignment, tracking, contrast, result). */
module ScreeningSession {
  import opened Base
  import opened Js

  const StorageKey := "visionai-screening"

  /** The phase of a timed test step. */
  datatype TestState = Idle | Running | Complete

  /** The scores the steps record, in the order the steps run, and the page
      of each step. */
  const ScoreKeys: seq<string> := ["alignmentDeviationScore", "trackingStabilityScore", "contrastSensitivityScore"]
  const StepPaths: seq<string> := ["/screening/alignment", "/screening/tracking", "/screening/contrast"]

  /** The first of the scores `from .. needed - 1` the session does not hold
      (a member that reads as `undefined`), if any. */
  function FirstMissing(fields: map<string, Value>, from: nat, needed: nat): (r: Option<nat>)
    requires needed <= |ScoreKeys|
    ensures r.Some? ==> from <= r.value < needed && Get(fields, ScoreKeys[r.value]).Undefined?
    ensures r.Some? ==> forall j :: from <= j < r.value ==> !Get(fields, ScoreKeys[j]).Undefined?
    ensures r.None? <==> forall j :: from <= j < needed ==> !Get(fields, ScoreKeys[j]).Undefined?
    decreases needed - from
  {
    if from >= needed then None
    else if Get(fields, ScoreKeys[from]).Undefined? then Some(from)
    else FirstMissing(fields, from + 1, needed)
  }

  /** Where a step's page sends the visitor on mounting when the session
      lacks what the step builds on: the consent page without consent, else
      the page of the first of the `needed` earlier scores that is missing.
      The alignment page needs none of the scores, the tracking page one,
      the contrast page two and the results page all three. */
  function Redirect(session: Value, needed: nat): (r: Option<string>)
    requires needed <= |ScoreKeys|
    ensures Falsy(Get(Fields(session), "consentGiven")) ==> r == Some("/screening/instructions")
    ensures r.None? <==> !Falsy(Get(Fields(session), "consentGiven"))
                         && forall j :: 0 <= j < needed ==> !Get(Fields(session), ScoreKeys[j]).Undefined?
    ensures r.Some? && !Falsy(Get(Fields(session), "consentGiven")) ==>
              exists k :: 0 <= k < needed && r.value == StepPaths[k] && Get(Fields(session), ScoreKeys[k]).Undefined?
                          && forall j :: 0 <= j < k ==> !Get(Fields(session), ScoreKeys[j]).Undefined?
  {
    var f := Fields(session);
    if Falsy(Get(f, "consentGiven")) then Some("/screening/instructions")
    else match FirstMissing(f, 0, needed)
      case None => None
      case Some(k) => Some(StepPaths[k])
  }

  /** A session that lets a later step's page stay mounted lets every earlier
      step's page stay mounted too. */
  lemma RedirectAntitone(session: Value, m: nat, n: nat)
    requires m <= n <= |ScoreKeys|
    ensures Redirect(session, n).None? ==> Redirect(session, m).None?
  {
  }

  /** What `readScreeningSession` returns for a window with storage `entry`:
      `{}` when nothing or the empty string is stored or the text does not
      parse, and
      `JSON.parse(raw) || {}` otherwise. */
  function ReadEntry(entry: Option<StoredText>): (r: Value)
    ensures !Falsy(r)
    ensures entry.None? || entry == Some(Empty) || entry == Some(Unparsable) ==> r == Obj(map[])
    ensures entry.Some? && entry.value.Parsed? && !Falsy(entry.value.value) ==> r == entry.value.value
  {
    match entry
    case None => Obj(map[])
    case Some(Empty) => Obj(map[])
    case Some(Unparsable) => Obj(map[])
    case Some(Parsed(v)) => if Falsy(v) then Obj(map[]) else v
  }

  /** The session storage of one browsing context. `hasWindow` is false when
      the code runs on the server, where every operation is a no-op. */
  class SessionStore {
    const hasWindow: bool
    var entry: Option<StoredText>

    ghost predicate Valid()
      reads this
    {
      IsJson(entry)
    }

    constructor (hasWindow: bool, entry: Option<StoredText>)
      requires IsJson(entry)
      ensures Valid() && this.hasWindow == hasWindow && this.entry == entry
    {
      this.hasWindow := hasWindow;
      this.entry := entry;
    }

    /** `readScreeningSession()` */
    function Read(): Value
      reads this
    {
      if hasWindow then ReadEntry(entry) else Obj(map[])
    }

    /** `writeScreeningSession(data)`: stores the JSON text of `data` and
        returns `data` itself; the stored copy has lost its undefined members. */
    method Write(data: map<string, Value>) returns (r: map<string, Value>)
      requires Valid()
      modifies this
      ensures Valid()
      ensures r == data
      ensures entry == if hasWindow then Some(Parsed(JsonNormal(Obj(data)))) else old(entry)
      ensures hasWindow ==> Read() == JsonNormal(Obj(data))
    {
      if hasWindow {
        JsonNormalIdempotent(Obj(data));
        entry := Some(Parsed(JsonNormal(Obj(data))));
      }
      r := data;
    }

    /** `mergeScreeningSession(patch)`: `{ ...current, ...patch }` written back. */
    method Merge(patch: map<string, Value>) returns (r: map<string, Value>)
      requires Valid()
      modifies this
      ensures Valid()
      ensures r == Fields(old(Read())) + patch
      ensures entry == if hasWindow then Some(Parsed(JsonNormal(Obj(r)))) else old(entry)
      ensures hasWindow ==> forall k :: k in patch ==>
                (if patch[k].Undefined? then k !in Fields(Read()) else Fields(Read())[k] == JsonNormal(patch[k]))
      ensures hasWindow ==> forall k :: k !in patch ==> Get(Fields(Read()), k) == Get(Fields(old(Read())), k)
    {
      var current := Read();
      var next := Fields(current) + patch;
      r := Write(next);
      if hasWindow {
        forall k | k !in patch
          ensures Get(Fields(Read()), k) == Get(Fields(old(Read())), k)
        {
          StoredMembersNormal(old(entry), k);
        }
      }
    }

    /** `mergeScreeningSession(patch)` for a patch of plain JSON members:
        the stored session is then exactly the old one overlaid with the patch. */
    method MergeDefined(patch: map<string, Value>)
      requires Valid() && PlainMembers(patch)
      modifies this
      ensures Valid()
      ensures !hasWindow ==> entry == old(entry)
      ensures hasWindow ==> Fields(Read()) == Fields(old(Read())) + patch
    {
      ghost var before := Fields(Read());
      forall k | k in before
        ensures !before[k].Undefined? && JsonNormal(before[k]) == before[k]
      {
        StoredMembersNormal(entry, k);
      }
      var _ := Merge(patch);
      if hasWindow {
        PlainOverlay(before, patch);
      }
    }

    /** `mergeScreeningSession({ [key]: value })` for a numeric score: the
        session now holds the score under `key` and nothing else changes. */
    method MergeScore(key: string, value: real)
      requires Valid()
      modifies this
      ensures Valid()
      ensures !hasWindow ==> entry == old(entry)
      ensures hasWindow ==> Get(Fields(Read()), key) == Num(value)
      ensures hasWindow ==> forall k :: k != key ==> Get(Fields(Read()), k) == Get(Fields(old(Read())), k)
    {
      var _ := Merge(map[key := Num(value)]);
    }

    /** `clearScreeningSession()` */
    method Clear()
      modifies this
      ensures entry == if hasWindow then None else old(entry)
      ensures Read() == Obj(map[])
      ensures old(Valid()) ==> Valid()
    {
      if hasWindow {
        entry := None;
      }
    }
  }

  /** A member read back from parsed JSON is already in JSON form and is
      never undefined. */
  lemma StoredMembersNormal(entry: Option<StoredText>, k: string)
    requires IsJson(entry)
    ensures var f := Fields(ReadEntry(entry));
            k in f ==> !f[k].Undefined? && JsonNormal(f[k]) == f[k]
  {
    var v := ReadEntry(entry);
    if v.Obj? && k in v.fields && entry.Some? && entry.value.Parsed? {
      assert JsonNormal(v) == v;
      JsonNormalIdempotent(v.fields[k]);
    }
  }

  /** Writing then reading gives back the written data without its
      undefined members. */
  lemma WriteThenRead(data: map<string, Value>, k: string)
    ensures var f := Fields(ReadEntry(Some(Parsed(JsonNormal(Obj(data))))));
            (k in f <==> k in data && !data[k].Undefined?)
            && (k in f ==> f[k] == JsonNormal(data[k]))
  {
  }
}
