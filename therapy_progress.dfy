/** The therapy progress record: one JSON object kept in the browser's local
    storage under "visionai-therapy-progress", holding per game a best result
    and a session count, plus the time of the last update. Reads lay the
    stored object over the defaults; updates stamp `lastUpdated`. */
module TherapyProgress {
  import opened Base
  import opened Js

  const StorageKey := "visionai-therapy-progress"

  /** The three games, by the key of their record. */
  const Games: seq<string> := ["movingDot", "contrastChallenge", "objectMatch"]

  /** The default record of each game. */
  function MovingDotDefault(): Value {
    Obj(map["highScore" := Num(0.0), "totalSessions" := Num(0.0)])
  }

  function ContrastChallengeDefault(): Value {
    Obj(map["bestStreak" := Num(0.0), "totalSessions" := Num(0.0)])
  }

  function ObjectMatchDefault(): Value {
    Obj(map["bestTime" := Null, "totalSessions" := Num(0.0)])
  }

  /** `defaultProgress()` */
  function DefaultProgress(): map<string, Value> {
    map["movingDot" := MovingDotDefault(), "contrastChallenge" := ContrastChallengeDefault(),
        "objectMatch" := ObjectMatchDefault(), "lastUpdated" := Null]
  }

  /** The defaults: a record per game with no sessions, a best score and a
      best streak of 0, no best time, and no last update; all of it plain
      JSON. */
  lemma DefaultsAreEmpty()
    ensures forall g :: g in Games ==> g in DefaultProgress()
    ensures forall g :: g in Games ==> Get(Fields(DefaultProgress()[g]), "totalSessions") == Num(0.0)
    ensures Get(Fields(DefaultProgress()["movingDot"]), "highScore") == Num(0.0)
    ensures Get(Fields(DefaultProgress()["contrastChallenge"]), "bestStreak") == Num(0.0)
    ensures Get(Fields(DefaultProgress()["objectMatch"]), "bestTime") == Null
    ensures DefaultProgress()["lastUpdated"] == Null
  {
  }

  /** The defaults are plain JSON. */
  lemma DefaultsArePlain()
    ensures PlainMembers(DefaultProgress())
  {
    assert PlainMembers(Fields(MovingDotDefault()));
    PlainObject(Fields(MovingDotDefault()));
    assert PlainMembers(Fields(ContrastChallengeDefault()));
    PlainObject(Fields(ContrastChallengeDefault()));
    assert PlainMembers(Fields(ObjectMatchDefault()));
    PlainObject(Fields(ObjectMatchDefault()));
  }

  /** The object the stored text contributes to a read: nothing when there
      is no window, nothing or the empty string stored, or text that does
      not parse, else the members of the parsed value. */
  function StoredMembers(hasWindow: bool, entry: Option<StoredText>): map<string, Value> {
    if hasWindow && entry.Some? && entry.value.Parsed? then Fields(entry.value.value) else map[]
  }

  /** `{ ...defaults, ...JSON.parse(raw) }` */
  function Overlay(defaults: map<string, Value>, hasWindow: bool, entry: Option<StoredText>): map<string, Value> {
    defaults + StoredMembers(hasWindow, entry)
  }

  /** `readProgress()` */
  function ReadProgress(hasWindow: bool, entry: Option<StoredText>): map<string, Value> {
    Overlay(DefaultProgress(), hasWindow, entry)
  }

  /** A read gives the defaults when nothing usable is stored; otherwise
      every stored member, and the defaults for the members not stored. */
  lemma ReadShape(hasWindow: bool, entry: Option<StoredText>)
    ensures var r := ReadProgress(hasWindow, entry);
            (!hasWindow || entry.None? || entry == Some(Empty) || entry == Some(Unparsable) ==> r == DefaultProgress())
            && (forall k :: k in r <==> k in DefaultProgress() || k in StoredMembers(hasWindow, entry))
            && (forall k :: k in StoredMembers(hasWindow, entry) ==> r[k] == StoredMembers(hasWindow, entry)[k])
            && (forall k :: k in DefaultProgress() && k !in StoredMembers(hasWindow, entry) ==> r[k] == DefaultProgress()[k])
  {
  }

  /** The merge is shallow: a stored game record replaces the default record
      of that game as a whole, even when it lacks some of its members. */
  lemma ShallowMerge(game: string, record: map<string, Value>)
    requires game in Games
    ensures var r := ReadProgress(true, Some(Parsed(Obj(map[game := Obj(record)]))));
            r[game] == Obj(record)
            && (forall g :: g in Games && g != game ==> r[g] == DefaultProgress()[g])
            && r["lastUpdated"] == Null
  {
  }

  /** Plain defaults over valid storage read as plain JSON members. */
  lemma OverlayIsPlain(defaults: map<string, Value>, hasWindow: bool, entry: Option<StoredText>)
    requires PlainMembers(defaults) && IsJson(entry)
    ensures PlainMembers(Overlay(defaults, hasWindow, entry))
  {
    if hasWindow && entry.Some? && entry.value.Parsed? {
      ParsedMembersPlain(entry.value.value);
    }
  }

  /** The record `updateTherapyProgress(patch)` builds from the current
      progress: `{ ...current, ...patch, lastUpdated: now }`. */
  function Updated(current: map<string, Value>, patch: map<string, Value>, now: string): map<string, Value> {
    current + patch + map["lastUpdated" := Str(now)]
  }

  /** An update stamps `lastUpdated`, takes the patch's members whole and
      keeps every other member. */
  lemma UpdateShape(current: map<string, Value>, patch: map<string, Value>, now: string)
    ensures var next := Updated(current, patch, now);
            next.Keys == current.Keys + patch.Keys + {"lastUpdated"}
            && next["lastUpdated"] == Str(now)
            && (forall k :: k in patch && k != "lastUpdated" ==> next[k] == patch[k])
            && (forall k :: k !in patch && k != "lastUpdated" ==> Get(next, k) == Get(current, k))
  {
  }

  /** Reading after an update gives back the record the update returned,
      when the defaults and the patch are plain JSON. */
  lemma {:induction false} ReadAfterUpdate(defaults: map<string, Value>, entry: Option<StoredText>,
                                           patch: map<string, Value>, now: string)
    requires PlainMembers(defaults) && IsJson(entry) && PlainMembers(patch)
    ensures var next := Updated(Overlay(defaults, true, entry), patch, now);
            Overlay(defaults, true, Some(Parsed(JsonNormal(Obj(next))))) == next
  {
    var current := Overlay(defaults, true, entry);
    var next := Updated(current, patch, now);
    assert JsonNormal(Obj(next)) == Obj(next) by {
      OverlayIsPlain(defaults, true, entry);
      PlainOverlay(current, patch);
      PlainOverlay(current + patch, map["lastUpdated" := Str(now)]);
    }
    assert defaults.Keys <= next.Keys;
    OverlaySuperset(defaults, next);
  }

  /** Overlaying a map that has every key of the base gives that map. */
  lemma OverlaySuperset(base: map<string, Value>, m: map<string, Value>)
    requires base.Keys <= m.Keys
    ensures base + m == m
  {
  }

  /** Loading after an update gives back the record the update returned,
      when the patch is plain JSON. */
  lemma LoadAfterUpdate(entry: Option<StoredText>, patch: map<string, Value>, now: string)
    requires IsJson(entry) && PlainMembers(patch)
    ensures var next := Updated(ReadProgress(true, entry), patch, now);
            ReadProgress(true, Some(Parsed(JsonNormal(Obj(next))))) == next
  {
    DefaultsArePlain();
    ReadAfterUpdate(DefaultProgress(), entry, patch, now);
  }

  // ---------------------------------------------------------------------
  // the records the games write

  /** `(record.totalSessions ?? 0) + 1` */
  function NextSessionCount(record: Value): (v: Value)
    ensures !v.Undefined? && JsonNormal(v) == v
  {
    AddOne(Coalesce(Get(Fields(record), "totalSessions"), Num(0.0)))
  }

  /** A numeric session count goes up by one, and a missing one starts at one. */
  lemma SessionCounted(record: Value)
    ensures var sessions := Get(Fields(record), "totalSessions");
            (sessions.Num? ==> NextSessionCount(record) == Num(sessions.n + 1.0))
            && (Nullish(sessions) ==> NextSessionCount(record) == Num(1.0))
  {
  }

  /** `Math.max(previous ?? 0, score)`; `None` stands for NaN. */
  function KeptMax(previous: Value, score: real): (r: Option<real>)
    ensures Nullish(previous) ==> r == Some(Max(0.0, score))
    ensures previous.Num? ==> r == Some(Max(previous.n, score))
  {
    match ToNumber(Coalesce(previous, Num(0.0)))
    case None => None
    case Some(p) => Some(Max(p, score))
  }

  /** A kept maximum is at least the new score and the previous number, and
      is one of the two. */
  lemma KeptMaxBounds(previous: real, score: real)
    ensures KeptMax(Num(previous), score).value >= score
    ensures KeptMax(Num(previous), score).value >= previous
    ensures KeptMax(Num(previous), score).value == score || KeptMax(Num(previous), score).value == previous
  {
  }

  /** The record a game writes at the end of a session: its best result
      under `bestKey` (`null` for NaN) and one more session. */
  function GameRecord(bestKey: string, best: Option<real>, record: Value): (r: Value)
    ensures !r.Undefined? && JsonNormal(r) == r
  {
    var m := map[bestKey := JsonNumber(best), "totalSessions" := NextSessionCount(record)];
    assert PlainMembers(m);
    PlainObject(m);
    Obj(m)
  }

  /** The game record holds the best result and the next session count. */
  lemma GameRecordMembers(bestKey: string, best: Option<real>, record: Value)
    requires bestKey != "totalSessions"
    ensures var r := Fields(GameRecord(bestKey, best, record));
            r.Keys == {bestKey, "totalSessions"}
            && r[bestKey] == JsonNumber(best) && r["totalSessions"] == NextSessionCount(record)
  {
  }

  /** The record a finished session of a game writes over its previous
      record: the best result under `bestKey` raised to the session's
      score, and one more session. The moving dot game keeps its
      `highScore` this way, the contrast challenge its `bestStreak`. */
  function BestRecord(bestKey: string, previous: Value, score: nat): (r: Value)
    ensures !r.Undefined? && JsonNormal(r) == r
  {
    GameRecord(bestKey, KeptMax(Get(Fields(previous), bestKey), score as real), previous)
  }

  /** A numeric best is raised to the score when the score is higher and
      kept otherwise, a missing one becomes the score, and one more session
      is counted. */
  lemma BestRecordRaised(bestKey: string, previous: Value, score: nat)
    requires bestKey != "totalSessions"
    ensures var before := Get(Fields(previous), bestKey);
            var after := Fields(BestRecord(bestKey, previous, score));
            (before.Num? ==> after[bestKey] == Num(Max(before.n, score as real)))
            && (Nullish(before) ==> after[bestKey] == Num(score as real))
            && after["totalSessions"] == NextSessionCount(previous)
  {
    GameRecordMembers(bestKey, KeptMax(Get(Fields(previous), bestKey), score as real), previous);
  }

  /** The local storage of one browsing context. `hasWindow` is false when
      the code runs on the server. `defaults` is `defaultProgress()`. */
  class ProgressStore {
    const hasWindow: bool
    const defaults: map<string, Value>
    var entry: Option<StoredText>

    ghost predicate Valid()
      reads this
    {
      IsJson(entry) && PlainMembers(defaults)
    }

    constructor (hasWindow: bool, entry: Option<StoredText>)
      requires IsJson(entry)
      ensures Valid() && this.hasWindow == hasWindow && this.entry == entry
      ensures defaults == DefaultProgress()
    {
      this.hasWindow := hasWindow;
      this.entry := entry;
      DefaultsArePlain();
      this.defaults := DefaultProgress();
    }

    /** `loadTherapyProgress()` */
    function Load(): map<string, Value>
      reads this
    {
      Overlay(defaults, hasWindow, entry)
    }

    /** `updateTherapyProgress(patch)`, with `now` the ISO text of the
        current time. Without a window it returns undefined and stores
        nothing; otherwise it stores and returns the updated record. */
    method Update(patch: map<string, Value>, now: string) returns (r: Option<map<string, Value>>)
      requires Valid()
      modifies this
      ensures Valid()
      ensures !hasWindow ==> r.None? && entry == old(entry)
      ensures hasWindow ==> r == Some(Updated(old(Load()), patch, now))
                            && entry == Some(Parsed(JsonNormal(Obj(r.value))))
      ensures hasWindow && PlainMembers(patch) ==> Load() == r.value
    {
      if !hasWindow {
        return None;
      }
      var next := Updated(Load(), patch, now);
      if PlainMembers(patch) {
        ReadAfterUpdate(defaults, entry, patch, now);
      }
      JsonNormalIdempotent(Obj(next));
      entry := Some(Parsed(JsonNormal(Obj(next))));
      r := Some(next);
    }

    /** `updateTherapyProgress({ [game]: record })` from a client, for a
        record that is plain JSON: the stored progress is the updated one. */
    method UpdateGame(game: string, record: Value, now: string)
      requires Valid() && hasWindow && !record.Undefined? && JsonNormal(record) == record
      modifies this
      ensures Valid()
      ensures Load() == Updated(old(Load()), map[game := record], now)
    {
      var patch := map[game := record];
      assert PlainMembers(patch);
      var _ := Update(patch, now);
    }
  }
}
