/** The JavaScript value semantics the screening code leans on: truthiness
    for `||`, `??`, `Number(...)`, `toFixed(2)`, `Math.round`, and what a
    round trip through `JSON.stringify`/`JSON.parse` keeps of an object. */
module Js {
  import opened Base
  import opened Strings

  /** A JavaScript value. Numbers are reals: NaN and the infinities are not
      represented. Arrays do not occur in the modelled data. */
  datatype Value =
    | Undefined
    | Null
    | Bool(b: bool)
    | Num(n: real)
    | Str(s: string)
    | Obj(fields: map<string, Value>)

  /** The five falsy values that can occur here: undefined, null, false, 0 and "". */
  predicate Falsy(v: Value) {
    v.Undefined? || v.Null? || v == Bool(false) || v == Num(0.0) || v == Str("")
  }

  predicate Nullish(v: Value) {
    v.Undefined? || v.Null?
  }

  /** `a || b` */
  function Or(a: Value, b: Value): Value {
    if Falsy(a) then b else a
  }

  /** `a ?? b` */
  function Coalesce(a: Value, b: Value): Value {
    if Nullish(a) then b else a
  }

  /** `obj[k]` on a plain object: undefined when the key is absent. */
  function Get(m: map<string, Value>, k: string): Value {
    if k in m then m[k] else Undefined
  }

  /** `Number(v)`; `None` stands for NaN. Objects convert to NaN. */
  function ToNumber(v: Value): Option<real> {
    match v
    case Undefined => None
    case Null => Some(0.0)
    case Bool(b) => Some(if b then 1.0 else 0.0)
    case Num(n) => Some(n)
    case Str(s) => StringToNumber(s)
    case Obj(_) => None
  }

  /** `x.toFixed(2)` as a count of hundredths: the nearest integer to
      100·x, halves rounded away from zero, which is what `toFixed` does on
      exact decimals. */
  function Cents(x: real): (k: int)
    ensures x * 100.0 - 0.5 <= k as real <= x * 100.0 + 0.5
  {
    if x >= 0.0 then (x * 100.0 + 0.5).Floor else -((-x * 100.0 + 0.5).Floor)
  }

  /** `Number(x.toFixed(2))` */
  function Round2(x: real): real {
    Cents(x) as real / 100.0
  }

  /** Rounding to two places moves a value by at most half a hundredth. */
  lemma Round2Near(x: real)
    ensures Abs(Round2(x) - x) <= 0.005
  {
    var k := Cents(x);
  }

  /** Rounding to two places keeps a value inside [0, 1]. */
  lemma Round2UnitInterval(x: real)
    requires 0.0 <= x <= 1.0
    ensures 0.0 <= Round2(x) <= 1.0
  {
    var k := Cents(x);
    assert k <= 100;
  }

  /** Rounding to two places is monotone. */
  lemma Round2Monotone(x: real, y: real)
    requires x <= y
    ensures Round2(x) <= Round2(y)
  {
    if 0.0 <= x {
      FloorMonotone(x * 100.0 + 0.5, y * 100.0 + 0.5);
    } else if y < 0.0 {
      FloorMonotone(-y * 100.0 + 0.5, -x * 100.0 + 0.5);
    }
  }

  lemma FloorMonotone(a: real, b: real)
    requires a <= b
    ensures a.Floor <= b.Floor
  {
  }

  /** A value already on the 0.01 grid is left alone. */
  lemma Round2OfCents(k: int)
    ensures Cents(k as real / 100.0) == k
  {
    var x := k as real / 100.0;
    assert x * 100.0 == k as real;
  }

  /** Rounding twice is rounding once. */
  lemma Round2Idempotent(x: real)
    ensures Round2(Round2(x)) == Round2(x)
  {
    Round2OfCents(Cents(x));
  }

  /** `Math.round`: the nearest integer, halves rounded up. */
  function MathRound(x: real): (r: int)
    ensures x - 0.5 < r as real <= x + 0.5
  {
    (x + 0.5).Floor
  }

  /** What `JSON.parse(JSON.stringify(v))` gives back for a value of this
      datatype: members whose value is undefined are dropped from objects,
      at every depth. */
  function JsonNormal(v: Value): Value {
    match v
    case Obj(m) => Obj(map k | k in m && !m[k].Undefined? :: JsonNormal(m[k]))
    case _ => v
  }

  /** Serialising a value that already went through JSON changes nothing. */
  lemma {:induction false} JsonNormalIdempotent(v: Value)
    ensures JsonNormal(JsonNormal(v)) == JsonNormal(v)
  {
    match v
    case Obj(m) =>
      var n := JsonNormal(v).fields;
      forall k | k in n
        ensures !n[k].Undefined? && JsonNormal(n[k]) == n[k]
      {
        JsonNormalIdempotent(m[k]);
      }
      assert JsonNormal(Obj(n)).fields == n;
    case _ =>
  }

  /** The text stored under a key: JSON that parses to a value, the empty
      string (falsy, so `raw || "{}"` and `if (!raw)` treat it as nothing
      stored, while `JSON.parse` rejects it), or other text that
      `JSON.parse` rejects. */
  datatype StoredText = Parsed(value: Value) | Empty | Unparsable

  /** The own enumerable properties a value spreads into an object literal
      (`{ ...v }`); non-object values spread nothing. */
  function Fields(v: Value): map<string, Value> {
    if v.Obj? then v.fields else map[]
  }

  /** Parsed JSON: objects never hold undefined members. */
  predicate IsJson(entry: Option<StoredText>) {
    entry.Some? && entry.value.Parsed? ==> JsonNormal(entry.value.value) == entry.value.value
  }

  /** Members that survive a JSON round trip unchanged. */
  predicate PlainMembers(m: map<string, Value>) {
    forall k :: k in m ==> !m[k].Undefined? && JsonNormal(m[k]) == m[k]
  }

  /** The members of a value that came out of `JSON.parse` are plain. */
  lemma ParsedMembersPlain(v: Value)
    requires JsonNormal(v) == v
    ensures PlainMembers(Fields(v))
  {
    if v.Obj? {
      forall k | k in v.fields
        ensures !v.fields[k].Undefined? && JsonNormal(v.fields[k]) == v.fields[k]
      {
        assert JsonNormal(v).fields == v.fields;
        JsonNormalIdempotent(v.fields[k]);
      }
    }
  }

  /** Overlaying plain members on plain members needs no normalisation. */
  lemma PlainOverlay(before: map<string, Value>, patch: map<string, Value>)
    requires PlainMembers(before) && PlainMembers(patch)
    ensures JsonNormal(Obj(before + patch)) == Obj(before + patch)
  {
  }

  /** An object of plain members survives a JSON round trip. */
  lemma PlainObject(m: map<string, Value>)
    requires PlainMembers(m)
    ensures JsonNormal(Obj(m)) == Obj(m)
  {
  }

  /** A number about to be stored: NaN (`None`) is written as `null`. */
  function JsonNumber(x: Option<real>): (v: Value)
    ensures JsonNormal(v) == v && !v.Undefined?
  {
    match x
    case Some(n) => Num(n)
    case None => Null
  }

  /** `v + 1` for a value that is neither undefined nor null: numbers and
      booleans add, strings and objects concatenate. */
  function AddOne(v: Value): (r: Value)
    requires !Nullish(v)
    ensures v.Num? ==> r == Num(v.n + 1.0)
    ensures v.Str? ==> r == Str(v.s + "1")
  {
    match v
    case Bool(b) => Num(if b then 2.0 else 1.0)
    case Num(n) => Num(n + 1.0)
    case Str(s) => Str(s + "1")
    case Obj(_) => Str("[object Object]1")
  }

  /** `Number(a) === Number(b)` on two conversions: NaN equals nothing. */
  predicate SameNumber(a: Option<real>, b: Option<real>) {
    a.Some? && b.Some? && a.value == b.value
  }

  /** An error a request handler throws: an HTTP status and a message. */
  datatype HttpError = HttpError(status: int, message: string)

  datatype Result<+T> = Ok(value: T) | Fail(error: HttpError)
}
