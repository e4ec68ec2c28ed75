/** The consent step of a screening: mounting the page starts a fresh
    session, and "start" records consent before moving to the webcam check. */
module Instructions {
  import opened Base
  import opened Js
  import opened ScreeningSession

  /** The patch `handleStart` merges: consent given, any earlier saved
      screening forgotten (an undefined member disappears once stored). */
  const StartPatch: map<string, Value> := map["consentGiven" := Bool(true), "savedScreeningId" := Undefined]

  class InstructionsPage {
    const store: SessionStore
    var consentGiven: bool

    /** Mounting the page: the consent box starts unticked and the session
        store is cleared. */
    constructor (store: SessionStore)
      modifies store
      ensures this.store == store && !consentGiven
      ensures store.entry == if store.hasWindow then None else old(store.entry)
      ensures store.Read() == Obj(map[])
      ensures old(store.Valid()) ==> store.Valid()
    {
      this.store := store;
      consentGiven := false;
      new;
      store.Clear();
    }

    /** The consent checkbox. */
    method SetConsent(checked: bool)
      modifies this
      ensures consentGiven == checked
    {
      consentGiven := checked;
    }

    /** `handleStart`: without consent nothing happens; with consent the
        session keeps every other key, gains `consentGiven: true` and loses
        `savedScreeningId`. */
    method HandleStart()
      requires store.Valid()
      modifies store
      ensures store.Valid()
      ensures !consentGiven ==> store.entry == old(store.entry)
      ensures consentGiven && store.hasWindow ==>
                Fields(store.Read()) == (Fields(old(store.Read())) - {"savedScreeningId"})["consentGiven" := Bool(true)]
    {
      if consentGiven {
        ghost var before := Fields(store.Read());
        forall k | k in before
          ensures !before[k].Undefined? && JsonNormal(before[k]) == before[k]
        {
          StoredMembersNormal(store.entry, k);
        }
        var _ := store.Merge(StartPatch);
        if store.hasWindow {
          StartPatchEffect(before);
        }
      }
    }

    /** The start link's target. */
    function StartHref(): (href: string)
      reads this
      ensures href != "#" <==> consentGiven
    {
      if consentGiven then "/screening/webcam" else "#"
    }
  }

  /** Storing `{ ...current, consentGiven: true, savedScreeningId: undefined }`
      drops `savedScreeningId`, sets `consentGiven` and keeps the rest. */
  lemma StartPatchEffect(before: map<string, Value>)
    requires forall k :: k in before ==> !before[k].Undefined? && JsonNormal(before[k]) == before[k]
    ensures JsonNormal(Obj(before + StartPatch)).fields
            == (before - {"savedScreeningId"})["consentGiven" := Bool(true)]
  {
    var got := JsonNormal(Obj(before + StartPatch)).fields;
    var want := (before - {"savedScreeningId"})["consentGiven" := Bool(true)];
    assert forall k :: k in got <==> k in want;
    forall k | k in got
      ensures got[k] == want[k]
    {
      var merged := before + StartPatch;
      assert got[k] == JsonNormal(merged[k]);
      if k == "consentGiven" {
        assert merged[k] == Bool(true);
      } else {
        assert k in before && merged[k] == before[k];
      }
    }
  }
}
