/** The object-matching memory game: eight face-down cards, two of each of
    four objects. Two chosen cards are compared after a short delay; equal
    objects stay face up as a matched pair, different ones are turned back.
    Finishing all four pairs records the best time in the therapy progress. */
module ObjectMatch {
  import opened Base
  import opened Js
  import opened Strings
  import opened TherapyProgress

  const ObjectIds: seq<string> := ["kite", "star", "rocket", "puzzle"]

  /** `OBJECTS.length`: the pairs to find. */
  const PairCount: nat := 4

  /** A card: its key, the id of its object, and whether it shows its face
      and has been matched. The object's label and icon are presentation. */
  datatype Card = Card(key: string, objectId: string, flipped: bool, matched: bool)

  // ---------------------------------------------------------------------
  // the deck

  /** `createDeck()` before the shuffle: the objects twice over, card `i`
      keyed by its object id, a dash and `i`. */
  function Deck(): seq<Card> {
    seq(8, i requires 0 <= i < 8 => Card(ObjectIds[i % 4] + "-" + NatToString(i), ObjectIds[i % 4], false, false))
  }

  predicate DistinctKeys(cards: seq<Card>) {
    forall i, j :: 0 <= i < |cards| && 0 <= j < |cards| && i != j ==> cards[i].key != cards[j].key
  }

  /** The ids of the cards' objects, in card order. */
  function Ids(cards: seq<Card>): (ids: seq<string>)
    ensures |ids| == |cards| && forall i :: 0 <= i < |cards| ==> ids[i] == cards[i].objectId
  {
    if cards == [] then [] else Ids(cards[..|cards| - 1]) + [cards[|cards| - 1].objectId]
  }

  /** Card keys end in the card's position in the unshuffled deck. */
  lemma DeckKeyEnds(i: nat)
    requires i < 8
    ensures |Deck()[i].key| > 0 && Deck()[i].key[|Deck()[i].key| - 1] == DigitChar(i)
  {
    assert NatToString(i) == [DigitChar(i)];
  }

  /** A new deck has eight face-down, unmatched cards with distinct keys. */
  lemma DeckFresh()
    ensures |Deck()| == 8
    ensures forall i :: 0 <= i < 8 ==> !Deck()[i].flipped && !Deck()[i].matched
    ensures DistinctKeys(Deck())
  {
    forall i, j | 0 <= i < 8 && 0 <= j < 8 && i != j
      ensures Deck()[i].key != Deck()[j].key
    {
      DeckKeyEnds(i);
      DeckKeyEnds(j);
    }
  }

  /** A new deck holds each object exactly twice. */
  lemma DeckPairs()
    ensures Ids(Deck()) == ObjectIds + ObjectIds
    ensures multiset(Ids(Deck())) == multiset(ObjectIds) + multiset(ObjectIds)
  {
    var ids := Ids(Deck());
    forall i | 0 <= i < 8
      ensures ids[i] == (ObjectIds + ObjectIds)[i]
    {
      assert ids[i] == ObjectIds[i % 4];
    }
  }

  /** An order the shuffle may produce: every position of the unshuffled
      deck exactly once. */
  predicate IsShuffle(order: seq<nat>) {
    |order| == 8 && (forall i :: 0 <= i < 8 ==> order[i] < 8)
    && forall i, j :: 0 <= i < 8 && 0 <= j < 8 && i != j ==> order[i] != order[j]
  }

  function Shuffled(order: seq<nat>): (cards: seq<Card>)
    requires IsShuffle(order)
  {
    seq(8, i requires 0 <= i < 8 => Deck()[order[i]])
  }

  /** The layout every deck keeps while the game runs: distinct keys, and
      objects from the game's four. */
  predicate Layout(cards: seq<Card>) {
    DistinctKeys(cards) && forall i :: 0 <= i < |cards| ==> cards[i].objectId in ObjectIds
  }

  /** A shuffled deck keeps the layout and starts face down and unmatched. */
  lemma ShuffledFresh(order: seq<nat>)
    requires IsShuffle(order)
    ensures |Shuffled(order)| == 8 && Layout(Shuffled(order))
    ensures forall i :: 0 <= i < 8 ==> !Shuffled(order)[i].flipped && !Shuffled(order)[i].matched
    ensures Consistent(Shuffled(order), [], [], 0)
  {
    DeckFresh();
    var cards := Shuffled(order);
    forall i, j | 0 <= i < 8 && 0 <= j < 8 && i != j
      ensures cards[i].key != cards[j].key
    {
      assert cards[i] == Deck()[order[i]] && cards[j] == Deck()[order[j]];
    }
    forall i | 0 <= i < 8
      ensures cards[i].objectId in ObjectIds
    {
      assert cards[i].objectId == ObjectIds[order[i] % 4];
    }
    assert MatchedIds(cards) == {};
  }

  // ---------------------------------------------------------------------
  // the card updates

  /** `cards.map(item => item.key === key ? card : item)` */
  function Replace(cards: seq<Card>, key: string, card: Card): (r: seq<Card>)
    ensures |r| == |cards|
    ensures forall i :: 0 <= i < |cards| ==> r[i] == if cards[i].key == key then card else cards[i]
  {
    seq(|cards|, i requires 0 <= i < |cards| => if cards[i].key == key then card else cards[i])
  }

  /** On a match, every card of the object is matched and face up. */
  function MatchAll(cards: seq<Card>, id: string): (r: seq<Card>)
    ensures |r| == |cards|
    ensures forall i :: 0 <= i < |cards| ==>
              r[i] == if cards[i].objectId == id then cards[i].(matched := true, flipped := true) else cards[i]
  {
    seq(|cards|, i requires 0 <= i < |cards| =>
      if cards[i].objectId == id then cards[i].(matched := true, flipped := true) else cards[i])
  }

  /** On a mismatch, the cards with the two keys are turned back. */
  function Unflip(cards: seq<Card>, key1: string, key2: string): (r: seq<Card>)
    ensures |r| == |cards|
    ensures forall i :: 0 <= i < |cards| ==>
              r[i] == if cards[i].key == key1 || cards[i].key == key2 then cards[i].(flipped := false) else cards[i]
  {
    seq(|cards|, i requires 0 <= i < |cards| =>
      if cards[i].key == key1 || cards[i].key == key2 then cards[i].(flipped := false) else cards[i])
  }

  /** The objects whose cards have been matched. */
  function MatchedIds(cards: seq<Card>): set<string> {
    set i | 0 <= i < |cards| && cards[i].matched :: cards[i].objectId
  }

  /** Replacing one card by itself turned face up changes that card only. */
  lemma FlipOnly(cards: seq<Card>, i: nat)
    requires DistinctKeys(cards) && i < |cards|
    ensures Replace(cards, cards[i].key, cards[i].(flipped := true)) == cards[i := cards[i].(flipped := true)]
  {
  }

  /** Matching an object present in the deck adds exactly that object to the
      matched ones. */
  lemma MatchAdds(cards: seq<Card>, a: nat)
    requires a < |cards|
    ensures MatchedIds(MatchAll(cards, cards[a].objectId)) == MatchedIds(cards) + {cards[a].objectId}
  {
    var r := MatchAll(cards, cards[a].objectId);
    assert r[a].matched;
  }

  // ---------------------------------------------------------------------
  // the game's consistency

  /** `selected.some(sel => sel.key === key)` */
  predicate Selected(selected: seq<Card>, key: string) {
    exists j :: 0 <= j < |selected| && selected[j].key == key
  }

  /** Every queued selection holds two cards. */
  predicate Pairs(pending: seq<seq<Card>>) {
    forall j :: 0 <= j < |pending| ==> |pending[j]| == 2
  }

  /** `b` holds the cards of `a` in the same places, whatever their faces
      and matches. */
  predicate SameLayout(a: seq<Card>, b: seq<Card>) {
    |a| == |b| && forall i :: 0 <= i < |a| ==> b[i].key == a[i].key && b[i].objectId == a[i].objectId
  }

  /** ... and with the same cards matched. */
  predicate SameMatches(a: seq<Card>, b: seq<Card>) {
    SameLayout(a, b) && forall i :: 0 <= i < |a| ==> b[i].matched == a[i].matched
  }

  lemma SameLayoutKeeps(a: seq<Card>, b: seq<Card>)
    requires Layout(a) && SameLayout(a, b)
    ensures Layout(b)
  {
    assert forall i :: 0 <= i < |b| ==> b[i].key == a[i].key;
  }

  /** The cards of an object are matched together. */
  predicate Uniform(cards: seq<Card>) {
    forall i, j :: 0 <= i < |cards| && 0 <= j < |cards| && cards[i].objectId == cards[j].objectId ==>
                   cards[i].matched == cards[j].matched
  }

  /** Matched cards show their face. */
  predicate MatchedFaceUp(cards: seq<Card>) {
    forall i :: 0 <= i < |cards| && cards[i].matched ==> cards[i].flipped
  }

  /** `s` stands for an unmatched card of the deck with its key and object. */
  predicate Refers(cards: seq<Card>, s: Card) {
    exists i :: 0 <= i < |cards| && cards[i].key == s.key && cards[i].objectId == s.objectId && !cards[i].matched
  }

  predicate SelectionRefers(cards: seq<Card>, selected: seq<Card>) {
    forall j :: 0 <= j < |selected| ==> Refers(cards, selected[j])
  }

  /** The only queued evaluation is that of the full selection. */
  predicate Queued(selected: seq<Card>, pending: seq<seq<Card>>) {
    |selected| <= 2 && (|selected| == 2 ==> pending == [selected]) && (|selected| < 2 ==> pending == [])
  }

  /** What holds between the pieces of the game's state while no stale
      evaluation is queued: pairs are matched together and stay face up,
      the counter counts matched objects, the selection names unmatched
      cards, and the only queued evaluation is that of the full selection. */
  predicate Consistent(cards: seq<Card>, selected: seq<Card>, pending: seq<seq<Card>>, matchedCount: nat) {
    Uniform(cards) && MatchedFaceUp(cards) && matchedCount == |MatchedIds(cards)|
    && SelectionRefers(cards, selected) && Queued(selected, pending)
  }

  /** Changing only faces keeps what depends on matches. */
  lemma SameMatchesKeep(a: seq<Card>, b: seq<Card>)
    requires SameMatches(a, b)
    ensures MatchedIds(a) == MatchedIds(b)
    ensures Uniform(a) ==> Uniform(b)
    ensures forall s :: Refers(a, s) ==> Refers(b, s)
  {
    forall x | x in MatchedIds(b) ensures x in MatchedIds(a) {
      var j :| 0 <= j < |b| && b[j].matched && b[j].objectId == x;
      assert a[j].matched && a[j].objectId == x;
    }
    forall x | x in MatchedIds(a) ensures x in MatchedIds(b) {
      var j :| 0 <= j < |a| && a[j].matched && a[j].objectId == x;
      assert b[j].matched && b[j].objectId == x;
    }
    forall s | Refers(a, s) ensures Refers(b, s) {
      var i :| 0 <= i < |a| && a[i].key == s.key && a[i].objectId == s.objectId && !a[i].matched;
      assert b[i].key == s.key && b[i].objectId == s.objectId && !b[i].matched;
    }
  }

  /** A consistent game counts at most four pairs, and all four exactly when
      every card is matched. */
  lemma ConsistentCount(cards: seq<Card>, selected: seq<Card>, pending: seq<seq<Card>>, matchedCount: nat)
    requires Layout(cards) && Consistent(cards, selected, pending, matchedCount)
    ensures matchedCount <= PairCount
    ensures matchedCount == PairCount ==> forall i :: 0 <= i < |cards| ==> cards[i].matched
  {
    var all := set x | x in ObjectIds;
    ObjectIdsDistinct();
    assert MatchedIds(cards) <= all;
    SubsetSize(MatchedIds(cards), all);
    if matchedCount == PairCount {
      SubsetOfSameSize(MatchedIds(cards), all);
      forall i | 0 <= i < |cards|
        ensures cards[i].matched
      {
        assert cards[i].objectId in MatchedIds(cards);
        var j :| 0 <= j < |cards| && cards[j].matched && cards[j].objectId == cards[i].objectId;
      }
    }
  }

  /** The four objects are different ones. */
  lemma ObjectIdsDistinct()
    ensures |set x | x in ObjectIds| == 4
  {
    var all := set x | x in ObjectIds;
    assert "kite"[0] == 'k' && "star"[0] == 's' && "rocket"[0] == 'r' && "puzzle"[0] == 'p';
    assert all == {"kite"} + {"star"} + {"rocket"} + {"puzzle"};
  }

  lemma {:induction false} SubsetSize(a: set<string>, b: set<string>)
    requires a <= b
    ensures |a| <= |b|
    decreases |b|
  {
    if b != {} {
      var x :| x in b;
      SubsetSize(a - {x}, b - {x});
    }
  }

  /** A subset as large as its superset is the superset. */
  lemma SubsetOfSameSize(a: set<string>, b: set<string>)
    requires a <= b && |a| == |b|
    ensures a == b
  {
    if a != b {
      var x :| x in b && x !in a;
      SubsetSize(a, b - {x});
    }
  }

  /** A flip of an unmatched card while at most one card is selected turns
      that card alone face up, keeps the layout, queues the evaluation of a
      full selection, and keeps a consistent game consistent. */
  lemma FlipStep(cards: seq<Card>, selected: seq<Card>, pending: seq<seq<Card>>, matchedCount: nat, i: nat)
    requires Layout(cards) && Pairs(pending) && i < |cards| && |selected| != 2 && !cards[i].matched
    ensures var c := cards[i].(flipped := true);
            var sel := selected + [c];
            var queue := if |sel| == 2 then pending + [sel] else pending;
            Replace(cards, cards[i].key, c) == cards[i := c] && Layout(cards[i := c]) && Pairs(queue)
            && (Consistent(cards, selected, pending, matchedCount) ==> Consistent(cards[i := c], sel, queue, matchedCount))
  {
    var c := cards[i].(flipped := true);
    var next := cards[i := c];
    var sel := selected + [c];
    FlipOnly(cards, i);
    assert SameMatches(cards, next);
    SameLayoutKeeps(cards, next);
    SameMatchesKeep(cards, next);
    if Consistent(cards, selected, pending, matchedCount) {
      forall j | 0 <= j < |sel|
        ensures Refers(next, sel[j])
      {
        if j == |selected| {
          assert next[i].key == c.key && next[i].objectId == c.objectId && !next[i].matched;
        } else {
          assert Refers(cards, selected[j]);
        }
      }
    }
  }

  lemma MatchLayout(cards: seq<Card>, id: string)
    requires Layout(cards)
    ensures Layout(MatchAll(cards, id))
  {
    SameLayoutKeeps(cards, MatchAll(cards, id));
  }

  lemma UnflipLayout(cards: seq<Card>, key1: string, key2: string)
    requires Layout(cards)
    ensures Layout(Unflip(cards, key1, key2))
  {
    SameLayoutKeeps(cards, Unflip(cards, key1, key2));
  }

  /** Evaluating a matching queued selection of a consistent game matches
      one more object. */
  lemma MatchStep(cards: seq<Card>, selected: seq<Card>, pending: seq<seq<Card>>, matchedCount: nat)
    requires Layout(cards) && Consistent(cards, selected, pending, matchedCount) && |pending| > 0
    requires |pending[0]| == 2 && pending[0][0].objectId == pending[0][1].objectId
    ensures Consistent(MatchAll(cards, pending[0][0].objectId), [], pending[1..], matchedCount + 1)
  {
    var first := selected[0];
    var id := first.objectId;
    assert Refers(cards, selected[0]);
    var a :| 0 <= a < |cards| && cards[a].key == first.key && cards[a].objectId == id && !cards[a].matched;
    MatchAdds(cards, a);
    assert id !in MatchedIds(cards) by {
      UnmatchedAbsent(cards, a);
    }
    MatchKeepsShape(cards, id);
  }

  /** With matches kept together, an unmatched card's object is not matched. */
  lemma UnmatchedAbsent(cards: seq<Card>, a: nat)
    requires Uniform(cards) && a < |cards| && !cards[a].matched
    ensures cards[a].objectId !in MatchedIds(cards)
  {
  }

  /** Matching an object keeps pairs together and matched cards face up. */
  lemma MatchKeepsShape(cards: seq<Card>, id: string)
    requires Uniform(cards) && MatchedFaceUp(cards)
    ensures Uniform(MatchAll(cards, id)) && MatchedFaceUp(MatchAll(cards, id))
  {
  }

  /** Evaluating a mismatching queued selection of a consistent game turns
      back two unmatched cards. */
  lemma MismatchStep(cards: seq<Card>, selected: seq<Card>, pending: seq<seq<Card>>, matchedCount: nat)
    requires Layout(cards) && Consistent(cards, selected, pending, matchedCount) && |pending| > 0
    requires |pending[0]| == 2
    ensures Consistent(Unflip(cards, pending[0][0].key, pending[0][1].key), [], pending[1..], matchedCount)
  {
    var first := selected[0];
    var second := selected[1];
    assert Refers(cards, selected[0]) && Refers(cards, selected[1]);
    var a :| 0 <= a < |cards| && cards[a].key == first.key && cards[a].objectId == first.objectId && !cards[a].matched;
    var b :| 0 <= b < |cards| && cards[b].key == second.key && cards[b].objectId == second.objectId && !cards[b].matched;
    var next := Unflip(cards, first.key, second.key);
    assert SameMatches(cards, next);
    SameMatchesKeep(cards, next);
    forall j | 0 <= j < |next| && next[j].matched
      ensures next[j].flipped
    {
      assert cards[j].matched;
      assert j != a && j != b;
    }
  }

  // ---------------------------------------------------------------------
  // completion

  /** `progress.bestTime ? Math.min(progress.bestTime, elapsed) : elapsed`;
      `None` stands for NaN. */
  function BestTime(previous: Value, elapsed: real): (r: Option<real>)
    ensures Falsy(previous) ==> r == Some(elapsed)
    ensures previous.Num? && previous.n != 0.0 ==> r == Some(Min(previous.n, elapsed))
  {
    if Falsy(previous) then Some(elapsed)
    else match ToNumber(previous)
      case None => None
      case Some(p) => Some(Min(p, elapsed))
  }

  /** A best time never grows, and never exceeds the latest time. */
  lemma BestTimeImproves(previous: real, elapsed: real)
    requires previous != 0.0
    ensures BestTime(Num(previous), elapsed).value <= previous
    ensures BestTime(Num(previous), elapsed).value <= elapsed
    ensures BestTime(Num(previous), elapsed).value == previous || BestTime(Num(previous), elapsed).value == elapsed
  {
  }

  /** The record the completion writes: the best time and one more session. */
  function CompletionRecord(progress: Value, elapsed: real): (r: Value)
    ensures !r.Undefined? && JsonNormal(r) == r
  {
    GameRecord("bestTime", BestTime(Get(Fields(progress), "bestTime"), elapsed), progress)
  }

  class ObjectMatchGame {
    const store: ProgressStore
    var cards: seq<Card>
    var selected: seq<Card>
    /** The selections whose evaluation timers run, oldest first. */
    var pending: seq<seq<Card>>
    var moves: nat
    var matchedCount: nat
    /** `startTime`: the time of the first flip, `None` for null. */
    var startTime: Option<real>
    /** The object-matching record of the therapy progress. */
    var progress: Value

    ghost predicate Valid()
      reads this
    {
      Layout(cards) && Pairs(pending)
    }

    ghost predicate Coherent()
      reads this
    {
      Consistent(cards, selected, pending, matchedCount)
    }

    /** `startTime` is truthy. */
    predicate Started()
      reads this
    {
      startTime.Some? && startTime.value != 0.0
    }

    /** The first render: a deck in the shuffled `order` and the stored
        object-matching record. */
    constructor (store: ProgressStore, order: seq<nat>)
      requires IsShuffle(order)
      ensures Valid() && Coherent()
      ensures this.store == store && cards == Shuffled(order) && selected == [] && pending == []
      ensures moves == 0 && matchedCount == 0 && startTime.None?
      ensures progress == Get(store.Load(), "objectMatch")
    {
      this.store := store;
      ShuffledFresh(order);
      cards := Shuffled(order);
      selected := [];
      pending := [];
      moves := 0;
      matchedCount := 0;
      startTime := None;
      progress := Get(store.Load(), "objectMatch");
    }

    /** `handleFlip(cards[i])` at time `now`. The card's button is disabled
        while two cards are selected. A matched or already selected card is
        ignored; otherwise the card alone turns face up and joins the
        selection, and a second card queues the evaluation. */
    method Flip(i: nat, now: real)
      requires Valid() && i < |cards| && |selected| != 2
      modifies this
      ensures Valid()
      ensures var card := old(cards[i]);
              if card.matched || Selected(old(selected), card.key) then
                cards == old(cards) && selected == old(selected) && pending == old(pending)
                && startTime == old(startTime)
              else
                cards == old(cards)[i := card.(flipped := true)]
                && selected == old(selected) + [card.(flipped := true)]
                && pending == (if |selected| == 2 then old(pending) + [selected] else old(pending))
                && startTime == (if old(Started()) then old(startTime) else Some(now))
      ensures moves == old(moves) && matchedCount == old(matchedCount) && progress == old(progress)
      ensures old(Coherent()) ==> Coherent()
    {
      var card := cards[i];
      if card.matched || Selected(selected, card.key) {
        return;
      }
      if !Started() {
        startTime := Some(now);
      }
      var flippedCard := card.(flipped := true);
      FlipStep(cards, selected, pending, matchedCount, i);
      cards := Replace(cards, card.key, flippedCard);
      selected := selected + [flippedCard];
      if |selected| == 2 {
        pending := pending + [selected];
      }
    }

    /** `evaluateSelection` for the oldest queued selection: one more move;
        equal objects are matched as a pair, different ones turned back; the
        selection is emptied. */
    method Evaluate()
      requires Valid() && |pending| > 0
      modifies this
      ensures Valid()
      ensures var first := old(pending[0][0]);
              var second := old(pending[0][1]);
              if first.objectId == second.objectId then
                cards == MatchAll(old(cards), first.objectId) && matchedCount == old(matchedCount) + 1
              else
                cards == Unflip(old(cards), first.key, second.key) && matchedCount == old(matchedCount)
      ensures moves == old(moves) + 1 && selected == [] && pending == old(pending[1..])
      ensures startTime == old(startTime) && progress == old(progress)
      ensures old(Coherent()) ==> Coherent()
    {
      var selection := pending[0];
      assert |selection| == 2;
      var first := selection[0];
      var second := selection[1];
      ghost var before, sel, queue, count := cards, selected, pending, matchedCount;
      ghost var wasCoherent := Coherent();
      if first.objectId == second.objectId {
        cards := MatchAll(cards, first.objectId);
        matchedCount := matchedCount + 1;
        assert Layout(cards) by {
          MatchLayout(before, first.objectId);
        }
        if wasCoherent {
          assert Consistent(cards, [], queue[1..], matchedCount) by {
            MatchStep(before, sel, queue, count);
          }
        }
      } else {
        cards := Unflip(cards, first.key, second.key);
        assert Layout(cards) by {
          UnflipLayout(before, first.key, second.key);
        }
        if wasCoherent {
          assert Consistent(cards, [], queue[1..], matchedCount) by {
            MismatchStep(before, sel, queue, count);
          }
        }
      }
      pending := pending[1..];
      moves := moves + 1;
      selected := [];
    }

    /** The completion check of a render at time `now` (`nowText` in ISO
        form): with all four pairs matched and a start time, the best time
        and one more session are stored and the start time is cleared. The
        update's result is dereferenced, so this needs a window. */
    method CheckCompletion(now: real, nowText: string) returns (finished: bool)
      requires Valid() && store.Valid()
      requires matchedCount == PairCount && Started() ==> store.hasWindow
      modifies this, store
      ensures Valid() && store.Valid()
      ensures finished <==> old(matchedCount == PairCount && Started())
      ensures !finished ==> progress == old(progress) && startTime == old(startTime)
                            && store.entry == old(store.entry)
      ensures finished ==> progress == CompletionRecord(old(progress), now - old(startTime).value)
                           && startTime.None?
                           && store.Load() == Updated(old(store.Load()), map["objectMatch" := progress], nowText)
      ensures cards == old(cards) && selected == old(selected) && pending == old(pending)
      ensures moves == old(moves) && matchedCount == old(matchedCount)
    {
      if !(matchedCount == PairCount && Started()) {
        return false;
      }
      var elapsed := now - startTime.value;
      var record := CompletionRecord(progress, elapsed);
      store.UpdateGame("objectMatch", record, nowText);
      progress := record;
      startTime := None;
      finished := true;
    }

    /** `handleReset()` with the next shuffle `order`. The evaluation timers
        already running are not cancelled. */
    method Reset(order: seq<nat>)
      requires Valid() && IsShuffle(order)
      modifies this
      ensures Valid()
      ensures cards == Shuffled(order) && selected == [] && moves == 0 && matchedCount == 0 && startTime.None?
      ensures pending == old(pending) && progress == old(progress)
      ensures pending == [] ==> Coherent()
    {
      ShuffledFresh(order);
      cards := Shuffled(order);
      selected := [];
      moves := 0;
      matchedCount := 0;
      startTime := None;
    }
  }
}
