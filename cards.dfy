/** The host's card model, as far as the CrCast adapter produces it. */
module Cards {
  import opened Wrappers
  import opened Sources

  /** Card ids come from a generator outside the adapter. */
  type CardId = nat

  /** One part of a call's line: literal text, or an empty slot (`{}`) a
      response is played into. */
  datatype Part = Text(text: string) | Slot

  /** A call card: its lines (`parts`, each a sequence of parts) and the
      source it came from. */
  datatype Call = Call(id: CardId, parts: seq<seq<Part>>, source: External)

  /** A response card. `text` is `None` when the upstream card had no text
      element, which JavaScript reads as `undefined`. */
  datatype Response = Response(id: CardId, text: Option<string>, source: External)

  datatype Templates = Templates(calls: set<Call>, responses: set<Response>)

  /** The generator behind `Card.id()`: every id it hands out is new. */
  class CardIds {
    var next: CardId

    constructor ()
      ensures next == 0
    {
      next := 0;
    }

    method Fresh() returns (id: CardId)
      modifies this
      ensures id == old(next) && next == old(next) + 1
    {
      id := next;
      next := next + 1;
    }
  }

  /** The elements of a sequence, as `new Set(array)` collects them. */
  function AsSet<T>(s: seq<T>): set<T> {
    set x | x in s
  }

  ghost predicate Distinct<T>(s: seq<T>) {
    forall i, j :: 0 <= i < j < |s| ==> s[i] != s[j]
  }

  /** A set built from pairwise different elements has one member per element. */
  lemma {:induction false} DistinctSetSize<T>(s: seq<T>)
    requires Distinct(s)
    ensures |AsSet(s)| == |s|
  {
    if s != [] {
      var init := s[..|s| - 1];
      assert Distinct(init);
      DistinctSetSize(init);
      assert AsSet(s) == AsSet(init) + {s[|s| - 1]};
      forall i | 0 <= i < |init|
        ensures init[i] != s[|s| - 1]
      {
        assert init[i] == s[i];
      }
    }
  }
}
