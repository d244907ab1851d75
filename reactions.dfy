/**
 * The lab reaction chooser: over every pair of reagents the room holds, in
 * the order the room's resource totals and the reaction table list them,
 * find the reaction that could produce the most while the room holds little
 * of its product, and record it as the room's current reaction.
 */
module Reactions {
  import opened Common

  /** A pair of reagents and its score: how much the pair could make, less the product already held. */
  datatype Candidate = Candidate(first: string, second: string, score: real)

  /** `REACTIONS`: the partners a resource reacts with and each product, in table order; nothing when it has none. */
  type Table = string -> Option<Dict<string>>

  /** `totalResources[resourceType] || 0`. */
  function Held(total: Dict<real>, resourceType: string): real
  {
    OrElse(Lookup(total, resourceType), 0.0)
  }

  /** The stock of a product above which its reaction is not considered. */
  const ProductLimit: real := 10000.0

  /**
   * The candidates for one reagent with its partners, in table order: a
   * partner counts when the room holds some of it and at most 10000 of the
   * product.
   */
  function Row(total: Dict<real>, resourceType: string, amount: real, partners: Dict<string>): seq<Candidate>
  {
    if partners == [] then []
    else
      var front := Row(total, resourceType, amount, partners[..|partners| - 1]);
      var partner := partners[|partners| - 1];
      var amount2 := Held(total, partner.key);
      var resultAmount := Held(total, partner.value);
      if resultAmount > ProductLimit || amount2 <= 0.0 then front
      else front + [Candidate(resourceType, partner.key, Min(amount, amount2) - resultAmount)]
  }

  /** The candidates of one held resource: none when it is not positive or has no reactions. */
  function RowOf(total: Dict<real>, entry: Entry<real>, table: Table): seq<Candidate>
  {
    if entry.value <= 0.0 || table(entry.key).None? then []
    else Row(total, entry.key, entry.value, table(entry.key).value)
  }

  /** Every candidate pair, visiting `entries` (the resource totals, in order) and each one's partners. */
  function Candidates(total: Dict<real>, entries: Dict<real>, table: Table): seq<Candidate>
  {
    if entries == [] then []
    else Candidates(total, entries[..|entries| - 1], table) + RowOf(total, entries[|entries| - 1], table)
  }

  /**
   * One step of the scan as written: a candidate replaces the best so far
   * when there is none, when the best score is 0 (which is falsy), or when it
   * scores strictly more.
   */
  function ChooseAsWritten(best: Option<Candidate>, c: Candidate): (r: Option<Candidate>)
    ensures best.None? || best.value.score == 0.0 || best.value.score < c.score ==> r == Some(c)
    ensures best.Some? && best.value.score != 0.0 && c.score <= best.value.score ==> r == best
  {
    if best.None? || best.value.score == 0.0 || best.value.score < c.score then Some(c) else best
  }

  /** One step of the scan as intended: a candidate replaces the best so far only when there is none or it scores strictly more. */
  function Choose(best: Option<Candidate>, c: Candidate): (r: Option<Candidate>)
    ensures r.Some? && r.value.score >= c.score
    ensures best.Some? ==> r.value.score >= best.value.score
    ensures r == Some(c) || r == best
    ensures best.Some? && c.score <= best.value.score ==> r == best
  {
    if best.None? || best.value.score < c.score then Some(c) else best
  }

  /** The scan as written over a list of candidates, starting from `best`: it ends on the start or on one of the candidates. */
  function FoldAsWritten(best: Option<Candidate>, cands: seq<Candidate>): (r: Option<Candidate>)
    ensures r.None? <==> best.None? && cands == []
    ensures r == best || exists i :: 0 <= i < |cands| && r == Some(cands[i])
  {
    if cands == [] then best
    else
      var front := FoldAsWritten(best, cands[..|cands| - 1]);
      assert forall i :: 0 <= i < |cands| - 1 ==> cands[..|cands| - 1][i] == cands[i];
      ChooseAsWritten(front, cands[|cands| - 1])
  }

  /** The scan as intended over a list of candidates, starting from `best`: the result scores at least as much as the start and as every candidate. */
  function Fold(best: Option<Candidate>, cands: seq<Candidate>): (r: Option<Candidate>)
    ensures r.None? <==> best.None? && cands == []
    ensures best.Some? ==> r.value.score >= best.value.score
    ensures forall i :: 0 <= i < |cands| ==> cands[i].score <= r.value.score
  {
    if cands == [] then best
    else
      var front := Fold(best, cands[..|cands| - 1]);
      assert forall i :: 0 <= i < |cands| - 1 ==> cands[..|cands| - 1][i] == cands[i];
      Choose(front, cands[|cands| - 1])
  }

  /** Scanning two lists one after the other is scanning them joined. */
  lemma {:induction false} FoldAppend(best: Option<Candidate>, a: seq<Candidate>, b: seq<Candidate>)
    ensures Fold(best, a + b) == Fold(Fold(best, a), b)
    decreases |b|
  {
    if b == [] {
      assert a + b == a;
    } else {
      var front := b[..|b| - 1];
      assert (a + b)[..|a + b| - 1] == a + front;
      assert (a + b)[|a + b| - 1] == b[|b| - 1];
      FoldAppend(best, a, front);
    }
  }

  /** The scan as written, too, over two lists in turn is the scan over them joined. */
  lemma {:induction false} FoldAsWrittenAppend(best: Option<Candidate>, a: seq<Candidate>, b: seq<Candidate>)
    ensures FoldAsWritten(best, a + b) == FoldAsWritten(FoldAsWritten(best, a), b)
    decreases |b|
  {
    if b == [] {
      assert a + b == a;
    } else {
      var front := b[..|b| - 1];
      assert (a + b)[..|a + b| - 1] == a + front;
      assert (a + b)[|a + b| - 1] == b[|b| - 1];
      FoldAsWrittenAppend(best, a, front);
    }
  }

  /**
   * The intended scan picks a candidate with the highest score, the first
   * such in scan order, and picks nothing only from no candidates.
   */
  lemma {:induction false} FoldPicksFirstHighest(cands: seq<Candidate>)
    ensures var r := Fold(None, cands);
            (r.None? <==> cands == []) &&
            (r.Some? ==> exists k :: 0 <= k < |cands| && cands[k] == r.value &&
                           (forall i :: 0 <= i < |cands| ==> cands[i].score <= r.value.score) &&
                           (forall i :: 0 <= i < k ==> cands[i].score < r.value.score))
  {
    if cands != [] {
      var front := cands[..|cands| - 1];
      var last := cands[|cands| - 1];
      FoldPicksFirstHighest(front);
      var b := Fold(None, front);
      if b.Some? {
        var k :| 0 <= k < |front| && front[k] == b.value &&
                 (forall i :: 0 <= i < |front| ==> front[i].score <= b.value.score) &&
                 (forall i :: 0 <= i < k ==> front[i].score < b.value.score);
        if b.value.score < last.score {
          assert forall i :: 0 <= i < |front| ==> cands[i] == front[i];
        } else {
          assert cands[k] == front[k];
          assert forall i :: 0 <= i < k ==> cands[i] == front[i];
        }
      }
    }
  }

  /** Where no best score so far is 0 the scan as written and as intended agree. */
  lemma {:induction false} AsWrittenAgrees(best: Option<Candidate>, cands: seq<Candidate>)
    requires forall i :: 0 <= i < |cands| ==> cands[i].score != 0.0
    requires best.Some? ==> best.value.score != 0.0
    ensures FoldAsWritten(best, cands) == Fold(best, cands)
  {
    if cands != [] {
      var front := cands[..|cands| - 1];
      assert forall i :: 0 <= i < |front| ==> front[i] == cands[i];
      AsWrittenAgrees(best, front);
    }
  }

  /** Where no candidate scores exactly 0, the scan as written also picks the first highest-scoring candidate. */
  lemma AsWrittenPicksFirstHighest(cands: seq<Candidate>)
    requires forall i :: 0 <= i < |cands| ==> cands[i].score != 0.0
    ensures var r := FoldAsWritten(None, cands);
            (r.None? <==> cands == []) &&
            (r.Some? ==> exists k :: 0 <= k < |cands| && cands[k] == r.value &&
                           (forall i :: 0 <= i < |cands| ==> cands[i].score <= r.value.score) &&
                           (forall i :: 0 <= i < k ==> cands[i].score < r.value.score))
  {
    AsWrittenAgrees(None, cands);
    FoldPicksFirstHighest(cands);
  }

  /**
   * Resource totals and a reaction table where the first qualifying pair,
   * `A` with `B`, scores exactly 0 (it could make 100 but 100 of its product
   * is held) and the later pair `B` with `A` scores -50.
   */
  const ExampleTotals: Dict<real> := [Entry("A", 100.0), Entry("B", 100.0), Entry("C", 150.0)]

  function ExampleTable(resourceType: string): Option<Dict<string>>
  {
    if resourceType == "A" then Some([Entry("B", "B")])
    else if resourceType == "B" then Some([Entry("A", "C")])
    else None
  }

  /** The candidates of the example, in scan order. */
  lemma ExampleCandidates()
    ensures Candidates(ExampleTotals, ExampleTotals, ExampleTable) == [Candidate("A", "B", 0.0), Candidate("B", "A", -50.0)]
  {
    var t := ExampleTotals;
    assert Held(t, "A") == 100.0 && Held(t, "B") == 100.0 && Held(t, "C") == 150.0;
    assert RowOf(t, t[0], ExampleTable) == [Candidate("A", "B", 0.0)];
    assert RowOf(t, t[1], ExampleTable) == [Candidate("B", "A", -50.0)];
    assert RowOf(t, t[2], ExampleTable) == [];
    assert t[..1][..0] == [];
    assert Candidates(t, t[..1], ExampleTable) == [Candidate("A", "B", 0.0)];
    assert t[..2][..1] == t[..1];
    assert Candidates(t, t[..2], ExampleTable) == [Candidate("A", "B", 0.0), Candidate("B", "A", -50.0)];
    assert t[..2] == t[..|t| - 1];
  }

  /**
   * On those totals the scan as written ends on the pair scoring -50, since
   * the best score 0 so far is falsy; the intended scan keeps the pair
   * scoring 0.
   */
  lemma ZeroScoreReplaced()
    ensures FoldAsWritten(None, Candidates(ExampleTotals, ExampleTotals, ExampleTable)) == Some(Candidate("B", "A", -50.0))
    ensures Fold(None, Candidates(ExampleTotals, ExampleTotals, ExampleTable)) == Some(Candidate("A", "B", 0.0))
  {
    ExampleCandidates();
    var cands := [Candidate("A", "B", 0.0), Candidate("B", "A", -50.0)];
    assert cands[..1] == [Candidate("A", "B", 0.0)];
  }

  /** The room's lab settings in memory: the reaction being produced, and the one the planner suggested. */
  class LabMemory {
    var currentReaction: Option<(string, string)>
    var bestReaction: Option<(string, string)>

    constructor(currentReaction: Option<(string, string)>, bestReaction: Option<(string, string)>)
      ensures this.currentReaction == currentReaction && this.bestReaction == bestReaction
    {
      this.currentReaction := currentReaction;
      this.bestReaction := bestReaction;
    }
  }

  /** The pair a scan result names, or nothing. */
  function PairOf(best: Option<Candidate>): Option<(string, string)>
  {
    if best.Some? then Some((best.value.first, best.value.second)) else None
  }

  /**
   * The inner callback's effect: a partner the room holds some of, whose
   * product it holds at most 10000 of, offers its candidate to the best so
   * far; any other partner leaves it.
   */
  function Offer(total: Dict<real>, resourceType: string, amount: real, partner: Entry<string>,
                 before: Option<Candidate>): Option<Candidate>
  {
    if Held(total, partner.value) <= ProductLimit && Held(total, partner.key) > 0.0
    then ChooseAsWritten(before, Candidate(resourceType, partner.key,
                                           Min(amount, Held(total, partner.key)) - Held(total, partner.value)))
    else before
  }

  /** One more partner adds its candidate to the row exactly when it qualifies. */
  lemma RowGrow(total: Dict<real>, resourceType: string, amount: real, partners: Dict<string>, j: nat)
    requires j < |partners|
    ensures var p := partners[j];
            Row(total, resourceType, amount, partners[..j + 1]) ==
            if Held(total, p.value) <= ProductLimit && Held(total, p.key) > 0.0
            then Row(total, resourceType, amount, partners[..j]) + [Candidate(resourceType, p.key, Min(amount, Held(total, p.key)) - Held(total, p.value))]
            else Row(total, resourceType, amount, partners[..j])
  {
    PrefixGrow(partners, j);
    var whole := partners[..j + 1];
    assert whole[..|whole| - 1] == partners[..j] && whole[|whole| - 1] == partners[j];
  }

  /** One more candidate at the end of the list is one more step of the scan as written. */
  lemma FoldAsWrittenSnoc(best: Option<Candidate>, cands: seq<Candidate>, c: Candidate)
    ensures FoldAsWritten(best, cands + [c]) == ChooseAsWritten(FoldAsWritten(best, cands), c)
  {
    assert (cands + [c])[..|cands|] == cands;
  }

  /** One more partner continues the scan as written over the qualifying candidates. */
  lemma ScanStep(total: Dict<real>, resourceType: string, amount: real, partners: Dict<string>, j: nat,
                 best: Option<Candidate>)
    requires j < |partners|
    ensures Offer(total, resourceType, amount, partners[j], FoldAsWritten(best, Row(total, resourceType, amount, partners[..j]))) ==
            FoldAsWritten(best, Row(total, resourceType, amount, partners[..j + 1]))
  {
    RowGrow(total, resourceType, amount, partners, j);
    var p := partners[j];
    if Held(total, p.value) <= ProductLimit && Held(total, p.key) > 0.0 {
      FoldAsWrittenSnoc(best, Row(total, resourceType, amount, partners[..j]),
                        Candidate(resourceType, p.key, Min(amount, Held(total, p.key)) - Held(total, p.value)));
    }
  }

  /** The callback of the inner loop: offers one partner's candidate to the best so far. */
  method OfferPartner(total: Dict<real>, resourceType: string, amount: real, partner: Entry<string>,
                      best: Option<Candidate>) returns (r: Option<Candidate>)
    ensures r == Offer(total, resourceType, amount, partner, best)
  {
    r := best;
    var amount2 := Held(total, partner.key);
    var resultAmount := Held(total, partner.value);
    if resultAmount > ProductLimit {
      return;
    }
    if amount2 <= 0.0 {
      return;
    }
    var maxProduction := Min(amount, amount2) - resultAmount;
    if r.None? || r.value.score == 0.0 || r.value.score < maxProduction {
      r := Some(Candidate(resourceType, partner.key, maxProduction));
    }
  }

  /** Scans one reagent's partners, continuing from the best so far. */
  method ScanPartners(total: Dict<real>, resourceType: string, amount: real, partners: Dict<string>,
                      best: Option<Candidate>) returns (r: Option<Candidate>)
    ensures r == FoldAsWritten(best, Row(total, resourceType, amount, partners))
  {
    r := best;
    var j := 0;
    while j < |partners|
      invariant 0 <= j <= |partners|
      invariant r == FoldAsWritten(best, Row(total, resourceType, amount, partners[..j]))
    {
      ScanStep(total, resourceType, amount, partners, j, best);
      r := OfferPartner(total, resourceType, amount, partners[j], r);
      j := j + 1;
    }
    PrefixWhole(partners);
  }

  /** Scans the partners of one held resource, if it is positive and has reactions. */
  method ScanEntry(total: Dict<real>, entry: Entry<real>, table: Table, best: Option<Candidate>) returns (r: Option<Candidate>)
    ensures r == FoldAsWritten(best, RowOf(total, entry, table))
  {
    if entry.value <= 0.0 || table(entry.key).None? {
      return best;
    }
    r := ScanPartners(total, entry.key, entry.value, table(entry.key).value, best);
  }

  /** One more held resource continues the scan as written over its row of candidates. */
  lemma ScanEntryStep(total: Dict<real>, table: Table, i: nat)
    requires i < |total|
    ensures FoldAsWritten(FoldAsWritten(None, Candidates(total, total[..i], table)), RowOf(total, total[i], table)) ==
            FoldAsWritten(None, Candidates(total, total[..i + 1], table))
  {
    PrefixGrow(total, i);
    var whole := total[..i + 1];
    assert whole[..|whole| - 1] == total[..i] && whole[|whole| - 1] == total[i];
    assert Candidates(total, whole, table) == Candidates(total, total[..i], table) + RowOf(total, total[i], table);
    FoldAsWrittenAppend(None, Candidates(total, total[..i], table), RowOf(total, total[i], table));
  }

  /** The scan over every held resource and its partners, keeping the best pair. */
  method Scan(total: Dict<real>, table: Table) returns (best: Option<Candidate>)
    ensures best == FoldAsWritten(None, Candidates(total, total, table))
  {
    best := None;
    var i := 0;
    while i < |total|
      invariant 0 <= i <= |total|
      invariant best == FoldAsWritten(None, Candidates(total, total[..i], table))
    {
      ScanEntryStep(total, table, i);
      best := ScanEntry(total, total[i], table, best);
      i := i + 1;
    }
    PrefixWhole(total);
  }

  /**
   * `ReactionsProcess.run`: without a resource state nothing changes; an
   * evacuating room clears its suggested reaction and keeps the current
   * one; otherwise the current reaction becomes the pair the scan as written
   * ends on, or nothing when no pair qualifies.
   */
  method Run(memory: LabMemory, roomData: Option<Dict<real>>, evacuating: bool, table: Table)
    modifies memory
    ensures roomData.None? ==> memory.currentReaction == old(memory.currentReaction) &&
                               memory.bestReaction == old(memory.bestReaction)
    ensures roomData.Some? && evacuating ==>
              memory.bestReaction.None? && memory.currentReaction == old(memory.currentReaction)
    ensures roomData.Some? && !evacuating ==>
              memory.currentReaction == PairOf(FoldAsWritten(None, Candidates(roomData.value, roomData.value, table))) &&
              memory.bestReaction == old(memory.bestReaction)
  {
    if roomData.None? {
      return;
    }
    var total := roomData.value;
    if evacuating {
      memory.bestReaction := None;
      return;
    }
    var best := Scan(total, table);
    memory.currentReaction := PairOf(best);
  }
}
