// Choosing, phase after phase, which context receipt a journey rests on.

module GreedySelection {
  import opened Wrappers
  import opened AnalyticalCatalog
  import opened ContextReceipts

  /** The phases a context tool serves are the first eight of the catalog. */
  const CONTEXT_COUNT := 8

  function PrimaryTool(p: nat): Tool
    requires p < CONTEXT_COUNT
  {
    if p == 0 then GetContinuityContext
    else if p <= 4 then GetMarketContext
    else if p == 5 then GetMacroContext
    else if p == 6 then GetNewsContext
    else GetThesisEvolutionContext
  }

  predicate Primary(r: ContextReceipt, p: nat) {
    p < CONTEXT_COUNT && r.body.phase == Some(PhaseAt(p)) && r.body.tool == PrimaryTool(p)
  }

  /** The receipt belongs to a context phase after phase `p`, whichever tool produced it. */
  predicate Later(r: ContextReceipt, p: nat) {
    r.body.phase.Some? && p < Index(r.body.phase.value) < CONTEXT_COUNT
  }

  /** `first` is the first primary receipt of phase `p` after index `after`. */
  ghost predicate FirstPrimary(receipts: seq<ContextReceipt>, p: nat, after: int, first: nat) {
    && after < first < |receipts| && Primary(receipts[first], p)
    && forall k: nat {:trigger Primary(receipts[k], p)} :: after < k < first ==> !Primary(receipts[k], p)
  }

  /** `chosen` is the last primary receipt of phase `p` before any later phase follows the first one. */
  ghost predicate Chosen(receipts: seq<ContextReceipt>, p: nat, first: nat, chosen: nat) {
    && first <= chosen < |receipts| && Primary(receipts[chosen], p)
    && (forall k {:trigger Later(receipts[k], p)} :: first < k <= chosen ==> !Later(receipts[k], p))
    && (forall k {:trigger Primary(receipts[k], p)} :: chosen < k < |receipts| && Primary(receipts[k], p) ==>
          exists m {:trigger Later(receipts[m], p)} :: chosen < m < k && Later(receipts[m], p))
  }

  lemma ChosenIsLast(receipts: seq<ContextReceipt>, p: nat, first: nat, i: nat, k: nat)
    requires Chosen(receipts, p, first, i) && i < k < |receipts|
    ensures !Chosen(receipts, p, first, k)
  {
    if Primary(receipts[k], p) {
      var m :| i < m < k && Later(receipts[m], p);
    }
  }

  /** The selection is determined by the list and the cursor. */
  lemma ChoiceIsUnique(receipts: seq<ContextReceipt>, p: nat, after: nat, f: nat, i: nat, g: nat, k: nat)
    requires FirstPrimary(receipts, p, after, f) && Chosen(receipts, p, f, i)
    requires FirstPrimary(receipts, p, after, g) && Chosen(receipts, p, g, k)
    ensures f == g && i == k
  {
    assert f >= g && g >= f;
    if i < k { ChosenIsLast(receipts, p, f, i, k); }
    if k < i { ChosenIsLast(receipts, p, f, k, i); }
  }

  method SelectOrderedPrimary(receipts: seq<ContextReceipt>, p: nat, after: nat)
    returns (selected: Option<nat>, ghost first: nat)
    requires p < CONTEXT_COUNT
    ensures selected.None? <==> forall k :: after < k < |receipts| ==> !Primary(receipts[k], p)
    ensures selected.Some? ==>
      FirstPrimary(receipts, p, after, first) && Chosen(receipts, p, first, selected.value)
  {
    var start := after + 1;
    while start < |receipts| && !Primary(receipts[start], p)
      invariant after < start
      invariant forall k :: after < k < start && k < |receipts| ==> !Primary(receipts[k], p)
      decreases |receipts| - start
    {
      start := start + 1;
    }
    first := start;
    if start >= |receipts| { return None, first; }
    var selectedIndex := start;
    var index := start + 1;
    while index < |receipts|
      invariant start <= selectedIndex < index <= |receipts|
      invariant Primary(receipts[selectedIndex], p)
      invariant forall k :: start < k < index ==> !Later(receipts[k], p)
      invariant forall k :: selectedIndex < k < index ==> !Primary(receipts[k], p)
    {
      if Later(receipts[index], p) { break; }
      if Primary(receipts[index], p) { selectedIndex := index; }
      index := index + 1;
    }
    assert Chosen(receipts, p, first, selectedIndex) by {
      forall k | selectedIndex < k < |receipts| && Primary(receipts[k], p)
        ensures exists m :: selectedIndex < m < k && Later(receipts[m], p)
      {
        assert index < k by { assert !Later(receipts[k], p) by { PrimaryIsNotLater(receipts[k], p); } }
        assert Later(receipts[index], p);
      }
    }
    return Some(selectedIndex), first;
  }

  lemma PrimaryIsNotLater(r: ContextReceipt, p: nat)
    requires Primary(r, p)
    ensures !Later(r, p)
  {
  }

  lemma NextPrimaryIsLater(r: ContextReceipt, p: nat)
    requires Primary(r, p + 1)
    ensures Later(r, p)
  {
  }

  // ---------------------------------------------------------------------
  // The greedy choice is optimal

  /** Primary receipts of phases `p`, ..., `q - 1` occur in this order after index `after`. */
  ghost predicate Embeds(receipts: seq<ContextReceipt>, p: nat, q: nat, after: int)
    decreases q - p
  {
    p >= q || exists i: nat :: after < i < |receipts| && Primary(receipts[i], p) && Embeds(receipts, p + 1, q, i)
  }

  lemma EmbedsEarlier(receipts: seq<ContextReceipt>, p: nat, q: nat, earlier: int, after: int)
    requires Embeds(receipts, p, q, after) && earlier <= after
    ensures Embeds(receipts, p, q, earlier)
  {
  }

  /** Whatever can still be traversed from the first primary receipt can be traversed from the chosen one. */
  lemma ChoiceLosesNothing(receipts: seq<ContextReceipt>, p: nat, q: nat, first: nat, chosen: nat)
    requires Chosen(receipts, p, first, chosen)
    requires Embeds(receipts, p + 1, q, first)
    ensures Embeds(receipts, p + 1, q, chosen)
  {
    if p + 1 < q {
      var i: nat :| first < i < |receipts| && Primary(receipts[i], p + 1) && Embeds(receipts, p + 2, q, i);
      NextPrimaryIsLater(receipts[i], p);
      assert chosen < i;
    }
  }

  /** One greedy step neither creates nor destroys a traversal of the remaining phases. */
  lemma GreedyStep(receipts: seq<ContextReceipt>, p: nat, q: nat, after: nat, first: nat, chosen: nat)
    requires p < q && FirstPrimary(receipts, p, after, first) && Chosen(receipts, p, first, chosen)
    ensures Embeds(receipts, p, q, after) <==> Embeds(receipts, p + 1, q, chosen)
  {
    if Embeds(receipts, p, q, after) {
      var i: nat :| after < i < |receipts| && Primary(receipts[i], p) && Embeds(receipts, p + 1, q, i);
      assert first <= i;
      EmbedsEarlier(receipts, p + 1, q, first, i);
      ChoiceLosesNothing(receipts, p, q, first, chosen);
    }
    if Embeds(receipts, p + 1, q, chosen) {
      assert after < chosen < |receipts| && Primary(receipts[chosen], p);
    }
  }
}
