// What some minutes more change in a derivation: the buckets they complete, and those they spoil.

module ExtraMinutes {
  import opened Wrappers
  import opened Candles
  import opened WilderIndicators
  import opened BarDerivation

  ghost predicate Touched(extra: Minutes, t: int) {
    exists x :: x in extra && x.at == t
  }

  /** Some of the minutes fall into the bucket. */
  ghost predicate Touches(extra: Minutes, w: nat, start: int) {
    exists k: nat :: k < w && Touched(extra, Slot(start, k))
  }

  lemma UntouchedMinute(m: Minutes, extra: Minutes, t: int)
    requires !Touched(extra, t)
    ensures Once(m + extra, t) <==> Once(m, t)
    ensures Once(m, t) ==> MinuteAt(m + extra, t) == MinuteAt(m, t)
  {
    forall x: Minute | x.at == t ensures Sole(m + extra, x) <==> Sole(m, x) {
      assert extra[x] == 0;
    }
  }

  lemma TouchedMinute(m: Minutes, extra: Minutes, t: int)
    requires Touched(extra, t) && Once(m + extra, t)
    ensures !Once(m, t)
  {
    var x :| x in extra && x.at == t;
    assert Sole(m + extra, MinuteAt(m + extra, t)) && x in m + extra;
    assert x == MinuteAt(m + extra, t);
    forall y: Minute | y.at == t ensures y !in m {
      assert y in m ==> y in m + extra;
    }
  }

  /**
   * Minutes elsewhere leave a bucket as it is; minutes in it keep it from being complete both with and without them.
   */
  lemma CompleteWithExtra(m: Minutes, extra: Minutes, w: nat, start: int)
    ensures Touches(extra, w, start) ==> !(Complete(m, w, start) && Complete(m + extra, w, start))
    ensures !Touches(extra, w, start) ==> (Complete(m, w, start) <==> Complete(m + extra, w, start))
    ensures Complete(m, w, start) && Complete(m + extra, w, start) ==>
      CandlesIn(m, w, start) == CandlesIn(m + extra, w, start)
  {
    forall k: nat | k < w
      ensures Touched(extra, Slot(start, k)) ==> !(Once(m, Slot(start, k)) && Once(m + extra, Slot(start, k)))
      ensures !Touched(extra, Slot(start, k)) ==> (Once(m, Slot(start, k)) <==> Once(m + extra, Slot(start, k)))
      ensures !Touched(extra, Slot(start, k)) && Once(m, Slot(start, k)) ==>
        MinuteAt(m, Slot(start, k)) == MinuteAt(m + extra, Slot(start, k))
    {
      if Touched(extra, Slot(start, k)) {
        if Once(m + extra, Slot(start, k)) { TouchedMinute(m, extra, Slot(start, k)); }
      } else {
        UntouchedMinute(m, extra, Slot(start, k));
      }
    }
  }

  /** The bucket is complete with the extra minutes or without them, and some of them fall into it. */
  ghost predicate Disputed(m: Minutes, extra: Minutes, w: nat, start: int) {
    && Aligned(start, w) && Touches(extra, w, start)
    && (Complete(m, w, start) || Complete(m + extra, w, start))
  }

  ghost function BarOf(m: Minutes, w: nat, start: int): Bar
    requires w > 0 && Complete(m, w, start)
  {
    Bar(start, Aggregate(CandlesIn(m, w, start)), None, None)
  }

  lemma BarIsThere(m: Minutes, w: nat, bars: seq<Bar>, start: int)
    requires IsDerivation(m, w, bars)
    ensures Starts(bars, start) ==> w > 0 && Complete(m, w, start) && BarOf(m, w, start) in bars
  {
    if i :| 0 <= i < |bars| && bars[i].start == start {
      assert GoodBar(m, w, bars[i]);
    }
  }

  /**
   * A disputed bucket has a bar in exactly one of the two derivations; any other has the same bar in both or in
   * neither.
   */
  lemma BucketDiffersExactly(m: Minutes, extra: Minutes, w: nat, without: seq<Bar>, with: seq<Bar>, start: int)
    requires IsDerivation(m, w, without) && IsDerivation(m + extra, w, with)
    ensures Disputed(m, extra, w, start) <==> (Starts(without, start) != Starts(with, start))
    ensures Starts(without, start) && Starts(with, start) ==>
      w > 0 && Complete(m, w, start) && BarOf(m, w, start) in without && BarOf(m, w, start) in with
  {
    StartsExactly(m, w, without, start);
    StartsExactly(m + extra, w, with, start);
    BarIsThere(m, w, without, start);
    BarIsThere(m + extra, w, with, start);
    CompleteWithExtra(m, extra, w, start);
  }

  lemma EveryBarIsThere(m: Minutes, extra: Minutes, w: nat, without: seq<Bar>, with: seq<Bar>)
    requires IsDerivation(m, w, without) && IsDerivation(m + extra, w, with)
    requires forall start :: !Disputed(m, extra, w, start)
    ensures forall i :: 0 <= i < |without| ==> without[i] in with
    ensures forall i :: 0 <= i < |with| ==> with[i] in without
  {
    forall i | 0 <= i < |without| ensures without[i] in with {
      assert GoodBar(m, w, without[i]) && Starts(without, without[i].start);
      BucketDiffersExactly(m, extra, w, without, with, without[i].start);
      assert without[i] == BarOf(m, w, without[i].start);
    }
    forall i | 0 <= i < |with| ensures with[i] in without {
      var start := with[i].start;
      assert GoodBar(m + extra, w, with[i]) && Starts(with, start);
      BucketDiffersExactly(m, extra, w, without, with, start);
      StartsExactly(m, w, without, start);
      CompleteWithExtra(m, extra, w, start);
      assert with[i] == BarOf(m, w, start);
    }
  }

  /** Two derivations agree exactly when no bucket is disputed. */
  lemma DerivationsAgreeExactly(m: Minutes, extra: Minutes, w: nat, without: seq<Bar>, with: seq<Bar>)
    requires IsDerivation(m, w, without) && IsDerivation(m + extra, w, with)
    ensures without == with <==> forall start :: !Disputed(m, extra, w, start)
  {
    if without == with {
      forall start ensures !Disputed(m, extra, w, start) {
        BucketDiffersExactly(m, extra, w, without, with, start);
      }
    } else if forall start :: !Disputed(m, extra, w, start) {
      EveryBarIsThere(m, extra, w, without, with);
      AscendingIsDetermined(without, with);
    }
  }
}
