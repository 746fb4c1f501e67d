// JavaScript strings: sequences of UTF-16 code units, with the few string
// operations the desk code relies on.

module JsText {
  newtype CodeUnit = x: int | 0 <= x < 0x1_0000

  type Text = seq<CodeUnit>

  /** The characters `String.prototype.trim` removes and `\s` matches. */
  predicate IsSpace(c: CodeUnit) {
    || 9 <= c <= 13
    || c in {32, 160, 0x1680, 0x2028, 0x2029, 0x202F, 0x205F, 0x3000, 0xFEFF}
    || 0x2000 <= c <= 0x200A
  }

  /** The code units of a text of ASCII characters. */
  function Ascii(s: string): Text
    requires forall i :: 0 <= i < |s| ==> s[i] <= '~'
  {
    seq(|s|, i requires 0 <= i < |s| => s[i] as int as CodeUnit)
  }

  function TrimStart(t: Text): (r: Text)
    ensures |r| <= |t|
    ensures r != [] ==> !IsSpace(r[0])
    ensures r == [] <==> forall i :: 0 <= i < |t| ==> IsSpace(t[i])
  {
    if t != [] && IsSpace(t[0]) then TrimStart(t[1..]) else t
  }

  function TrimEnd(t: Text): (r: Text)
    ensures r <= t
    ensures r != [] ==> !IsSpace(r[|r| - 1])
    ensures r == [] <==> forall i :: 0 <= i < |t| ==> IsSpace(t[i])
  {
    if t != [] && IsSpace(t[|t| - 1]) then TrimEnd(t[..|t| - 1]) else t
  }

  function Trim(t: Text): (r: Text)
    ensures |r| <= |t|
    ensures r != [] ==> !IsSpace(r[0]) && !IsSpace(r[|r| - 1])
  {
    TrimEnd(TrimStart(t))
  }

  /** Trimming what is already trimmed changes nothing. */
  lemma TrimOfTrimmed(t: Text)
    requires t != [] ==> !IsSpace(t[0]) && !IsSpace(t[|t| - 1])
    ensures Trim(t) == t
  {
  }

  /** The order of `Array.prototype.sort` without a comparator: code unit by code unit. */
  predicate Before(a: Text, b: Text) {
    b != [] && (a == [] || a[0] < b[0] || (a[0] == b[0] && Before(a[1..], b[1..])))
  }

  lemma {:induction false} BeforeIsTotal(a: Text, b: Text)
    ensures Before(a, b) || a == b || Before(b, a)
  {
    if a != [] && b != [] && a[0] == b[0] {
      BeforeIsTotal(a[1..], b[1..]);
      assert a == [a[0]] + a[1..] && b == [b[0]] + b[1..];
    }
  }

  lemma {:induction false} BeforeIsTransitive(a: Text, b: Text, c: Text)
    requires Before(a, b) && Before(b, c)
    ensures Before(a, c)
  {
    if a != [] && a[0] == b[0] && b[0] == c[0] {
      BeforeIsTransitive(a[1..], b[1..], c[1..]);
    }
  }

  lemma {:induction false} BeforeIsIrreflexive(a: Text)
    ensures !Before(a, a)
  {
    if a != [] {
      BeforeIsIrreflexive(a[1..]);
    }
  }

  ghost predicate Ascending(ts: seq<Text>) {
    forall i, j :: 0 <= i < j < |ts| ==> Before(ts[i], ts[j])
  }

  function InsertUnique(t: Text, ts: seq<Text>): seq<Text> {
    if ts == [] then [t]
    else if Before(t, ts[0]) then [t] + ts
    else if t == ts[0] then ts
    else [ts[0]] + InsertUnique(t, ts[1..])
  }

  lemma {:induction false} InsertUniqueMembers(t: Text, ts: seq<Text>, x: Text)
    ensures x in InsertUnique(t, ts) <==> x == t || x in ts
  {
    if ts != [] {
      InsertUniqueMembers(t, ts[1..], x);
      assert x in ts <==> x == ts[0] || x in ts[1..];
    }
  }

  lemma {:induction false} InsertUniqueAscends(t: Text, ts: seq<Text>)
    requires Ascending(ts)
    ensures Ascending(InsertUnique(t, ts))
  {
    if ts != [] {
      if Before(t, ts[0]) {
        forall j | 0 < j < |ts| ensures Before(t, ts[j]) {
          BeforeIsTransitive(t, ts[0], ts[j]);
        }
      } else if t != ts[0] {
        BeforeIsTotal(t, ts[0]);
        InsertUniqueAscends(t, ts[1..]);
        var rest := InsertUnique(t, ts[1..]);
        forall j | 0 <= j < |rest| ensures Before(ts[0], rest[j]) {
          assert rest[j] in rest;
          InsertUniqueMembers(t, ts[1..], rest[j]);
          if rest[j] != t {
            var k :| 0 <= k < |ts[1..]| && ts[1..][k] == rest[j];
            assert ts[k + 1] == rest[j];
          }
        }
      }
    }
  }

  /** `[...new Set(ts)].sort()`. */
  function SortedUnique(ts: seq<Text>): seq<Text> {
    if ts == [] then [] else InsertUnique(ts[0], SortedUnique(ts[1..]))
  }

  lemma {:induction false} SortedUniqueMembers(ts: seq<Text>, x: Text)
    ensures x in SortedUnique(ts) <==> x in ts
  {
    if ts != [] {
      SortedUniqueMembers(ts[1..], x);
      InsertUniqueMembers(ts[0], SortedUnique(ts[1..]), x);
      assert x in ts <==> x == ts[0] || x in ts[1..];
    }
  }

  lemma {:induction false} SortedUniqueAscends(ts: seq<Text>)
    ensures Ascending(SortedUnique(ts))
  {
    if ts != [] {
      SortedUniqueAscends(ts[1..]);
      InsertUniqueAscends(ts[0], SortedUnique(ts[1..]));
    }
  }

  /** Two ascending lists with the same elements are the same list. */
  lemma {:induction false} AscendingIsDetermined(a: seq<Text>, b: seq<Text>)
    requires Ascending(a) && Ascending(b)
    requires forall x :: x in a <==> x in b
    ensures a == b
  {
    assert b != [] ==> b[0] in b;
    if a != [] {
      assert a[0] in b && b != [] && b[0] in a;
      if a[0] != b[0] {
        var i :| 0 <= i < |b| && b[i] == a[0];
        var j :| 0 <= j < |a| && a[j] == b[0];
        assert Before(b[0], a[0]) && Before(a[0], b[0]);
        BeforeIsTransitive(a[0], b[0], a[0]);
        BeforeIsIrreflexive(a[0]);
        assert false;
      }
      forall x ensures x in a[1..] <==> x in b[1..] {
        if x in a[1..] || x in b[1..] {
          TailHasNoHead(a, x);
          TailHasNoHead(b, x);
          assert x in a && x in b;
        }
      }
      AscendingIsDetermined(a[1..], b[1..]);
      assert a == [a[0]] + a[1..] && b == [b[0]] + b[1..];
    }
  }

  lemma TailHasNoHead(ts: seq<Text>, x: Text)
    requires Ascending(ts) && ts != []
    ensures x in ts[1..] <==> x in ts && x != ts[0]
  {
    if x in ts[1..] {
      var k :| 0 <= k < |ts[1..]| && ts[1..][k] == x;
      assert Before(ts[0], ts[k + 1]);
      BeforeIsIrreflexive(ts[0]);
    }
    if x in ts && x != ts[0] {
      var k :| 0 <= k < |ts| && ts[k] == x;
      assert ts[1..][k - 1] == x;
    }
  }

  /** The sorted code list depends only on which codes occur. */
  lemma SortedUniqueIsCanonical(a: seq<Text>, b: seq<Text>)
    requires forall x :: x in a <==> x in b
    ensures SortedUnique(a) == SortedUnique(b)
  {
    SortedUniqueAscends(a);
    SortedUniqueAscends(b);
    forall x ensures x in SortedUnique(a) <==> x in SortedUnique(b) {
      SortedUniqueMembers(a, x);
      SortedUniqueMembers(b, x);
    }
    AscendingIsDetermined(SortedUnique(a), SortedUnique(b));
  }
}
