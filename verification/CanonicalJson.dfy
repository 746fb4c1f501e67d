// The canonical JSON text under every hash and HMAC: object keys sorted by code
// unit, no white space, strings as in section 7 of RFC 8259.

module CanonicalJson {
  import opened JsText

  /** Numbers are given by the literal `JSON.stringify` prints for them, objects by their entries in insertion order. */
  datatype Json =
    | Null
    | Boolean(value: bool)
    | Number(literal: Text)
    | String(text: Text)
    | Array(items: seq<Json>)
    | Object(entries: seq<Entry>)

  datatype Entry = Entry(key: Text, value: Json)

  // ---------------------------------------------------------------------
  // String literals

  const QUOTE: CodeUnit := 34
  const BACKSLASH: CodeUnit := 92
  const LETTER_U: CodeUnit := 117

  predicate IsHigh(c: CodeUnit) { 0xD800 <= c <= 0xDBFF }

  predicate IsLow(c: CodeUnit) { 0xDC00 <= c <= 0xDFFF }

  function HexDigit(n: CodeUnit): (c: CodeUnit)
    requires n < 16
  {
    if n < 10 then 48 + n else 87 + n
  }

  function HexValue(c: CodeUnit): (n: CodeUnit)
    ensures n < 16
  {
    if 48 <= c <= 57 then c - 48 else if 97 <= c <= 102 then c - 87 else 0
  }

  function UnicodeEscape(c: CodeUnit): (r: Text)
    ensures |r| == 6
  {
    [BACKSLASH, LETTER_U, HexDigit(c / 4096), HexDigit(c / 256 % 16), HexDigit(c / 16 % 16), HexDigit(c % 16)]
  }

  /** The two-character escapes: quotation mark, reverse solidus, and \b \f \n \r \t. */
  function ShortEscape(c: CodeUnit): (r: CodeUnit)
    ensures r != LETTER_U
  {
    if c == 8 then 98 else if c == 12 then 102 else if c == 10 then 110
    else if c == 13 then 114 else if c == 9 then 116 else if c == BACKSLASH then BACKSLASH else QUOTE
  }

  function ShortUnescape(c: CodeUnit): CodeUnit {
    if c == 98 then 8 else if c == 102 then 12 else if c == 110 then 10
    else if c == 114 then 13 else if c == 116 then 9 else c
  }

  predicate HasShortEscape(c: CodeUnit) {
    c in {8, 9, 10, 12, 13, QUOTE, BACKSLASH}
  }

  predicate StartsPair(t: Text) {
    |t| > 1 && IsHigh(t[0]) && IsLow(t[1])
  }

  /** How many code units the first output token stands for. */
  function Taken(t: Text): nat
    requires t != []
  {
    if StartsPair(t) then 2 else 1
  }

  /** Surrogate pairs stay as they are; lone surrogates and other control characters become \uXXXX. */
  function Token(t: Text): Text
    requires t != []
  {
    if StartsPair(t) then t[..2]
    else if HasShortEscape(t[0]) then [BACKSLASH, ShortEscape(t[0])]
    else if t[0] < 32 || IsHigh(t[0]) || IsLow(t[0]) then UnicodeEscape(t[0])
    else [t[0]]
  }

  function Escape(t: Text): Text {
    if t == [] then [] else Token(t) + Escape(t[Taken(t)..])
  }

  function Quoted(t: Text): (r: Text)
    ensures r != [] && r[0] == QUOTE
  {
    [QUOTE] + Escape(t) + [QUOTE]
  }

  datatype Read = Read(text: Text, rest: Text) | Unterminated

  function Prepend(c: CodeUnit, r: Read): Read {
    if r.Read? then Read([c] + r.text, r.rest) else r
  }

  /** Reads a string literal's contents up to its closing quotation mark. */
  function Unescape(t: Text): Read {
    if t == [] then Unterminated
    else if t[0] == QUOTE then Read([], t[1..])
    else if t[0] != BACKSLASH then Prepend(t[0], Unescape(t[1..]))
    else if |t| >= 2 && t[1] != LETTER_U then Prepend(ShortUnescape(t[1]), Unescape(t[2..]))
    else if |t| >= 6 then
      Prepend(HexValue(t[2]) * 4096 + HexValue(t[3]) * 256 + HexValue(t[4]) * 16 + HexValue(t[5]), Unescape(t[6..]))
    else Unterminated
  }

  lemma HexDigitReads(n: CodeUnit)
    requires n < 16
    ensures HexValue(HexDigit(n)) == n
  {
  }

  lemma FourHexDigits(c: CodeUnit)
    ensures c / 4096 < 16 && c / 4096 * 4096 + c / 256 % 16 * 256 + c / 16 % 16 * 16 + c % 16 == c
  {
    assert c / 16 / 16 == c / 256 && c / 256 / 16 == c / 4096;
  }

  lemma UnicodeEscapeReads(c: CodeUnit, t: Text)
    ensures Unescape(UnicodeEscape(c) + t) == Prepend(c, Unescape(t))
  {
    var s := UnicodeEscape(c) + t;
    assert s[0] == BACKSLASH && s[1] == LETTER_U && s[6..] == t;
    assert s[2] == HexDigit(c / 4096) && s[3] == HexDigit(c / 256 % 16);
    assert s[4] == HexDigit(c / 16 % 16) && s[5] == HexDigit(c % 16);
    FourHexDigits(c);
    HexDigitReads(c / 4096);
    HexDigitReads(c / 256 % 16);
    HexDigitReads(c / 16 % 16);
    HexDigitReads(c % 16);
  }

  lemma ShortEscapeReads(c: CodeUnit, t: Text)
    requires HasShortEscape(c)
    ensures Unescape([BACKSLASH, ShortEscape(c)] + t) == Prepend(c, Unescape(t))
  {
  }

  lemma PlainReads(c: CodeUnit, t: Text)
    requires c != QUOTE && c != BACKSLASH
    ensures Unescape([c] + t) == Prepend(c, Unescape(t))
  {
  }

  lemma PairReads(a: CodeUnit, b: CodeUnit, t: Text)
    requires IsHigh(a) && IsLow(b)
    ensures Unescape([a, b] + t) == Prepend(a, Prepend(b, Unescape(t)))
  {
  }

  lemma TokenReads(t: Text, tail: Text, rest: Text)
    requires t != [] && Unescape(tail) == Read(t[Taken(t)..], rest)
    ensures Unescape(Token(t) + tail) == Read(t, rest)
  {
    if StartsPair(t) {
      assert t[..2] == [t[0], t[1]];
      PairReads(t[0], t[1], tail);
      assert t == [t[0]] + ([t[1]] + t[2..]);
    } else {
      assert t == [t[0]] + t[1..];
      if HasShortEscape(t[0]) {
        ShortEscapeReads(t[0], tail);
      } else if t[0] < 32 || IsHigh(t[0]) || IsLow(t[0]) {
        UnicodeEscapeReads(t[0], tail);
      } else {
        PlainReads(t[0], tail);
      }
    }
  }

  lemma EndReads(rest: Text)
    ensures Unescape([QUOTE] + rest) == Read([], rest)
  {
    assert ([QUOTE] + rest)[1..] == rest;
  }

  lemma EscapeOfMore(t: Text, end: Text)
    requires t != []
    ensures Escape(t) + end == Token(t) + (Escape(t[Taken(t)..]) + end)
  {
  }

  /** Reading back an escaped text gives the text and leaves what follows the closing quotation mark. */
  lemma {:induction false} EscapeRoundTrip(t: Text, rest: Text)
    ensures Unescape(Escape(t) + ([QUOTE] + rest)) == Read(t, rest)
  {
    if t == [] {
      assert Escape(t) + ([QUOTE] + rest) == [QUOTE] + rest;
      EndReads(rest);
    } else {
      var u := t[Taken(t)..];
      EscapeRoundTrip(u, rest);
      EscapeOfMore(t, [QUOTE] + rest);
      TokenReads(t, Escape(u) + ([QUOTE] + rest), rest);
    }
  }

  lemma QuotedReads(t: Text, rest: Text)
    ensures Unescape((Quoted(t) + rest)[1..]) == Read(t, rest)
  {
    assert (Quoted(t) + rest)[1..] == Escape(t) + ([QUOTE] + rest);
    EscapeRoundTrip(t, rest);
  }

  lemma QuotedIsUnambiguous(a: Text, b: Text, r: Text, s: Text)
    requires Quoted(a) + r == Quoted(b) + s
    ensures a == b && r == s
  {
    QuotedReads(a, r);
    QuotedReads(b, s);
  }

  // ---------------------------------------------------------------------
  // Values

  predicate NumberUnit(c: CodeUnit) {
    48 <= c <= 57 || c in {43, 45, 46, 69, 101}
  }

  predicate NumberLiteral(t: Text) {
    && t != [] && (48 <= t[0] <= 57 || t[0] == 45)
    && forall i :: 0 <= i < |t| ==> NumberUnit(t[i])
  }

  predicate WellFormed(v: Json) {
    match v
    case Number(literal) => NumberLiteral(literal)
    case Array(items) => forall i :: 0 <= i < |items| ==> WellFormed(items[i])
    case Object(entries) => forall i :: 0 <= i < |entries| ==> WellFormed(entries[i].value)
    case _ => true
  }

  function Keys(entries: seq<Entry>): (ks: seq<Text>)
    ensures |ks| == |entries|
    ensures forall i :: 0 <= i < |ks| ==> ks[i] == entries[i].key
  {
    seq(|entries|, i requires 0 <= i < |entries| => entries[i].key)
  }

  /** The entry that holds a key; keys of one object are distinct. */
  function At(entries: seq<Entry>, key: Text): (i: nat)
    requires key in Keys(entries)
    ensures i < |entries| && entries[i].key == key
  {
    if entries[0].key == key then 0
    else
      assert key in Keys(entries[1..]) by {
        var k :| 0 <= k < |Keys(entries)| && Keys(entries)[k] == key;
        assert Keys(entries[1..])[k - 1] == key;
      }
      1 + At(entries[1..], key)
  }

  const COMMA: CodeUnit := 44
  const COLON: CodeUnit := 58

  function Separator(first: bool): Text {
    if first then [] else [COMMA]
  }

  function Print(v: Json): Text
    decreases v, 1, 0
  {
    match v
    case Null => Ascii("null")
    case Boolean(b) => if b then Ascii("true") else Ascii("false")
    case Number(literal) => literal
    case String(text) => Quoted(text)
    case Array(items) => [91] + PrintItems(v, 0)
    case Object(entries) =>
      SortedKeysOccur(entries);
      [123] + PrintMembers(v, SortedUnique(Keys(entries)), true)
  }

  lemma SortedKeysOccur(entries: seq<Entry>)
    ensures forall k :: k in SortedUnique(Keys(entries)) <==> k in Keys(entries)
  {
    forall k ensures k in SortedUnique(Keys(entries)) <==> k in Keys(entries) {
      SortedUniqueMembers(Keys(entries), k);
    }
  }

  /** The items from index `i` on, and the closing bracket. */
  function PrintItems(v: Json, i: nat): Text
    requires v.Array? && i <= |v.items|
    decreases v, 0, |v.items| - i
  {
    if i == |v.items| then [93]
    else Separator(i == 0) + Print(v.items[i]) + PrintItems(v, i + 1)
  }

  /** The members under the given keys, and the closing brace. */
  function PrintMembers(v: Json, keys: seq<Text>, first: bool): Text
    requires v.Object? && forall k :: k in keys ==> k in Keys(v.entries)
    decreases v, 0, |keys|
  {
    if keys == [] then [125]
    else
      assert keys[0] in keys;
      Separator(first) + Quoted(keys[0]) + [COLON] + Print(v.entries[At(v.entries, keys[0])].value)
        + PrintMembers(v, keys[1..], false)
  }

  /** Equality of JSON values up to the order of object keys. */
  ghost predicate Same(a: Json, b: Json)
    decreases a
  {
    match a
    case Array(items) =>
      b.Array? && |items| == |b.items| && forall i :: 0 <= i < |items| ==> Same(items[i], b.items[i])
    case Object(entries) =>
      && b.Object?
      && (forall k :: k in Keys(entries) <==> k in Keys(b.entries))
      && forall k :: k in Keys(entries) && k in Keys(b.entries) ==>
           Same(entries[At(entries, k)].value, b.entries[At(b.entries, k)].value)
    case _ => a == b
  }

  // ---------------------------------------------------------------------
  // Equal values print alike

  lemma {:induction false} SameItemsPrintAlike(a: Json, b: Json, i: nat)
    requires a.Array? && b.Array? && Same(a, b) && i <= |a.items|
    ensures PrintItems(a, i) == PrintItems(b, i)
    decreases a, 0, |a.items| - i
  {
    if i < |a.items| {
      SamePrintAlike(a.items[i], b.items[i]);
      SameItemsPrintAlike(a, b, i + 1);
    }
  }

  lemma {:induction false} SameMembersPrintAlike(a: Json, b: Json, keys: seq<Text>, first: bool)
    requires a.Object? && b.Object? && Same(a, b)
    requires forall k :: k in keys ==> k in Keys(a.entries) && k in Keys(b.entries)
    ensures PrintMembers(a, keys, first) == PrintMembers(b, keys, first)
    decreases a, 0, |keys|
  {
    if keys != [] {
      assert keys[0] in keys;
      SamePrintAlike(a.entries[At(a.entries, keys[0])].value, b.entries[At(b.entries, keys[0])].value);
      SameMembersPrintAlike(a, b, keys[1..], false);
    }
  }

  lemma {:induction false} SamePrintAlike(a: Json, b: Json)
    requires Same(a, b)
    ensures Print(a) == Print(b)
    decreases a, 1, 0
  {
    match a {
      case Array(items) =>
        SameItemsPrintAlike(a, b, 0);
      case Object(entries) =>
        SortedKeysOccur(entries);
        SortedKeysOccur(b.entries);
        SortedUniqueIsCanonical(Keys(entries), Keys(b.entries));
        SameMembersPrintAlike(a, b, SortedUnique(Keys(entries)), true);
      case _ =>
    }
  }

  // ---------------------------------------------------------------------
  // Values that print alike are equal

  predicate Delimited(rest: Text) {
    rest == [] || !NumberUnit(rest[0])
  }

  lemma {:induction false} NumberIsUnambiguous(a: Text, b: Text, r: Text, s: Text)
    requires (forall i :: 0 <= i < |a| ==> NumberUnit(a[i])) && (forall i :: 0 <= i < |b| ==> NumberUnit(b[i]))
    requires Delimited(r) && Delimited(s) && a + r == b + s
    ensures a == b && r == s
  {
    assert a == [] ==> a + r == r;
    assert b == [] ==> b + s == s;
    assert a != [] ==> (a + r)[0] == a[0];
    assert b != [] ==> (b + s)[0] == b[0];
    if a != [] && b != [] {
      assert (a + r)[1..] == a[1..] + r && (b + s)[1..] == b[1..] + s;
      NumberIsUnambiguous(a[1..], b[1..], r, s);
      assert a == [a[0]] + a[1..] && b == [b[0]] + b[1..];
    }
  }

  /** The first code unit tells what kind of value follows. */
  function Kind(v: Json): nat {
    match v
    case Null => 0
    case Boolean(b) => if b then 1 else 2
    case Number(_) => 3
    case String(_) => 4
    case Array(_) => 5
    case Object(_) => 6
  }

  function KindOfUnit(c: CodeUnit): nat {
    if c == 110 then 0 else if c == 116 then 1 else if c == 102 then 2 else if c == QUOTE then 4
    else if c == 91 then 5 else if c == 123 then 6 else 3
  }

  lemma FirstUnitTellsKind(v: Json, rest: Text)
    requires WellFormed(v)
    ensures Print(v) != [] && (Print(v) + rest)[0] == Print(v)[0]
    ensures KindOfUnit(Print(v)[0]) == Kind(v)
    ensures Print(v)[0] != 93 && Print(v)[0] != COMMA && Print(v)[0] != 125
  {
  }

  lemma ItemsStart(v: Json, i: nat, rest: Text)
    requires v.Array? && i <= |v.items| && WellFormed(v)
    ensures PrintItems(v, i) != [] && (PrintItems(v, i) + rest)[0] == PrintItems(v, i)[0]
    ensures PrintItems(v, i)[0] == 93 <==> i == |v.items|
    ensures i > 0 ==> Delimited(PrintItems(v, i) + rest)
  {
    if i < |v.items| {
      FirstUnitTellsKind(v.items[i], PrintItems(v, i + 1));
    }
  }

  /** The text after an item's separator, item by item. */
  /** What follows an opening bracket, brace or whole word. */
  lemma Dropped(x: Text, y: Text, r: Text)
    ensures (x + y + r)[|x|..] == y + r
  {
  }

  lemma ItemsSplit(v: Json, i: nat, rest: Text)
    requires v.Array? && i < |v.items|
    ensures (PrintItems(v, i) + rest)[|Separator(i == 0)|..] == Print(v.items[i]) + (PrintItems(v, i + 1) + rest)
  {
    var separator, item, more := Separator(i == 0), Print(v.items[i]), PrintItems(v, i + 1);
    assert PrintItems(v, i) + rest == separator + item + (more + rest);
    Dropped(separator, item, more + rest);
  }

  /** Equal item lists both end here, or both go on with an item. */
  lemma ItemsStep(a: Json, b: Json, i: nat, r: Text, s: Text)
    requires a.Array? && b.Array? && WellFormed(a) && WellFormed(b) && i <= |a.items| && i <= |b.items|
    requires PrintItems(a, i) + r == PrintItems(b, i) + s
    ensures i == |a.items| <==> i == |b.items|
    ensures i == |a.items| ==> r == s
    ensures i < |a.items| ==>
      Delimited(PrintItems(a, i + 1) + r) && Delimited(PrintItems(b, i + 1) + s)
    ensures i < |a.items| ==>
      Print(a.items[i]) + (PrintItems(a, i + 1) + r) == Print(b.items[i]) + (PrintItems(b, i + 1) + s)
  {
    ItemsStart(a, i, r);
    ItemsStart(b, i, s);
    if i == |a.items| {
      assert (PrintItems(a, i) + r)[1..] == r && (PrintItems(b, i) + s)[1..] == s;
    } else {
      ItemsSplit(a, i, r);
      ItemsSplit(b, i, s);
      ItemsStart(a, i + 1, r);
      ItemsStart(b, i + 1, s);
    }
  }

  lemma ItemWellFormed(v: Json, i: nat)
    requires v.Array? && WellFormed(v) && i < |v.items|
    ensures WellFormed(v.items[i])
  {
  }

  ghost predicate SameItems(a: seq<Json>, b: seq<Json>, i: nat) {
    |a| == |b| && forall k :: i <= k < |a| ==> Same(a[k], b[k])
  }

  lemma {:induction false} ItemsAreUnambiguous(a: Json, b: Json, i: nat, r: Text, s: Text)
    requires a.Array? && b.Array? && WellFormed(a) && WellFormed(b) && i <= |a.items| && i <= |b.items|
    requires PrintItems(a, i) + r == PrintItems(b, i) + s
    ensures SameItems(a.items, b.items, i) && r == s
    decreases a, 0, |a.items| - i
  {
    ItemsStep(a, b, i, r, s);
    if i < |a.items| {
      ItemWellFormed(a, i);
      ItemWellFormed(b, i);
      var x, y := PrintItems(a, i + 1) + r, PrintItems(b, i + 1) + s;
      ValueIsUnambiguous(a.items[i], b.items[i], x, y);
      ItemsAreUnambiguous(a, b, i + 1, r, s);
    }
  }

  lemma MembersStart(v: Json, keys: seq<Text>, first: bool, rest: Text)
    requires v.Object? && forall k :: k in keys ==> k in Keys(v.entries)
    ensures PrintMembers(v, keys, first) != []
    ensures (PrintMembers(v, keys, first) + rest)[0] == PrintMembers(v, keys, first)[0]
    ensures PrintMembers(v, keys, first)[0] == 125 <==> keys == []
    ensures !first ==> Delimited(PrintMembers(v, keys, first) + rest)
  {
  }

  lemma Regrouped(x: Text, q: Text, c: Text, p: Text, m: Text, r: Text)
    ensures (x + q + c + p + m + r)[|x|..] == q + (c + (p + (m + r)))
  {
  }

  lemma MembersSplit(v: Json, keys: seq<Text>, first: bool, rest: Text)
    requires v.Object? && keys != [] && forall k :: k in keys ==> k in Keys(v.entries)
    ensures keys[0] in keys
    ensures
      var value := v.entries[At(v.entries, keys[0])].value;
      (PrintMembers(v, keys, first) + rest)[|Separator(first)|..]
      == Quoted(keys[0]) + ([COLON] + (Print(value) + (PrintMembers(v, keys[1..], false) + rest)))
  {
    assert keys[0] in keys;
    var value := v.entries[At(v.entries, keys[0])].value;
    Regrouped(Separator(first), Quoted(keys[0]), [COLON], Print(value), PrintMembers(v, keys[1..], false), rest);
  }

  /** The first keys are the same, and what follows them prints the same. */
  lemma FirstMembersMeet(a: Json, ka: seq<Text>, b: Json, kb: seq<Text>, first: bool, r: Text, s: Text)
    requires a.Object? && b.Object? && ka != [] && kb != []
    requires forall k :: k in ka ==> k in Keys(a.entries)
    requires forall k :: k in kb ==> k in Keys(b.entries)
    requires PrintMembers(a, ka, first) + r == PrintMembers(b, kb, first) + s
    ensures ka[0] == kb[0]
    ensures
      var va, vb := a.entries[At(a.entries, ka[0])].value, b.entries[At(b.entries, kb[0])].value;
      Print(va) + (PrintMembers(a, ka[1..], false) + r) == Print(vb) + (PrintMembers(b, kb[1..], false) + s)
  {
    MembersSplit(a, ka, first, r);
    MembersSplit(b, kb, first, s);
    var va, vb := a.entries[At(a.entries, ka[0])].value, b.entries[At(b.entries, kb[0])].value;
    var ta, tb := PrintMembers(a, ka[1..], false) + r, PrintMembers(b, kb[1..], false) + s;
    QuotedIsUnambiguous(ka[0], kb[0], [COLON] + (Print(va) + ta), [COLON] + (Print(vb) + tb));
    assert ([COLON] + (Print(va) + ta))[1..] == Print(va) + ta;
    assert ([COLON] + (Print(vb) + tb))[1..] == Print(vb) + tb;
  }

  lemma SameFirstAndRest(ka: seq<Text>, kb: seq<Text>)
    requires ka != [] && kb != [] && ka[0] == kb[0] && ka[1..] == kb[1..]
    ensures ka == kb && forall k :: k in ka ==> k == ka[0] || k in ka[1..]
  {
    assert ka == [ka[0]] + ka[1..] && kb == [kb[0]] + kb[1..];
  }

  lemma {:induction false} MembersAreUnambiguous(
    a: Json, ka: seq<Text>, b: Json, kb: seq<Text>, first: bool, r: Text, s: Text)
    requires a.Object? && b.Object? && WellFormed(a) && WellFormed(b)
    requires forall k :: k in ka ==> k in Keys(a.entries)
    requires forall k :: k in kb ==> k in Keys(b.entries)
    requires PrintMembers(a, ka, first) + r == PrintMembers(b, kb, first) + s
    ensures ka == kb && r == s
    ensures forall k :: k in ka ==>
      Same(a.entries[At(a.entries, k)].value, b.entries[At(b.entries, k)].value)
    decreases a, 0, |ka|
  {
    MembersStart(a, ka, first, r);
    MembersStart(b, kb, first, s);
    if ka == [] {
      assert (PrintMembers(a, ka, first) + r)[1..] == r && (PrintMembers(b, kb, first) + s)[1..] == s;
    } else {
      var va, vb := a.entries[At(a.entries, ka[0])].value, b.entries[At(b.entries, kb[0])].value;
      var ta, tb := PrintMembers(a, ka[1..], false) + r, PrintMembers(b, kb[1..], false) + s;
      FirstMembersMeet(a, ka, b, kb, first, r, s);
      MembersStart(a, ka[1..], false, r);
      MembersStart(b, kb[1..], false, s);
      ValueIsUnambiguous(va, vb, ta, tb);
      MembersAreUnambiguous(a, ka[1..], b, kb[1..], false, r, s);
      SameFirstAndRest(ka, kb);
    }
  }

  lemma ArrayIsUnambiguous(a: Json, b: Json, r: Text, s: Text)
    requires a.Array? && b.Array? && WellFormed(a) && WellFormed(b)
    requires Print(a) + r == Print(b) + s
    ensures Same(a, b) && r == s
    decreases a, 1, 0
  {
    Dropped([91], PrintItems(a, 0), r);
    Dropped([91], PrintItems(b, 0), s);
    ItemsAreUnambiguous(a, b, 0, r, s);
  }

  lemma ObjectIsUnambiguous(a: Json, b: Json, r: Text, s: Text)
    requires a.Object? && b.Object? && WellFormed(a) && WellFormed(b)
    requires Print(a) + r == Print(b) + s
    ensures Same(a, b) && r == s
    decreases a, 1, 0
  {
    SortedKeysOccur(a.entries);
    SortedKeysOccur(b.entries);
    var ka, kb := SortedUnique(Keys(a.entries)), SortedUnique(Keys(b.entries));
    Dropped([123], PrintMembers(a, ka, true), r);
    Dropped([123], PrintMembers(b, kb, true), s);
    MembersAreUnambiguous(a, ka, b, kb, true, r, s);
  }

  lemma WordIsUnambiguous(x: Text, r: Text, s: Text)
    requires x + r == x + s
    ensures r == s
  {
    assert (x + r)[|x|..] == r && (x + s)[|x|..] == s;
  }

  /** A printed value can be read off the front of a text in one way only. */
  lemma {:induction false} ValueIsUnambiguous(a: Json, b: Json, r: Text, s: Text)
    requires WellFormed(a) && WellFormed(b) && Delimited(r) && Delimited(s)
    requires Print(a) + r == Print(b) + s
    ensures Same(a, b) && r == s
    decreases a, 2, 0
  {
    FirstUnitTellsKind(a, r);
    FirstUnitTellsKind(b, s);
    match a {
      case Number(literal) =>
        NumberIsUnambiguous(literal, b.literal, r, s);
      case String(text) =>
        QuotedIsUnambiguous(text, b.text, r, s);
      case Array(items) =>
        ArrayIsUnambiguous(a, b, r, s);
      case Object(entries) =>
        ObjectIsUnambiguous(a, b, r, s);
      case _ =>
        assert a == b;
        WordIsUnambiguous(Print(a), r, s);
    }
  }

  /** Two JSON values print the same text exactly when they are equal up to the order of object keys. */
  lemma PrintIsCanonical(a: Json, b: Json)
    requires WellFormed(a) && WellFormed(b)
    ensures Print(a) == Print(b) <==> Same(a, b)
  {
    if Same(a, b) {
      SamePrintAlike(a, b);
    }
    if Print(a) == Print(b) {
      assert Print(a) + [] == Print(b) + [];
      ValueIsUnambiguous(a, b, [], []);
    }
  }
}
