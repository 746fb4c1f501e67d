// The contract-name normal form under which positions are compared.

module PositionKeys {
  import opened Wrappers
  import opened JsText

  const SPACE: CodeUnit := 32
  const DASH: CodeUnit := 45
  const COLON: CodeUnit := 58

  predicate Lower(c: CodeUnit) { 97 <= c <= 122 }

  predicate Digit(c: CodeUnit) { 48 <= c <= 57 }

  /** Upper-casing of the letters contract names are made of. */
  function UpperUnit(c: CodeUnit): CodeUnit {
    if Lower(c) then c - 32 else c
  }

  function Upper(t: Text): (r: Text)
    ensures |r| == |t| && forall i :: 0 <= i < |t| ==> r[i] == UpperUnit(t[i])
  {
    seq(|t|, i requires 0 <= i < |t| => UpperUnit(t[i]))
  }

  /** Every run of white space becomes one space. */
  function Collapse(t: Text): Text {
    if t == [] then []
    else if !IsSpace(t[0]) then [t[0]] + Collapse(t[1..])
    else if |t| > 1 && IsSpace(t[1]) then Collapse(t[1..])
    else [SPACE] + Collapse(t[1..])
  }

  function Normalized(t: Text): Text {
    Collapse(Upper(Trim(t)))
  }

  /** Trimmed, without lower-case letters, single spaces only. */
  ghost predicate Normal(t: Text) {
    && (t != [] ==> !IsSpace(t[0]) && !IsSpace(t[|t| - 1]))
    && (forall i :: 0 <= i < |t| ==> !Lower(t[i]))
    && Tidy(t)
  }

  ghost predicate Tidy(t: Text) {
    forall i :: 0 <= i < |t| && IsSpace(t[i]) ==> t[i] == SPACE && (i + 1 < |t| ==> !IsSpace(t[i + 1]))
  }

  lemma {:induction false} CollapseTidies(t: Text)
    ensures Tidy(Collapse(t))
    ensures t != [] ==> Collapse(t) != [] && (IsSpace(Collapse(t)[0]) <==> IsSpace(t[0]))
    ensures (forall i :: 0 <= i < |t| ==> !Lower(t[i])) ==>
      forall i :: 0 <= i < |Collapse(t)| ==> !Lower(Collapse(t)[i])
    ensures t != [] && !IsSpace(t[|t| - 1]) ==> !IsSpace(Collapse(t)[|Collapse(t)| - 1])
  {
    if t != [] {
      var rest := t[1..];
      CollapseTidies(rest);
      assert (forall i :: 0 <= i < |t| ==> !Lower(t[i])) ==> forall i :: 0 <= i < |rest| ==> !Lower(rest[i]);
      if rest == [] {
        assert Collapse(rest) == [];
      } else {
        assert rest[|rest| - 1] == t[|t| - 1];
      }
    }
  }

  lemma {:induction false} CollapseOfTidy(t: Text)
    requires Tidy(t)
    ensures Collapse(t) == t
  {
    if t != [] {
      forall i | 0 <= i < |t[1..]| && IsSpace(t[1..][i])
        ensures t[1..][i] == SPACE && (i + 1 < |t[1..]| ==> !IsSpace(t[1..][i + 1]))
      {
        assert IsSpace(t[i + 1]);
      }
      CollapseOfTidy(t[1..]);
      assert t == [t[0]] + t[1..];
    }
  }

  lemma NormalizedIsNormal(t: Text)
    ensures Normal(Normalized(t))
  {
    var trimmed := Trim(t);
    var upper := Upper(trimmed);
    if upper != [] {
      assert upper[0] == UpperUnit(trimmed[0]) && upper[|upper| - 1] == UpperUnit(trimmed[|trimmed| - 1]);
    }
    CollapseTidies(upper);
  }

  lemma NormalizedOfNormal(t: Text)
    requires Normal(t)
    ensures Normalized(t) == t
  {
    TrimOfTrimmed(t);
    assert Upper(t) == t;
    CollapseOfTidy(t);
  }

  // ---------------------------------------------------------------------
  // Contract names

  predicate AllDigits(t: Text) {
    forall i :: 0 <= i < |t| ==> Digit(t[i])
  }

  predicate RootName(t: Text) {
    t != [] && forall i :: 0 <= i < |t| ==> Digit(t[i]) || 65 <= t[i] <= 90
  }

  function ValueOf(digits: Text): nat
    requires AllDigits(digits)
  {
    if digits == [] then 0 else ValueOf(digits[..|digits| - 1]) * 10 + (digits[|digits| - 1] - 48) as int
  }

  /** Three-letter month names. */
  function MonthNamed(t: Text): Option<nat> {
    if t == Ascii("JAN") then Some(1) else if t == Ascii("FEB") then Some(2)
    else if t == Ascii("MAR") then Some(3) else if t == Ascii("APR") then Some(4)
    else if t == Ascii("MAY") then Some(5) else if t == Ascii("JUN") then Some(6)
    else if t == Ascii("JUL") then Some(7) else if t == Ascii("AUG") then Some(8)
    else if t == Ascii("SEP") then Some(9) else if t == Ascii("OCT") then Some(10)
    else if t == Ascii("NOV") then Some(11) else if t == Ascii("DEC") then Some(12)
    else None
  }

  predicate YearDigits(t: Text) {
    AllDigits(t) && (|t| == 2 || |t| == 4)
  }

  function YearOf(t: Text): nat
    requires YearDigits(t)
  {
    if |t| == 2 then 2000 + ValueOf(t) else ValueOf(t)
  }

  datatype Contract = Contract(root: Text, year: nat, month: nat) | PlainName

  function SpaceAt(t: Text): (i: nat)
    ensures i <= |t| && (i < |t| ==> t[i] == SPACE)
    ensures i < |t| <==> SPACE in t
  {
    if t == [] || t[0] == SPACE then 0 else 1 + SpaceAt(t[1..])
  }

  /** The month and year after the root: `SEP26`, `SEP2026`, `9-26`, `09-2026`. */
  function Expiry(root: Text, t: Text): Contract {
    if |t| > 3 && MonthNamed(t[..3]).Some? && YearDigits(t[3..])
    then Contract(root, YearOf(t[3..]), MonthNamed(t[..3]).value)
    else if |t| > 2 && Digit(t[0]) && t[1] == DASH && YearDigits(t[2..])
    then Contract(root, YearOf(t[2..]), ValueOf(t[..1]))
    else if |t| > 3 && Digit(t[0]) && Digit(t[1]) && t[2] == DASH && YearDigits(t[3..])
    then Contract(root, YearOf(t[3..]), ValueOf(t[..2]))
    else PlainName
  }

  /** Root, white space, expiry; anything else is a plain name. */
  function ContractOf(t: Text): Contract {
    var i := SpaceAt(t);
    if i < |t| && RootName(t[..i]) then Expiry(t[..i], t[i + 1..]) else PlainName
  }

  function Digits(n: nat): (t: Text)
    ensures t != [] && AllDigits(t)
  {
    if n < 10 then [48 + n as CodeUnit] else Digits(n / 10) + [48 + (n % 10) as CodeUnit]
  }

  function PadTwo(t: Text): (r: Text)
    requires AllDigits(t)
    ensures AllDigits(r) && |r| >= |t|
  {
    if |t| < 2 then [48] + t else t
  }

  function PositionKey(t: Text): Text {
    match ContractOf(Normalized(t))
    case PlainName => Normalized(t)
    case Contract(root, year, month) => root + [COLON] + Digits(year) + [DASH] + PadTwo(Digits(month))
  }

  lemma ContractKeyIsNormal(root: Text, year: Text, month: Text)
    requires RootName(root) && AllDigits(year) && AllDigits(month) && month != []
    ensures
      var key := root + [COLON] + year + [DASH] + month;
      Normal(key) && SPACE !in key
  {
    var key := root + [COLON] + year + [DASH] + month;
    forall i | 0 <= i < |key| ensures !IsSpace(key[i]) && !Lower(key[i]) {
    }
  }

  /** Normalizing a key again changes nothing, although the aggregation does it twice. */
  lemma PositionKeyIsIdempotent(t: Text)
    ensures PositionKey(PositionKey(t)) == PositionKey(t)
  {
    var n := Normalized(t);
    NormalizedIsNormal(t);
    match ContractOf(n) {
      case PlainName =>
        NormalizedOfNormal(n);
      case Contract(root, year, month) =>
        ContractKeyIsNormal(root, Digits(year), PadTwo(Digits(month)));
        NormalizedOfNormal(PositionKey(t));
    }
  }
}
