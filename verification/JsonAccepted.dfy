/** The scanner accepts exactly the texts that write a JSON value: first, everything written is accepted. */
module JsonAccepted {
  import opened Wrappers
  import opened Layout
  import opened JsonText
  import J = Json

  // ---- The scanner, step by step -------------------------------------------------------------------------

  lemma ReadsArray(s: string, i: nat, j: nat, e: nat)
    requires i < |s| && s[i] == '[' && J.Space(s, i + 1) == j < |s| && s[j] != ']' && J.Elements(s, j) == Some(e)
    ensures J.Value(s, i) == Some(e)
  {
  }

  lemma ReadsObject(s: string, i: nat, j: nat, e: nat)
    requires i < |s| && s[i] == '{' && J.Space(s, i + 1) == j < |s| && s[j] != '}' && J.Members(s, j) == Some(e)
    ensures J.Value(s, i) == Some(e)
  {
  }

  lemma ReadsString(s: string, i: nat, e: nat)
    requires i < |s| && s[i] == '"' && J.Str(s, i + 1) == Some(e)
    ensures J.Value(s, i) == Some(e)
  {
  }

  lemma ReadsNumber(s: string, i: nat, e: nat)
    requires i < |s| && (J.IsDigit(s[i]) || s[i] == '-') && J.Number(s, i) == Some(e)
    ensures J.Value(s, i) == Some(e)
  {
  }

  /** An element, and the bracket or comma behind it. */
  lemma ReadsElement(s: string, v: nat, a: nat, e: nat)
    requires v <= |s| && J.Value(s, v) == Some(a) && a <= |s| && J.Space(s, a) == e < |s|
    requires s[e] == ']' || s[e] == ','
    ensures J.Elements(s, v) == if s[e] == ']' then Some(e + 1) else J.Elements(s, J.Space(s, e + 1))
  {
  }

  lemma ReadsMember(s: string, q: nat, g: nat, m: nat, a: nat)
    requires q < |s| && s[q] == '"' && J.Str(s, q + 1) == Some(g) && g <= |s|
    requires J.Space(s, g) == m < |s| && s[m] == ':' && J.Value(s, J.Space(s, m + 1)) == Some(a)
    ensures J.Member(s, q) == Some(a)
  {
  }

  lemma ReadsMagnitude(s: string, i: nat, f: nat, e: nat)
    requires i < |s| && J.IsDigit(s[i]) && (if s[i] == '0' then i + 1 else J.Digits(s, i)) == f <= |s|
    requires J.Fraction(s, f) == e <= |s|
    ensures J.Magnitude(s, i) == Some(J.Exponent(s, e))
  {
  }

  /** Where an element or member starts and ends, and the delimiter behind it. */
  datatype Spot = Spot(start: nat, end: nat, delimiter: nat)

  /** One behind the other, with commas between and this character at the end. */
  predicate Chained(s: string, spots: seq<Spot>, close: char) {
    && spots != []
    && (forall k :: 0 <= k < |spots| ==>
          spots[k].delimiter < |s| && s[spots[k].delimiter] == (if k == |spots| - 1 then close else ','))
    && (forall k :: 0 < k < |spots| ==> spots[k].start == J.Space(s, spots[k - 1].delimiter + 1))
  }

  lemma ChainGrows(s: string, spot: Spot, more: seq<Spot>, close: char)
    requires Chained(s, more, close) && spot.delimiter < |s| && s[spot.delimiter] == ','
    requires more[0].start == J.Space(s, spot.delimiter + 1)
    ensures Chained(s, [spot] + more, close)
  {
    var all := [spot] + more;
    forall k | 0 < k < |all| ensures all[k].start == J.Space(s, all[k - 1].delimiter + 1) {
      assert all[k] == more[k - 1];
      if k > 1 { assert all[k - 1] == more[k - 2]; }
    }
  }

  predicate ItemSpot(s: string, p: Spot) {
    p.start <= |s| && J.Value(s, p.start) == Some(p.end) && p.end <= |s| && J.Space(s, p.end) == p.delimiter < |s|
  }

  /** The elements of an array, one behind the other. */
  predicate ItemSpots(s: string, spots: seq<Spot>) {
    Chained(s, spots, ']') && forall k :: 0 <= k < |spots| ==> ItemSpot(s, spots[k])
  }

  lemma {:induction false} ElementsAlong(s: string, spots: seq<Spot>, k: nat)
    requires ItemSpots(s, spots) && k < |spots|
    ensures J.Elements(s, spots[k].start) == Some(spots[|spots| - 1].delimiter + 1)
    decreases |spots| - k
  {
    ReadsElement(s, spots[k].start, spots[k].end, spots[k].delimiter);
    if k == |spots| - 1 {
    } else {
      ElementsAlong(s, spots, k + 1);
    }
  }

  lemma ReadsItems(s: string, i: nat, spots: seq<Spot>)
    requires ItemSpots(s, spots) && i < |s| && s[i] == '['
    requires J.Space(s, i + 1) == spots[0].start < |s| && s[spots[0].start] != ']'
    ensures J.Value(s, i) == Some(spots[|spots| - 1].delimiter + 1)
  {
    ElementsAlong(s, spots, 0);
    ReadsArray(s, i, spots[0].start, spots[|spots| - 1].delimiter + 1);
  }

  lemma SpotsGrow(s: string, spot: Spot, more: seq<Spot>)
    requires ItemSpots(s, more) && ItemSpot(s, spot) && s[spot.delimiter] == ','
    requires more[0].start == J.Space(s, spot.delimiter + 1)
    ensures ItemSpots(s, [spot] + more)
  {
    ChainGrows(s, spot, more, ']');
  }

  predicate MemberSpot(s: string, p: Spot) {
    p.start < |s| && J.Member(s, p.start) == Some(p.end) && p.end <= |s| && J.Space(s, p.end) == p.delimiter < |s|
  }

  /** The members of an object, one behind the other. */
  predicate MemberSpots(s: string, spots: seq<Spot>) {
    Chained(s, spots, '}') && forall k :: 0 <= k < |spots| ==> MemberSpot(s, spots[k])
  }

  lemma {:induction false} MembersAlong(s: string, spots: seq<Spot>, k: nat)
    requires MemberSpots(s, spots) && k < |spots|
    ensures J.Members(s, spots[k].start) == Some(spots[|spots| - 1].delimiter + 1)
    decreases |spots| - k
  {
    J.MembersGoOn(s, spots[k].start, spots[k].end, spots[k].delimiter);
    if k == |spots| - 1 {
    } else {
      MembersAlong(s, spots, k + 1);
    }
  }

  lemma ReadsMembers(s: string, i: nat, spots: seq<Spot>)
    requires MemberSpots(s, spots) && i < |s| && s[i] == '{'
    requires J.Space(s, i + 1) == spots[0].start < |s| && s[spots[0].start] != '}'
    ensures J.Value(s, i) == Some(spots[|spots| - 1].delimiter + 1)
  {
    MembersAlong(s, spots, 0);
    ReadsObject(s, i, spots[0].start, spots[|spots| - 1].delimiter + 1);
  }

  lemma MembersGrow(s: string, spot: Spot, more: seq<Spot>)
    requires MemberSpots(s, more) && MemberSpot(s, spot) && s[spot.delimiter] == ','
    requires more[0].start == J.Space(s, spot.delimiter + 1)
    ensures MemberSpots(s, [spot] + more)
  {
    ChainGrows(s, spot, more, '}');
  }

  // ---- Blanks and digits ------------------------------------------------------------------------------------

  lemma {:induction false} SpaceOver(s: string, i: nat, blank: string)
    requires Stands(s, i, blank) && Blank(blank)
    requires i + |blank| < |s| ==> !BlankChar(s[i + |blank|])
    ensures J.Space(s, i) == i + |blank|
    decreases |blank|
  {
    if blank == "" {
    } else {
      StandsFirst(s, i, blank);
      SpaceOver(s, i + 1, blank[1..]);
    }
  }

  lemma {:induction false} DigitsOver(s: string, i: nat, digits: string)
    requires Stands(s, i, digits) && AllDigits(digits)
    requires i + |digits| < |s| ==> !DigitChar(s[i + |digits|])
    ensures J.Digits(s, i) == i + |digits|
    decreases |digits|
  {
    if digits == "" {
    } else {
      StandsFirst(s, i, digits);
      DigitsOver(s, i + 1, digits[1..]);
    }
  }

  // ---- Strings and literals ----------------------------------------------------------------------------------

  lemma UnitOver(s: string, i: nat, u: Unit)
    requires Stands(s, i, UnitText(u)) && UnitOk(u)
    ensures i + |UnitText(u)| <= |s| && J.Str(s, i) == J.Str(s, i + |UnitText(u)|)
  {
    var text := UnitText(u);
    CharAt(s, i, text, 0);
    if !u.Plain? { CharAt(s, i, text, 1); }
    if u.Hex? {
      CharAt(s, i, text, 2);
      CharAt(s, i, text, 3);
      CharAt(s, i, text, 4);
      CharAt(s, i, text, 5);
    }
  }

  lemma UnitStands(s: string, i: nat, units: seq<Unit>)
    requires units != [] && Stands(s, i, UnitsText(units))
    ensures Stands(s, i, UnitText(units[0])) && Stands(s, i + |UnitText(units[0])|, UnitsText(units[1..]))
    ensures |UnitsText(units)| == |UnitText(units[0])| + |UnitsText(units[1..])|
  {
    StandsSplit(s, i, UnitText(units[0]), UnitsText(units[1..]));
  }

  lemma {:induction false} StrOver(s: string, i: nat, units: seq<Unit>)
    requires Stands(s, i, UnitsText(units)) && UnitsOk(units)
    requires i + |UnitsText(units)| < |s| && s[i + |UnitsText(units)|] == '"'
    ensures J.Str(s, i) == Some(i + |UnitsText(units)| + 1)
    decreases |units|
  {
    if units == [] {
    } else {
      UnitStands(s, i, units);
      UnitOver(s, i, units[0]);
      StrOver(s, i + |UnitText(units[0])|, units[1..]);
    }
  }

  lemma {:induction false} SpellsOver(s: string, i: nat, word: string, k: nat)
    requires Stands(s, i, word) && k <= |word|
    ensures J.Spells(s, i, word, k)
    decreases |word| - k
  {
    if k == |word| {
    } else {
      SpellsOver(s, i, word, k + 1);
    }
  }

  lemma LiteralOver(s: string, i: nat, word: string)
    requires Stands(s, i, word) && word != ""
    ensures J.Literal(s, i, word) == Some(i + |word|)
  {
    SpellsOver(s, i, word, 0);
  }

  // ---- Numbers -------------------------------------------------------------------------------------------------

  /** Nothing behind a value that could go on with a number. */
  predicate Delimiter(c: char) {
    c == ',' || c == ']' || c == '}' || BlankChar(c)
  }

  predicate Delimited(s: string, i: nat) {
    i < |s| ==> Delimiter(s[i])
  }

  lemma ExponentOver(s: string, i: nat, e: Exponent)
    requires Stands(s, i, ExponentText(e)) && ExponentOk(e) && Delimited(s, i + |ExponentText(e)|) && i <= |s|
    ensures J.Exponent(s, i) == i + |ExponentText(e)|
  {
    if e.Exponent? {
      StandsSplit(s, i, [e.mark] + e.sign, e.digits);
      StandsHead(s, i, e.mark, e.sign);
      DigitsOver(s, i + 1 + |e.sign|, e.digits);
      FirstOf(s, i + 1 + |e.sign|, e.digits);
      if e.sign != "" { FirstOf(s, i + 1, e.sign); }
    }
  }

  predicate AfterFraction(c: char) {
    Delimiter(c) || c == 'e' || c == 'E'
  }

  predicate AfterWhole(c: char) {
    AfterFraction(c) || c == '.'
  }

  function FractionText(fraction: string): string {
    if fraction == "" then "" else "." + fraction
  }

  lemma FractionOver(s: string, i: nat, fraction: string)
    requires Stands(s, i, FractionText(fraction)) && AllDigits(fraction) && i <= |s|
    requires i + |FractionText(fraction)| < |s| ==> AfterFraction(s[i + |FractionText(fraction)|])
    ensures J.Fraction(s, i) == i + |FractionText(fraction)|
  {
    if fraction != "" {
      StandsHead(s, i, '.', fraction);
      DigitsOver(s, i + 1, fraction);
      FirstOf(s, i + 1, fraction);
    }
  }

  lemma ExponentStarts(s: string, i: nat, e: Exponent)
    requires Stands(s, i, ExponentText(e)) && ExponentOk(e) && Delimited(s, i + |ExponentText(e)|)
    ensures i < |s| ==> AfterFraction(s[i])
  {
    if e.Exponent? { FirstOf(s, i, ExponentText(e)); }
  }

  lemma FractionStarts(s: string, i: nat, fraction: string)
    requires Stands(s, i, FractionText(fraction))
    requires i + |FractionText(fraction)| < |s| ==> AfterFraction(s[i + |FractionText(fraction)|])
    ensures i < |s| ==> AfterWhole(s[i])
  {
    if fraction != "" { FirstOf(s, i, FractionText(fraction)); }
  }

  lemma WholeOver(s: string, i: nat, whole: string)
    requires Stands(s, i, whole) && whole != "" && AllDigits(whole) && (whole[0] == '0' ==> |whole| == 1)
    requires i + |whole| < |s| ==> AfterWhole(s[i + |whole|])
    ensures i < |s| && J.IsDigit(s[i]) && i + |whole| <= |s|
    ensures (if s[i] == '0' then i + 1 else J.Digits(s, i)) == i + |whole|
  {
    FirstOf(s, i, whole);
    if whole[0] != '0' { DigitsOver(s, i, whole); }
  }

  function Unsigned(n: Numeral): string {
    n.whole + (FractionText(n.fraction) + ExponentText(n.exponent))
  }

  /** Where the parts of a number stand. */
  lemma NumberParts(s: string, i: nat, n: Numeral)
    requires Stands(s, i, Unsigned(n))
    ensures var f := i + |n.whole|;
            var e := f + |FractionText(n.fraction)|;
            && Stands(s, i, n.whole) && Stands(s, f, FractionText(n.fraction)) && Stands(s, e, ExponentText(n.exponent))
            && e + |ExponentText(n.exponent)| == i + |Unsigned(n)| <= |s|
  {
    StandsInThree(s, i, n.whole, FractionText(n.fraction), ExponentText(n.exponent));
  }

  lemma MagnitudeOver(s: string, i: nat, n: Numeral)
    requires Stands(s, i, Unsigned(n)) && NumeralOk(n) && Delimited(s, i + |Unsigned(n)|)
    ensures i < |s| && J.IsDigit(s[i]) && J.Magnitude(s, i) == Some(i + |Unsigned(n)|)
  {
    var f := i + |n.whole|;
    var e := f + |FractionText(n.fraction)|;
    NumberParts(s, i, n);
    ExponentStarts(s, e, n.exponent);
    FractionStarts(s, f, n.fraction);
    WholeOver(s, i, n.whole);
    FractionOver(s, f, n.fraction);
    ExponentOver(s, e, n.exponent);
    ReadsMagnitude(s, i, f, e);
  }

  lemma NumeralIs(n: Numeral)
    ensures NumeralText(n) == (if n.minus then "-" else "") + Unsigned(n)
  {
    var sign := if n.minus then "-" else "";
    assert sign + n.whole + FractionText(n.fraction) + ExponentText(n.exponent) == sign + Unsigned(n);
  }

  lemma NumberOver(s: string, i: nat, n: Numeral)
    requires Stands(s, i, NumeralText(n)) && NumeralOk(n) && Delimited(s, i + |NumeralText(n)|)
    ensures i < |s| && (J.IsDigit(s[i]) || s[i] == '-') && J.Number(s, i) == Some(i + |NumeralText(n)|)
  {
    NumeralIs(n);
    if n.minus {
      StandsHead(s, i, '-', Unsigned(n));
      MagnitudeOver(s, i + 1, n);
    } else {
      assert "" + Unsigned(n) == Unsigned(n);
      MagnitudeOver(s, i, n);
    }
  }

  // ---- Values --------------------------------------------------------------------------------------------------

  predicate Closes(c: char) {
    BlankChar(c) || c == ']' || c == '}'
  }

  /** A value starts with a character that is no blank and closes nothing. */
  lemma FirstOf(s: string, i: nat, text: string)
    requires Stands(s, i, text) && text != ""
    ensures i < |s| && s[i] == text[0]
  {
    CharAt(s, i, text, 0);
  }

  lemma ValueStarts(v: Value)
    requires ValueOk(v)
    ensures ValueText(v) != "" && !Closes(ValueText(v)[0])
  {
    if v.Number? { NumeralIs(v.numeral); }
  }

  lemma ValueStartsAt(s: string, i: nat, v: Value)
    requires Stands(s, i, ValueText(v)) && ValueOk(v)
    ensures i < |s| && !Closes(s[i])
  {
    ValueStarts(v);
    FirstOf(s, i, ValueText(v));
  }

  /** Blanks, a character that is none, and the rest. */
  lemma BlankThen(s: string, i: nat, blank: string, c: char, tail: string)
    requires Stands(s, i, blank + ([c] + tail)) && Blank(blank) && !BlankChar(c)
    ensures var e := i + |blank|;
            J.Space(s, i) == e < |s| && s[e] == c && Stands(s, e + 1, tail) && (Delimiter(c) ==> Delimited(s, i))
  {
    StandsSplit(s, i, blank, [c] + tail);
    StandsHead(s, i + |blank|, c, tail);
    SpaceOver(s, i, blank);
    if blank != "" { FirstOf(s, i, blank); }
  }

  /** Blanks, a value, and the rest. */
  lemma BlankThenValue(s: string, i: nat, blank: string, v: Value, tail: string)
    requires Stands(s, i, blank + (ValueText(v) + tail)) && Blank(blank) && ValueOk(v)
    ensures var e := i + |blank|;
            && J.Space(s, i) == e < |s| && !Closes(s[e])
            && Stands(s, e, ValueText(v)) && Stands(s, e + |ValueText(v)|, tail)
  {
    StandsSplit(s, i, blank, ValueText(v) + tail);
    StandsSplit(s, i + |blank|, ValueText(v), tail);
    ValueStartsAt(s, i + |blank|, v);
    SpaceOver(s, i, blank);
  }

  /** A string up to its closing quote, and the rest. */
  lemma QuotedOver(s: string, i: nat, units: seq<Unit>, tail: string)
    requires Stands(s, i, UnitsText(units) + (['"'] + tail)) && UnitsOk(units)
    ensures var g := i + |UnitsText(units)| + 1;
            J.Str(s, i) == Some(g) && g <= |s| && Stands(s, g, tail)
  {
    StandsSplit(s, i, UnitsText(units), ['"'] + tail);
    StandsHead(s, i + |UnitsText(units)|, '"', tail);
    StrOver(s, i, units);
  }

  lemma LiteralValueOver(s: string, i: nat, v: Value)
    requires Stands(s, i, ValueText(v))
    requires v.Null? || v.True? || v.False? || v.NaN? || v.Infinity? || v.NegativeInfinity?
    ensures J.Value(s, i) == Some(i + |ValueText(v)|)
  {
    var word := ValueText(v);
    FirstOf(s, i, word);
    LiteralOver(s, i, word);
    if v.NegativeInfinity? { CharAt(s, i, word, 1); }
  }

  lemma StringValueOver(s: string, i: nat, units: seq<Unit>)
    requires Stands(s, i, ValueText(String(units))) && UnitsOk(units)
    ensures J.Value(s, i) == Some(i + |ValueText(String(units))|)
  {
    StandsHead(s, i, '"', UnitsText(units) + (['"'] + ""));
    QuotedOver(s, i + 1, units, "");
    ReadsString(s, i, i + 1 + |UnitsText(units)| + 1);
  }

  lemma EmptyOver(s: string, i: nat, v: Value)
    requires (v.EmptyArray? || v.EmptyObject?) && Blank(v.blank) && Stands(s, i, ValueText(v))
    ensures J.Value(s, i) == Some(i + |ValueText(v)|)
  {
    var first, last := if v.EmptyArray? then '[' else '{', if v.EmptyArray? then ']' else '}';
    StandsHead(s, i, first, v.blank + ([last] + ""));
    BlankThen(s, i + 1, v.blank, last, "");
  }

  lemma {:induction false} ValueOver(s: string, i: nat, v: Value)
    requires Stands(s, i, ValueText(v)) && ValueOk(v) && Delimited(s, i + |ValueText(v)|)
    ensures J.Value(s, i) == Some(i + |ValueText(v)|)
    decreases v, 1
  {
    match v {
      case Number(numeral) =>
        NumberOver(s, i, numeral);
        ReadsNumber(s, i, i + |ValueText(v)|);
      case String(units) => StringValueOver(s, i, units);
      case EmptyArray(_) => EmptyOver(s, i, v);
      case EmptyObject(_) => EmptyOver(s, i, v);
      case Array(items) =>
        ArrayOver(s, i, items);
      case Object(members) =>
        ObjectOver(s, i, members);
      case _ => LiteralValueOver(s, i, v);
    }
  }

  lemma {:induction false} ArrayOver(s: string, i: nat, items: Items)
    requires Stands(s, i, ['['] + ItemsText(items)) && ItemsOk(items)
    ensures J.Value(s, i) == Some(i + 1 + |ItemsText(items)|)
    decreases items, 2
  {
    StandsHead(s, i, '[', ItemsText(items));
    var spots := ItemsLocated(s, i + 1, items, i + 1 + |ItemsText(items)|);
    ReadsItems(s, i, spots);
  }

  lemma {:induction false} ObjectOver(s: string, i: nat, members: Members)
    requires Stands(s, i, ['{'] + MembersText(members)) && MembersOk(members)
    ensures J.Value(s, i) == Some(i + 1 + |MembersText(members)|)
    decreases members, 2
  {
    StandsHead(s, i, '{', MembersText(members));
    var spots := MembersLocated(s, i + 1, members, i + 1 + |MembersText(members)|);
    ReadsMembers(s, i, spots);
  }

  /** The elements and the closing bracket stand from `i` to `end`. */
  predicate ItemsFrom(s: string, i: nat, items: Items, end: nat) {
    Stands(s, i, ItemsText(items)) && end == i + |ItemsText(items)|
  }

  predicate MembersFrom(s: string, i: nat, members: Members, end: nat) {
    Stands(s, i, MembersText(members)) && end == i + |MembersText(members)|
  }

  /** The same from behind the first colon. */
  predicate ValueFrom(s: string, i: nat, members: Members, end: nat) {
    Stands(s, i, ValueTail(members)) && end == i + |ValueTail(members)|
  }

  /** A value between blanks, a delimiter, and the rest. */
  lemma ValueThen(s: string, i: nat, before: string, v: Value, after: string, c: char, rest: string)
    requires Stands(s, i, before + (ValueText(v) + (after + ([c] + rest)))) && ValueOk(v)
    requires Blank(before) && Blank(after) && Delimiter(c) && !BlankChar(c)
    ensures var b := i + |before|;
            var a := b + |ValueText(v)|;
            var e := a + |after|;
            && J.Space(s, i) == b && a <= e < |s| && Stands(s, b, ValueText(v)) && Delimited(s, a) && b < a
            && !Closes(s[b])
            && J.Space(s, a) == e && s[e] == c && Stands(s, e + 1, rest)
  {
    BlankThenValue(s, i, before, v, after + ([c] + rest));
    BlankThen(s, i + |before| + |ValueText(v)|, after, c, rest);
    ValueStarts(v);
  }

  /** An element: its blanks and value, the delimiter, and the rest. */
  lemma ItemsAre(items: Items) returns (c: char, rest: string)
    ensures ItemsText(items) == items.before + (ValueText(items.value) + (items.after + ([c] + rest)))
    ensures if items.LastItem? then c == ']' && rest == "" else c == ',' && rest == ItemsText(items.rest)
  {
    c, rest := if items.LastItem? then ']' else ',', if items.LastItem? then "" else ItemsText(items.rest);
    assert ItemTail(items) == items.after + ([c] + rest);
  }

  lemma ValueTailIs(members: Members) returns (c: char, rest: string)
    ensures ValueTail(members) == members.middle + (ValueText(members.value) + (members.after + ([c] + rest)))
    ensures if members.LastMember? then c == '}' && rest == "" else c == ',' && rest == MembersText(members.rest)
  {
    c, rest := if members.LastMember? then '}' else ',', if members.LastMember? then "" else MembersText(members.rest);
    assert MemberTail(members) == members.after + ([c] + rest);
  }

  /** Where one element starts and ends. */
  lemma ItemParts(s: string, i: nat, items: Items, end: nat) returns (v: nat, a: nat, e: nat)
    requires ItemsFrom(s, i, items, end) && ItemsOk(items)
    ensures i <= v == J.Space(s, i) < |s| && s[v] != ']' && v < a <= e < |s|
    ensures Stands(s, v, ValueText(items.value)) && a == v + |ValueText(items.value)| && Delimited(s, a)
    ensures J.Space(s, a) == e && s[e] == (if items.LastItem? then ']' else ',')
    ensures if items.LastItem? then e + 1 == end else ItemsFrom(s, e + 1, items.rest, end)
  {
    v := i + |items.before|;
    a := v + |ValueText(items.value)|;
    e := a + |items.after|;
    var c, rest := ItemsAre(items);
    ValueThen(s, i, items.before, items.value, items.after, c, rest);
  }

  /** One element, located. */
  lemma {:induction false} ItemLocated(s: string, i: nat, items: Items, end: nat) returns (spot: Spot)
    requires ItemsFrom(s, i, items, end) && ItemsOk(items)
    ensures i <= spot.start == J.Space(s, i) && spot.start < |s| && s[spot.start] != ']' && ItemSpot(s, spot)
    ensures s[spot.delimiter] == (if items.LastItem? then ']' else ',')
    ensures if items.LastItem? then spot.delimiter + 1 == end else ItemsFrom(s, spot.delimiter + 1, items.rest, end)
    decreases items, 0
  {
    var v, a, e := ItemParts(s, i, items, end);
    ValueOver(s, v, items.value);
    spot := Spot(v, a, e);
  }

  /** Every element of an array, located. */
  lemma {:induction false} ItemsLocated(s: string, i: nat, items: Items, end: nat) returns (spots: seq<Spot>)
    requires ItemsFrom(s, i, items, end) && ItemsOk(items)
    ensures ItemSpots(s, spots) && i <= spots[0].start == J.Space(s, i)
    ensures spots[0].start < |s| && s[spots[0].start] != ']'
    ensures spots[|spots| - 1].delimiter + 1 == end
    decreases items, 1
  {
    var spot := ItemLocated(s, i, items, end);
    if items.LastItem? {
      spots := [spot];
    } else {
      var more := ItemsLocated(s, spot.delimiter + 1, items.rest, end);
      spots := [spot] + more;
      SpotsGrow(s, spot, more);
    }
  }

  /** Where a key starts and ends. */
  lemma KeyParts(s: string, i: nat, before: string, key: seq<Unit>, tail: string) returns (q: nat, g: nat)
    requires Stands(s, i, before + (['"'] + (UnitsText(key) + (['"'] + tail)))) && Blank(before) && UnitsOk(key)
    ensures i <= q == J.Space(s, i) < |s| && s[q] == '"' && J.Str(s, q + 1) == Some(g) && g <= |s|
    ensures Stands(s, g, tail) && g == i + |before| + 1 + |UnitsText(key)| + 1
  {
    q := i + |before|;
    g := q + 1 + |UnitsText(key)| + 1;
    BlankThen(s, i, before, '"', UnitsText(key) + (['"'] + tail));
    QuotedOver(s, q + 1, key, tail);
  }

  /** Where key and colon of a member stand, and where its value is to be looked for. */
  lemma KeyAndColon(s: string, i: nat, members: Members, end: nat) returns (q: nat, g: nat, m: nat)
    requires MembersFrom(s, i, members, end) && MembersOk(members)
    ensures i <= q == J.Space(s, i) < |s| && s[q] == '"' && J.Str(s, q + 1) == Some(g) && g <= |s|
    ensures J.Space(s, g) == m < |s| && s[m] == ':' && ValueFrom(s, m + 1, members, end)
  {
    var tail := members.gap + ([':'] + ValueTail(members));
    MembersAre(members);
    q, g := KeyParts(s, i, members.before, members.key, tail);
    m := g + |members.gap|;
    BlankThen(s, g, members.gap, ':', ValueTail(members));
  }

  lemma MembersAre(members: Members)
    ensures MembersText(members)
            == members.before
               + (['"'] + (UnitsText(members.key) + (['"'] + (members.gap + ([':'] + ValueTail(members))))))
  {
    assert KeyTail(members) == UnitsText(members.key) + (['"'] + ColonTail(members));
    assert ColonTail(members) == members.gap + ([':'] + ValueTail(members));
  }

  /** Where the value of a member starts and ends. */
  lemma MemberParts(s: string, i: nat, members: Members, end: nat) returns (v: nat, a: nat, e: nat)
    requires ValueFrom(s, i, members, end) && MembersOk(members)
    ensures i <= v == J.Space(s, i) < |s| && v < a <= e < |s|
    ensures Stands(s, v, ValueText(members.value)) && a == v + |ValueText(members.value)| && Delimited(s, a)
    ensures J.Space(s, a) == e && s[e] == (if members.LastMember? then '}' else ',')
    ensures if members.LastMember? then e + 1 == end else MembersFrom(s, e + 1, members.rest, end)
  {
    v := i + |members.middle|;
    a := v + |ValueText(members.value)|;
    e := a + |members.after|;
    var c, rest := ValueTailIs(members);
    ValueThen(s, i, members.middle, members.value, members.after, c, rest);
  }

  /** One member, located. */
  lemma {:induction false} MemberLocated(s: string, i: nat, members: Members, end: nat) returns (spot: Spot)
    requires MembersFrom(s, i, members, end) && MembersOk(members)
    ensures i <= spot.start == J.Space(s, i) && MemberSpot(s, spot) && s[spot.start] == '"'
    ensures s[spot.delimiter] == (if members.LastMember? then '}' else ',')
    ensures if members.LastMember? then spot.delimiter + 1 == end
            else MembersFrom(s, spot.delimiter + 1, members.rest, end)
    decreases members, 0
  {
    var q, g, m := KeyAndColon(s, i, members, end);
    var v, a, e := MemberParts(s, m + 1, members, end);
    ValueOver(s, v, members.value);
    spot := Spot(q, a, e);
    MemberAt(s, q, g, m, v, spot);
  }

  lemma MemberAt(s: string, q: nat, g: nat, m: nat, v: nat, spot: Spot)
    requires q < |s| && s[q] == '"' && J.Str(s, q + 1) == Some(g) && g <= |s| && J.Space(s, g) == m < |s| && s[m] == ':'
    requires J.Space(s, m + 1) == v && J.Value(s, v) == Some(spot.end) && spot.start == q
    requires spot.end <= |s| && J.Space(s, spot.end) == spot.delimiter < |s|
    ensures MemberSpot(s, spot)
  {
    ReadsMember(s, q, g, m, spot.end);
  }

  /** Every member of an object, located. */
  lemma {:induction false} MembersLocated(s: string, i: nat, members: Members, end: nat) returns (spots: seq<Spot>)
    requires MembersFrom(s, i, members, end) && MembersOk(members)
    ensures MemberSpots(s, spots) && i <= spots[0].start == J.Space(s, i) && s[spots[0].start] == '"'
    ensures spots[|spots| - 1].delimiter + 1 == end
    decreases members, 1
  {
    var spot := MemberLocated(s, i, members, end);
    if members.LastMember? {
      spots := [spot];
    } else {
      var more := MembersLocated(s, spot.delimiter + 1, members.rest, end);
      spots := [spot] + more;
      MembersGrow(s, spot, more);
    }
  }

  /** A text between blanks. */
  lemma BetweenBlanks(s: string, before: string, text: string, after: string)
    requires s == before + text + after && Blank(before) && Blank(after) && text != "" && !Closes(text[0])
    ensures var b := |before|;
            var e := b + |text|;
            && J.Space(s, 0) == b && e <= |s| && Stands(s, b, text) && Delimited(s, e) && J.Space(s, e) == |s|
  {
    var b := |before|;
    assert Stands(s, 0, before) && Stands(s, b, text) && Stands(s, b + |text|, after);
    FirstOf(s, b, text);
    SpaceOver(s, 0, before);
    BlankEnd(s, b + |text|, after);
  }

  lemma ReadsAll(s: string, b: nat, e: nat)
    requires J.Space(s, 0) == b <= |s| && J.Value(s, b) == Some(e) && e <= |s| && J.Space(s, e) == |s|
    ensures J.IsComplete(s) && (J.IsNumberText(s) <==> J.Number(s, b).Some?)
  {
  }

  /** The end of a text is the end of its blanks, and delimits what is before them. */
  lemma BlankEnd(s: string, i: nat, after: string)
    requires Stands(s, i, after) && Blank(after) && i + |after| == |s|
    ensures J.Space(s, i) == |s| && Delimited(s, i)
  {
    SpaceOver(s, i, after);
    if after != "" { FirstOf(s, i, after); }
  }

  /** Every JSON value, however it is written and between any blanks, is accepted. */
  lemma WrittenIsComplete(s: string, before: string, v: Value, after: string)
    requires Writes(s, before, v, after)
    ensures J.IsComplete(s) && (J.IsNumberText(s) <==> v.Number?)
  {
    var b := |before|;
    ValueStarts(v);
    BetweenBlanks(s, before, ValueText(v), after);
    ValueOver(s, b, v);
    NumberOrNot(s, b, v);
    ReadsAll(s, b, b + |ValueText(v)|);
  }

  /** Only numbers start like one. */
  lemma NumberOrNot(s: string, i: nat, v: Value)
    requires Stands(s, i, ValueText(v)) && ValueOk(v) && Delimited(s, i + |ValueText(v)|)
    ensures i < |s| && (J.Number(s, i).Some? <==> v.Number?)
  {
    ValueStartsAt(s, i, v);
    FirstOf(s, i, ValueText(v));
    if v.Number? {
      NumberOver(s, i, v.numeral);
    } else if v.NegativeInfinity? {
      CharAt(s, i, ValueText(v), 1);
    }
  }
}
