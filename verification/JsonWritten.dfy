/** And nothing else is accepted: every text the scanner accepts writes a JSON value. */
module JsonWritten {
  import opened Wrappers
  import opened Layout
  import opened JsonText
  import opened JsonAccepted
  import J = Json

  lemma SliceStands(s: string, i: nat, e: nat)
    requires i <= e <= |s|
    ensures Stands(s, i, s[i..e]) && i + |s[i..e]| == e
  {
  }

  // ---- Blanks and digits ------------------------------------------------------------------------------------

  lemma {:induction false} SpaceRead(s: string, i: nat)
    requires i <= |s|
    ensures Blank(s[i..J.Space(s, i)])
    decreases |s| - i
  {
    if i < |s| && J.IsSpace(s[i]) {
      SpaceRead(s, i + 1);
      assert s[i..J.Space(s, i)] == [s[i]] + s[i + 1..J.Space(s, i)];
    }
  }

  /** The blanks at `i`. */
  lemma BlanksRead(s: string, i: nat) returns (blank: string)
    requires i <= |s|
    ensures Blank(blank) && Stands(s, i, blank) && i + |blank| == J.Space(s, i)
  {
    blank := s[i..J.Space(s, i)];
    SpaceRead(s, i);
    SliceStands(s, i, J.Space(s, i));
  }

  lemma {:induction false} DigitsRead(s: string, i: nat)
    requires i <= |s|
    ensures AllDigits(s[i..J.Digits(s, i)])
    decreases |s| - i
  {
    if i < |s| && J.IsDigit(s[i]) {
      DigitsRead(s, i + 1);
      assert s[i..J.Digits(s, i)] == [s[i]] + s[i + 1..J.Digits(s, i)];
    }
  }

  lemma DigitRunRead(s: string, i: nat) returns (digits: string)
    requires i < |s| && J.IsDigit(s[i])
    ensures AllDigits(digits) && digits != "" && digits[0] == s[i]
    ensures Stands(s, i, digits) && i + |digits| == J.Digits(s, i)
  {
    DigitsRead(s, i);
    digits := s[i..J.Digits(s, i)];
    SliceStands(s, i, J.Digits(s, i));
  }

  // ---- Strings and literals ----------------------------------------------------------------------------------

  /** The unit at `i` of a string that goes on. */
  lemma UnitRead(s: string, i: nat) returns (u: Unit)
    requires i < |s| && s[i] != '"' && J.Str(s, i).Some?
    ensures UnitOk(u) && Stands(s, i, UnitText(u)) && i + |UnitText(u)| <= |s|
    ensures J.Str(s, i) == J.Str(s, i + |UnitText(u)|)
  {
    if s[i] != '\\' {
      u := Plain(s[i]);
    } else if EscapeChar(s[i + 1]) {
      u := Short(s[i + 1]);
    } else {
      u := Hex(s[i + 2], s[i + 3], s[i + 4], s[i + 5]);
    }
  }

  lemma UnitsGrow(s: string, i: nat, u: Unit, more: seq<Unit>)
    requires UnitOk(u) && UnitsOk(more) && Stands(s, i, UnitText(u)) && Stands(s, i + |UnitText(u)|, UnitsText(more))
    ensures UnitsOk([u] + more) && Stands(s, i, UnitsText([u] + more))
    ensures |UnitsText([u] + more)| == |UnitText(u)| + |UnitsText(more)|
  {
    assert ([u] + more)[1..] == more;
    StandsSplit(s, i, UnitText(u), UnitsText(more));
  }

  lemma {:induction false} StrRead(s: string, i: nat) returns (units: seq<Unit>)
    requires i <= |s| && J.Str(s, i).Some?
    ensures UnitsOk(units) && Stands(s, i, UnitsText(units))
    ensures i + |UnitsText(units)| < |s| && s[i + |UnitsText(units)|] == '"'
    ensures J.Str(s, i) == Some(i + |UnitsText(units)| + 1)
    decreases |s| - i
  {
    if s[i] == '"' {
      units := [];
    } else {
      var u := UnitRead(s, i);
      var more := StrRead(s, i + |UnitText(u)|);
      UnitsGrow(s, i, u, more);
      units := [u] + more;
    }
  }

  lemma {:induction false} SpellsAt(s: string, i: nat, word: string, k: nat, j: nat)
    requires k <= j < |word| && J.Spells(s, i, word, k)
    ensures i + j < |s| && s[i + j] == word[j]
    decreases j - k
  {
    if k == j {
    } else {
      SpellsAt(s, i, word, k + 1, j);
    }
  }

  lemma LiteralRead(s: string, i: nat, word: string)
    requires i <= |s| && word != "" && J.Literal(s, i, word).Some?
    ensures Stands(s, i, word) && J.Literal(s, i, word) == Some(i + |word|)
  {
    forall j | 0 <= j < |word| ensures s[i + j] == word[j] {
      SpellsAt(s, i, word, 0, j);
    }
  }

  // ---- Numbers -------------------------------------------------------------------------------------------------

  lemma ExponentRead(s: string, i: nat) returns (e: Exponent)
    requires i <= |s|
    ensures ExponentOk(e) && Stands(s, i, ExponentText(e)) && i + |ExponentText(e)| == J.Exponent(s, i)
  {
    e := NoExponent;
    if i + 1 < |s| && (s[i] == 'e' || s[i] == 'E') {
      if J.IsDigit(s[i + 1]) {
        var digits := DigitRunRead(s, i + 1);
        e := SignedExponent(s, i, "", digits);
      } else if i + 2 < |s| && (s[i + 1] == '+' || s[i + 1] == '-') && J.IsDigit(s[i + 2]) {
        var digits := DigitRunRead(s, i + 2);
        e := SignedExponent(s, i, if s[i + 1] == '+' then "+" else "-", digits);
      }
    }
  }

  lemma SignedExponent(s: string, i: nat, sign: string, digits: string) returns (e: Exponent)
    requires i < |s| && (s[i] == 'e' || s[i] == 'E') && Stands(s, i + 1, sign)
    requires (sign == "" || sign == "+" || sign == "-") && digits != "" && AllDigits(digits)
    requires Stands(s, i + 1 + |sign|, digits)
    ensures ExponentOk(e) && Stands(s, i, ExponentText(e)) && |ExponentText(e)| == 1 + |sign| + |digits|
  {
    e := Exponent(s[i], sign, digits);
    StandsHead(s, i, s[i], sign);
    StandsSplit(s, i, [s[i]] + sign, digits);
  }

  lemma FractionRead(s: string, i: nat) returns (fraction: string)
    requires i <= |s|
    ensures AllDigits(fraction) && Stands(s, i, FractionText(fraction))
    ensures i + |FractionText(fraction)| == J.Fraction(s, i)
  {
    fraction := "";
    if i + 1 < |s| && s[i] == '.' && J.IsDigit(s[i + 1]) {
      fraction := DigitRunRead(s, i + 1);
      StandsHead(s, i, '.', fraction);
    }
  }

  lemma WholeRead(s: string, i: nat) returns (whole: string)
    requires i < |s| && J.IsDigit(s[i])
    ensures whole != "" && AllDigits(whole) && (whole[0] == '0' ==> |whole| == 1) && Stands(s, i, whole)
    ensures i + |whole| == (if s[i] == '0' then i + 1 else J.Digits(s, i)) <= |s|
  {
    if s[i] == '0' { whole := "0"; } else { whole := DigitRunRead(s, i); }
  }

  lemma MagnitudeRead(s: string, i: nat) returns (n: Numeral)
    requires i <= |s| && J.Magnitude(s, i).Some?
    ensures NumeralOk(n) && !n.minus && Stands(s, i, Unsigned(n)) && J.Magnitude(s, i) == Some(i + |Unsigned(n)|)
  {
    var whole := WholeRead(s, i);
    var f := i + |whole|;
    var fraction := FractionRead(s, f);
    var x := f + |FractionText(fraction)|;
    var exponent := ExponentRead(s, x);
    n := Numeral(false, whole, fraction, exponent);
    StandsSplit(s, f, FractionText(fraction), ExponentText(exponent));
    StandsSplit(s, i, whole, FractionText(fraction) + ExponentText(exponent));
    ReadsMagnitude(s, i, f, x);
  }

  lemma NumberRead(s: string, i: nat) returns (n: Numeral)
    requires i <= |s| && J.Number(s, i).Some?
    ensures NumeralOk(n) && Stands(s, i, NumeralText(n)) && J.Number(s, i) == Some(i + |NumeralText(n)|)
  {
    if i < |s| && s[i] == '-' {
      var u := MagnitudeRead(s, i + 1);
      n := u.(minus := true);
      NumeralIs(n);
      assert Unsigned(n) == Unsigned(u);
      StandsHead(s, i, '-', Unsigned(n));
    } else {
      n := MagnitudeRead(s, i);
      NumeralIs(n);
      assert "" + Unsigned(n) == Unsigned(n);
    }
  }

  // ---- Values --------------------------------------------------------------------------------------------------

  /** A value that stands at `i` and ends where the scanner says. */
  predicate ReadAs(s: string, i: nat, v: Value, e: nat) {
    ValueOk(v) && Stands(s, i, ValueText(v)) && i + |ValueText(v)| == e
  }

  lemma WordRead(s: string, i: nat, v: Value) returns (e: nat)
    requires i <= |s| && (v.Null? || v.True? || v.False? || v.NaN? || v.Infinity? || v.NegativeInfinity?)
    requires J.Literal(s, i, ValueText(v)).Some?
    ensures J.Literal(s, i, ValueText(v)) == Some(e) && ReadAs(s, i, v, e)
  {
    LiteralRead(s, i, ValueText(v));
    e := i + |ValueText(v)|;
  }

  /** A text between two quotes. */
  lemma QuotedStands(s: string, i: nat, text: string)
    requires i < |s| && s[i] == '"' && Stands(s, i + 1, text)
    requires i + 1 + |text| < |s| && s[i + 1 + |text|] == '"'
    ensures Stands(s, i, ['"'] + (text + (['"'] + "")))
  {
    StandsHead(s, i + 1 + |text|, '"', "");
    StandsSplit(s, i + 1, text, ['"'] + "");
    StandsHead(s, i, '"', text + (['"'] + ""));
  }

  lemma StringRead(s: string, i: nat) returns (v: Value)
    requires i < |s| && s[i] == '"' && J.Str(s, i + 1).Some?
    ensures ReadAs(s, i, v, J.Str(s, i + 1).value)
  {
    var units := StrRead(s, i + 1);
    v := String(units);
    QuotedStands(s, i, UnitsText(units));
  }

  /** Brackets with blanks only. */
  lemma EmptyRead(s: string, i: nat, v: Value) returns (w: Value)
    requires v.EmptyArray? || v.EmptyObject?
    requires i < |s| && s[i] == (if v.EmptyArray? then '[' else '{')
    requires J.Space(s, i + 1) < |s| && s[J.Space(s, i + 1)] == (if v.EmptyArray? then ']' else '}')
    ensures ReadAs(s, i, w, J.Space(s, i + 1) + 1)
  {
    var blank := BlanksRead(s, i + 1);
    var last := if v.EmptyArray? then ']' else '}';
    w := if v.EmptyArray? then EmptyArray(blank) else EmptyObject(blank);
    StandsHead(s, i + 1 + |blank|, last, "");
    StandsSplit(s, i + 1, blank, [last] + "");
    StandsHead(s, i, s[i], blank + ([last] + ""));
  }

  lemma LiteralValueRead(s: string, i: nat) returns (v: Value)
    requires i < |s| && J.Value(s, i).Some? && s[i] != '"' && s[i] != '{' && s[i] != '[' && J.Number(s, i).None?
    ensures ReadAs(s, i, v, J.Value(s, i).value)
  {
    v := if s[i] == 'n' then Null else if s[i] == 't' then True else if s[i] == 'f' then False
         else if s[i] == 'N' then NaN else if s[i] == 'I' then Infinity else NegativeInfinity;
    var e := WordRead(s, i, v);
  }

  lemma NumberValueRead(s: string, i: nat) returns (v: Value)
    requires i < |s| && J.Number(s, i).Some?
    ensures ReadAs(s, i, v, J.Number(s, i).value) && J.Value(s, i) == J.Number(s, i)
  {
    var n := NumberRead(s, i);
    v := Number(n);
  }

  lemma {:induction false} ValueRead(s: string, i: nat) returns (v: Value)
    requires i <= |s| && J.Value(s, i).Some?
    ensures ReadAs(s, i, v, J.Value(s, i).value)
    decreases |s| - i, 0
  {
    if s[i] == '"' {
      v := StringRead(s, i);
    } else if s[i] == '[' {
      if s[J.Space(s, i + 1)] == ']' { v := EmptyRead(s, i, EmptyArray("")); } else { v := ArrayRead(s, i); }
    } else if s[i] == '{' {
      if s[J.Space(s, i + 1)] == '}' { v := EmptyRead(s, i, EmptyObject("")); } else { v := ObjectRead(s, i); }
    } else if J.Number(s, i).Some? {
      v := NumberValueRead(s, i);
    } else {
      v := LiteralValueRead(s, i);
    }
  }

  lemma {:induction false} ArrayRead(s: string, i: nat) returns (v: Value)
    requires i < |s| && s[i] == '[' && J.Elements(s, J.Space(s, i + 1)).Some?
    ensures ReadAs(s, i, v, J.Elements(s, J.Space(s, i + 1)).value)
    decreases |s| - i - 1, 3
  {
    var items := ItemsRead(s, i + 1);
    v := Array(items);
    StandsHead(s, i, '[', ItemsText(items));
  }

  lemma {:induction false} ObjectRead(s: string, i: nat) returns (v: Value)
    requires i < |s| && s[i] == '{' && J.Members(s, J.Space(s, i + 1)).Some?
    ensures ReadAs(s, i, v, J.Members(s, J.Space(s, i + 1)).value)
    decreases |s| - i - 1, 3
  {
    var members := MembersRead(s, i + 1);
    v := Object(members);
    StandsHead(s, i, '{', MembersText(members));
  }

  predicate ItemsReadAs(s: string, b: nat, items: Items, e: nat) {
    ItemsOk(items) && Stands(s, b, ItemsText(items)) && b + |ItemsText(items)| == e
  }

  /** What one element consists of, and whether others follow. */
  lemma ElementShape(s: string, i: nat) returns (a: nat, d: nat)
    requires i <= |s| && J.Elements(s, i).Some?
    ensures J.Value(s, i) == Some(a) && i < a <= |s| && J.Space(s, a) == d < |s|
    ensures s[d] == ']' || s[d] == ','
    ensures J.Elements(s, i) == if s[d] == ']' then Some(d + 1) else J.Elements(s, J.Space(s, d + 1))
  {
    a := J.Value(s, i).value;
    d := J.Space(s, a);
  }

  /** Blanks, a value, blanks and a tail. */
  lemma Enclosed(s: string, b: nat, before: string, v: Value, after: string, tail: string)
    requires Stands(s, b, before) && Stands(s, b + |before|, ValueText(v))
    requires Stands(s, b + |before| + |ValueText(v)|, after)
    requires Stands(s, b + |before| + |ValueText(v)| + |after|, tail)
    ensures Stands(s, b, before + (ValueText(v) + (after + tail)))
  {
    StandsSplit(s, b + |before| + |ValueText(v)|, after, tail);
    StandsSplit(s, b + |before|, ValueText(v), after + tail);
    StandsSplit(s, b, before, ValueText(v) + (after + tail));
  }

  lemma LastItemRead(s: string, b: nat, before: string, v: Value, after: string) returns (items: Items)
    requires Blank(before) && ValueOk(v) && Blank(after)
    requires Stands(s, b, before) && Stands(s, b + |before|, ValueText(v))
    requires Stands(s, b + |before| + |ValueText(v)|, after)
    requires var d := b + |before| + |ValueText(v)| + |after|; d < |s| && s[d] == ']'
    ensures ItemsReadAs(s, b, items, b + |before| + |ValueText(v)| + |after| + 1)
  {
    items := LastItem(before, v, after);
    StandsHead(s, b + |before| + |ValueText(v)| + |after|, ']', "");
    Enclosed(s, b, before, v, after, [']'] + "");
  }

  lemma MoreItemsRead(s: string, b: nat, before: string, v: Value, after: string, rest: Items, e: nat)
    returns (items: Items)
    requires Blank(before) && ValueOk(v) && Blank(after)
    requires Stands(s, b, before) && Stands(s, b + |before|, ValueText(v))
    requires Stands(s, b + |before| + |ValueText(v)|, after)
    requires var d := b + |before| + |ValueText(v)| + |after|; d < |s| && s[d] == ',' && ItemsReadAs(s, d + 1, rest, e)
    ensures ItemsReadAs(s, b, items, e)
  {
    items := Item(before, v, after, rest);
    StandsHead(s, b + |before| + |ValueText(v)| + |after|, ',', ItemsText(rest));
    Enclosed(s, b, before, v, after, [','] + ItemsText(rest));
  }

  lemma {:induction false} ItemsRead(s: string, b: nat) returns (items: Items)
    requires b <= |s| && J.Elements(s, J.Space(s, b)).Some?
    ensures ItemsReadAs(s, b, items, J.Elements(s, J.Space(s, b)).value)
    decreases |s| - b, 2
  {
    var i := J.Space(s, b);
    var a, d := ElementShape(s, i);
    var before := BlanksRead(s, b);
    var v := ValueRead(s, i);
    var after := BlanksRead(s, a);
    if s[d] == ']' {
      items := LastItemRead(s, b, before, v, after);
    } else {
      var rest := ItemsRead(s, d + 1);
      items := MoreItemsRead(s, b, before, v, after, rest, J.Elements(s, i).value);
    }
  }

  // ---- Members -------------------------------------------------------------------------------------------------

  predicate MembersReadAs(s: string, b: nat, members: Members, e: nat) {
    MembersOk(members) && Stands(s, b, MembersText(members)) && b + |MembersText(members)| == e
  }

  /** Where key, colon and value of a member are. */
  lemma MemberShape(s: string, i: nat) returns (g: nat, m: nat, a: nat)
    requires i <= |s| && J.Member(s, i).Some?
    ensures i < |s| && s[i] == '"' && J.Str(s, i + 1) == Some(g) && i + 1 < g <= |s|
    ensures g <= m && J.Space(s, g) == m < |s| && s[m] == ':' && J.Value(s, J.Space(s, m + 1)) == Some(a) && a <= |s|
    ensures J.Member(s, i) == Some(a) && m < a
  {
    g := J.Str(s, i + 1).value;
    m := J.Space(s, g);
    a := J.Member(s, i).value;
  }

  /** The members go on behind the delimiter at `d` and end at `e`. */
  predicate GoOn(s: string, d: nat, e: nat) {
    d < |s| && ((s[d] == '}' && e == d + 1) || (s[d] == ',' && J.Members(s, J.Space(s, d + 1)) == Some(e)))
  }

  lemma MembersShape(s: string, i: nat) returns (a: nat, d: nat)
    requires i <= |s| && J.Members(s, i).Some?
    ensures J.Member(s, i) == Some(a) && i < a <= |s| && J.Space(s, a) == d && GoOn(s, d, J.Members(s, i).value)
  {
    a := J.Member(s, i).value;
    d := J.Space(s, a);
    J.MembersGoOn(s, i, a, d);
  }

  lemma FirstMemberShape(s: string, b: nat, e: nat) returns (g: nat, m: nat, a: nat, d: nat)
    requires b <= |s| && J.Members(s, J.Space(s, b)) == Some(e)
    ensures J.Space(s, b) < |s| && s[J.Space(s, b)] == '"' && J.Str(s, J.Space(s, b) + 1) == Some(g) && b < g <= m
    ensures J.Space(s, g) == m < |s| && s[m] == ':' && J.Value(s, J.Space(s, m + 1)) == Some(a)
    ensures m < a <= |s| && J.Space(s, a) == d && GoOn(s, d, e)
  {
    var i, a2 := J.Space(s, b), 0;
    a, d := MembersShape(s, i);
    g, m, a2 := MemberShape(s, i);
  }

  /** A closing quote, blanks, a colon and a tail. */
  lemma ColonStands(s: string, q: nat, gap: string, tail: string)
    requires q < |s| && s[q] == '"' && Stands(s, q + 1, gap)
    requires q + 1 + |gap| < |s| && s[q + 1 + |gap|] == ':' && Stands(s, q + 1 + |gap| + 1, tail)
    ensures Stands(s, q, ['"'] + (gap + ([':'] + tail)))
  {
    StandsHead(s, q + 1 + |gap|, ':', tail);
    StandsSplit(s, q + 1, gap, [':'] + tail);
    StandsHead(s, q, '"', gap + ([':'] + tail));
  }

  /** Blanks, a quote, a key and a tail. */
  lemma KeyStands(s: string, b: nat, before: string, key: string, tail: string)
    requires Stands(s, b, before)
    requires b + |before| < |s| && s[b + |before|] == '"' && Stands(s, b + |before| + 1, key)
    requires Stands(s, b + |before| + 1 + |key|, tail)
    ensures Stands(s, b, before + (['"'] + (key + tail)))
  {
    StandsSplit(s, b + |before| + 1, key, tail);
    StandsHead(s, b + |before|, '"', key + tail);
    StandsSplit(s, b, before, ['"'] + (key + tail));
  }

  /** A member list from the blanks before its first value on. */
  predicate ValuePart(s: string, b: nat, members: Members, e: nat) {
    MembersOk(members) && Stands(s, b, ValueTail(members)) && b + |ValueTail(members)| == e
  }

  lemma LastValuePart(s: string, b: nat, middle: string, v: Value, after: string) returns (members: Members)
    requires Blank(middle) && ValueOk(v) && Blank(after)
    requires Stands(s, b, middle) && Stands(s, b + |middle|, ValueText(v))
    requires Stands(s, b + |middle| + |ValueText(v)|, after)
    requires var d := b + |middle| + |ValueText(v)| + |after|; d < |s| && s[d] == '}'
    ensures ValuePart(s, b, members, b + |middle| + |ValueText(v)| + |after| + 1)
  {
    members := LastMember("", [], "", middle, v, after);
    StandsHead(s, b + |middle| + |ValueText(v)| + |after|, '}', "");
    Enclosed(s, b, middle, v, after, ['}'] + "");
  }

  lemma MoreValuePart(s: string, b: nat, middle: string, v: Value, after: string, rest: Members, e: nat)
    returns (members: Members)
    requires Blank(middle) && ValueOk(v) && Blank(after)
    requires Stands(s, b, middle) && Stands(s, b + |middle|, ValueText(v))
    requires Stands(s, b + |middle| + |ValueText(v)|, after)
    requires var d := b + |middle| + |ValueText(v)| + |after|;
             d < |s| && s[d] == ',' && MembersReadAs(s, d + 1, rest, e)
    ensures ValuePart(s, b, members, e)
  {
    members := Member("", [], "", middle, v, after, rest);
    StandsHead(s, b + |middle| + |ValueText(v)| + |after|, ',', MembersText(rest));
    Enclosed(s, b, middle, v, after, [','] + MembersText(rest));
  }

  /** The same with a key in front. */
  function Keyed(before: string, key: seq<Unit>, gap: string, members: Members): Members {
    match members
    case LastMember(_, _, _, middle, v, after) => LastMember(before, key, gap, middle, v, after)
    case Member(_, _, _, middle, v, after, rest) => Member(before, key, gap, middle, v, after, rest)
  }

  lemma KeyedText(before: string, key: seq<Unit>, gap: string, members: Members)
    requires Blank(before) && UnitsOk(key) && Blank(gap) && MembersOk(members)
    ensures var k := Keyed(before, key, gap, members);
            && MembersOk(k)
            && MembersText(k) == before + (['"'] + (UnitsText(key) + (['"'] + (gap + ([':'] + ValueTail(members))))))
  {
    var k := Keyed(before, key, gap, members);
    assert ValueTail(k) == ValueTail(members);
    assert ColonTail(k) == gap + ([':'] + ValueTail(k));
    assert KeyTail(k) == UnitsText(key) + (['"'] + ColonTail(k));
  }

  /** Everything from the blanks before a key to the colon. */
  lemma KeyRead(s: string, b: nat, g: nat, m: nat) returns (before: string, key: seq<Unit>, gap: string)
    requires b <= |s| && J.Space(s, b) < |s| && s[J.Space(s, b)] == '"'
    requires J.Str(s, J.Space(s, b) + 1) == Some(g) && g <= |s| && J.Space(s, g) == m < |s|
    ensures Blank(before) && UnitsOk(key) && Blank(gap) && Stands(s, b, before) && b + |before| == J.Space(s, b)
    ensures Stands(s, b + |before| + 1, UnitsText(key)) && b + |before| + 1 + |UnitsText(key)| + 1 == g
    ensures s[g - 1] == '"' && Stands(s, g, gap) && g + |gap| == m
  {
    before := BlanksRead(s, b);
    key := StrRead(s, J.Space(s, b) + 1);
    gap := BlanksRead(s, g);
  }

  /** A member list put together from its first key and the rest. */
  lemma MembersMade(s: string, b: nat, before: string, key: seq<Unit>, gap: string, part: Members, e: nat)
    returns (members: Members)
    requires Blank(before) && UnitsOk(key) && Blank(gap)
    requires Stands(s, b, before) && b + |before| < |s| && s[b + |before|] == '"'
    requires Stands(s, b + |before| + 1, UnitsText(key))
    requires var q := b + |before| + 1 + |UnitsText(key)|;
             && q < |s| && s[q] == '"' && Stands(s, q + 1, gap) && q + 1 + |gap| < |s| && s[q + 1 + |gap|] == ':'
             && ValuePart(s, q + 1 + |gap| + 1, part, e)
    ensures MembersReadAs(s, b, members, e)
  {
    var rest := ValueTail(part);
    ColonStands(s, b + |before| + 1 + |UnitsText(key)|, gap, rest);
    KeyStands(s, b, before, UnitsText(key), ['"'] + (gap + ([':'] + rest)));
    KeyedText(before, key, gap, part);
    members := Keyed(before, key, gap, part);
  }

  /** A value between its blanks. */
  lemma {:induction false} BlankedRead(s: string, b: nat, a: nat) returns (before: string, v: Value, after: string)
    requires b <= |s| && J.Value(s, J.Space(s, b)) == Some(a) && a <= |s|
    ensures Blank(before) && ValueOk(v) && Blank(after) && Stands(s, b, before) && Stands(s, b + |before|, ValueText(v))
    ensures Stands(s, b + |before| + |ValueText(v)|, after)
    ensures b + |before| + |ValueText(v)| + |after| == J.Space(s, a)
    decreases |s| - b, 1
  {
    before := BlanksRead(s, b);
    v := ValueRead(s, J.Space(s, b));
    after := BlanksRead(s, a);
  }

  /** The value of a member, its blanks and what follows. */
  lemma {:induction false} ValuePartRead(s: string, b: nat, a: nat, d: nat, e: nat) returns (members: Members)
    requires b <= |s| && J.Value(s, J.Space(s, b)) == Some(a) && b <= a <= |s| && J.Space(s, a) == d && GoOn(s, d, e)
    ensures ValuePart(s, b, members, e)
    decreases |s| - b, 3
  {
    var middle, v, after := BlankedRead(s, b, a);
    if s[d] == '}' {
      members := LastValuePart(s, b, middle, v, after);
    } else {
      var rest := MembersRead(s, d + 1);
      members := MoreValuePart(s, b, middle, v, after, rest, e);
    }
  }

  /** A member list whose first key and colon are located and whose rest is read. */
  lemma KeyedRead(s: string, b: nat, g: nat, m: nat, part: Members, e: nat) returns (members: Members)
    requires b <= |s| && J.Space(s, b) < |s| && s[J.Space(s, b)] == '"'
    requires J.Str(s, J.Space(s, b) + 1) == Some(g) && g <= |s| && J.Space(s, g) == m < |s| && s[m] == ':'
    requires ValuePart(s, m + 1, part, e)
    ensures MembersReadAs(s, b, members, e)
  {
    var before, key, gap := KeyRead(s, b, g, m);
    members := MembersMade(s, b, before, key, gap, part, e);
  }

  lemma {:induction false} MembersRead(s: string, b: nat) returns (members: Members)
    requires b <= |s| && J.Members(s, J.Space(s, b)).Some?
    ensures MembersReadAs(s, b, members, J.Members(s, J.Space(s, b)).value)
    decreases |s| - b, 2
  {
    var e := J.Members(s, J.Space(s, b)).value;
    var g, m, a, d := FirstMemberShape(s, b, e);
    var part := ValuePartRead(s, m + 1, a, d, e);
    members := KeyedRead(s, b, g, m, part, e);
  }

  // ---- The whole text ------------------------------------------------------------------------------------------

  lemma WholeIs(s: string, before: string, text: string, after: string)
    requires Stands(s, 0, before) && Stands(s, |before|, text) && Stands(s, |before| + |text|, after)
    requires |before| + |text| + |after| == |s|
    ensures s == before + text + after
  {
    StandsSplit(s, 0, before, text);
    StandsSplit(s, 0, before + text, after);
    forall k | 0 <= k < |s| ensures s[k] == (before + text + after)[k] {
      CharAt(s, 0, before + text + after, k);
    }
  }

  lemma CompleteIsWritten(s: string) returns (before: string, v: Value, after: string)
    requires J.IsComplete(s)
    ensures Writes(s, before, v, after)
  {
    before := BlanksRead(s, 0);
    v := ValueRead(s, |before|);
    after := BlanksRead(s, |before| + |ValueText(v)|);
    WholeIs(s, before, ValueText(v), after);
  }

  /** The scanner accepts exactly the texts that write a JSON value between blanks. */
  lemma CompleteIffWritten(s: string)
    ensures J.IsComplete(s) <==> exists before, v, after :: Writes(s, before, v, after)
  {
    if J.IsComplete(s) {
      var before, v, after := CompleteIsWritten(s);
    } else if exists before, v, after :: Writes(s, before, v, after) {
      var before, v, after :| Writes(s, before, v, after);
      WrittenIsComplete(s, before, v, after);
    }
  }
}
