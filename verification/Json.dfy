/** When `json.loads` accepts a text: the grammar of RFC 8259 (sections 2 to 7) plus the
    literals NaN, Infinity and -Infinity, with a value located by the position it ends at. */
module Json {
  import opened Wrappers

  predicate IsSpace(c: char) {
    c == ' ' || c == '\t' || c == '\n' || c == '\r'
  }

  predicate IsDigit(c: char) {
    '0' <= c <= '9'
  }

  predicate IsHex(c: char) {
    IsDigit(c) || 'a' <= c <= 'f' || 'A' <= c <= 'F'
  }

  /** The end of the whitespace run at `i`. */
  function Space(s: string, i: nat): (e: nat)
    requires i <= |s|
    ensures i <= e <= |s|
    decreases |s| - i
  {
    if i < |s| && IsSpace(s[i]) then Space(s, i + 1) else i
  }

  function Digits(s: string, i: nat): (e: nat)
    requires i <= |s|
    ensures i <= e <= |s|
    decreases |s| - i
  {
    if i < |s| && IsDigit(s[i]) then Digits(s, i + 1) else i
  }

  /** The end of a string whose opening quote is just before `i`. */
  function Str(s: string, i: nat): (r: Option<nat>)
    requires i <= |s|
    ensures r.Some? ==> i < r.value <= |s|
    decreases |s| - i
  {
    if i == |s| || s[i] < ' ' then None
    else if s[i] == '"' then Some(i + 1)
    else if s[i] != '\\' then Str(s, i + 1)
    else if i + 1 < |s| && s[i + 1] in "\"\\/bfnrt" then Str(s, i + 2)
    else if i + 5 < |s| && s[i + 1] == 'u' && IsHex(s[i + 2]) && IsHex(s[i + 3]) && IsHex(s[i + 4]) && IsHex(s[i + 5])
    then Str(s, i + 6)
    else None
  }

  function Fraction(s: string, i: nat): (e: nat)
    requires i <= |s|
    ensures i <= e <= |s|
  {
    if i + 1 < |s| && s[i] == '.' && IsDigit(s[i + 1]) then Digits(s, i + 1) else i
  }

  function Exponent(s: string, i: nat): (e: nat)
    requires i <= |s|
    ensures i <= e <= |s|
  {
    if i + 1 < |s| && (s[i] == 'e' || s[i] == 'E') then
      if IsDigit(s[i + 1]) then Digits(s, i + 1)
      else if i + 2 < |s| && (s[i + 1] == '+' || s[i + 1] == '-') && IsDigit(s[i + 2]) then Digits(s, i + 2)
      else i
    else i
  }

  /** An unsigned number at `i`. */
  function Magnitude(s: string, i: nat): (r: Option<nat>)
    requires i <= |s|
    ensures r.Some? ==> i < r.value <= |s|
  {
    if i < |s| && IsDigit(s[i]) then
      Some(Exponent(s, Fraction(s, if s[i] == '0' then i + 1 else Digits(s, i))))
    else None
  }

  function Number(s: string, i: nat): (r: Option<nat>)
    requires i <= |s|
    ensures r.Some? ==> i < r.value <= |s|
  {
    if i < |s| && s[i] == '-' then Magnitude(s, i + 1) else Magnitude(s, i)
  }

  /** The word stands at `i`, told from its character `k` on. */
  predicate Spells(s: string, i: nat, word: string, k: nat)
    requires k <= |word|
    decreases |word| - k
  {
    k == |word| || (i + k < |s| && s[i + k] == word[k] && Spells(s, i, word, k + 1))
  }

  function Literal(s: string, i: nat, word: string): (r: Option<nat>)
    requires i <= |s| && word != ""
    ensures r.Some? ==> i < r.value <= |s|
  {
    if i + |word| <= |s| && Spells(s, i, word, 0) then Some(i + |word|) else None
  }

  /** The end of the value at `i`. */
  function Value(s: string, i: nat): (r: Option<nat>)
    requires i <= |s|
    ensures r.Some? ==> i < r.value <= |s|
    decreases |s| - i, 0
  {
    if i == |s| then None
    else match s[i]
      case '"' => Str(s, i + 1)
      case '{' =>
        var j := Space(s, i + 1);
        if j < |s| && s[j] == '}' then Some(j + 1) else Members(s, j)
      case '[' =>
        var j := Space(s, i + 1);
        if j < |s| && s[j] == ']' then Some(j + 1) else Elements(s, j)
      case 'n' => Literal(s, i, "null")
      case 't' => Literal(s, i, "true")
      case 'f' => Literal(s, i, "false")
      case 'N' => Literal(s, i, "NaN")
      case 'I' => Literal(s, i, "Infinity")
      case _ => if Number(s, i).Some? then Number(s, i) else Literal(s, i, "-Infinity")
  }

  /** The end of one `"key": value` at `i`. */
  function Member(s: string, i: nat): (r: Option<nat>)
    requires i <= |s|
    ensures r.Some? ==> i < r.value <= |s|
    decreases |s| - i, 1
  {
    if i == |s| || s[i] != '"' || Str(s, i + 1).None? then None
    else
      var colon := Space(s, Str(s, i + 1).value);
      if colon == |s| || s[colon] != ':' then None else Value(s, Space(s, colon + 1))
  }

  /** The members of an object from the key at `i` to its closing brace. */
  function Members(s: string, i: nat): (r: Option<nat>)
    requires i <= |s|
    ensures r.Some? ==> i < r.value <= |s|
    decreases |s| - i, 2
  {
    var v := Member(s, i);
    if v.None? then None
    else
      var d := Space(s, v.value);
      if d < |s| && s[d] == '}' then Some(d + 1)
      else if d < |s| && s[d] == ',' then Members(s, Space(s, d + 1))
      else None
  }

  /** The elements of an array from the value at `i` to its closing bracket. */
  function Elements(s: string, i: nat): (r: Option<nat>)
    requires i <= |s|
    ensures r.Some? ==> i < r.value <= |s|
    decreases |s| - i, 1
  {
    var v := Value(s, i);
    if v.None? then None
    else
      var d := Space(s, v.value);
      if d < |s| && s[d] == ']' then Some(d + 1)
      else if d < |s| && s[d] == ',' then Elements(s, Space(s, d + 1))
      else None
  }

  /** `_is_complete_json`: the whole text is one value between whitespace. */
  predicate IsComplete(s: string) {
    var v := Value(s, Space(s, 0));
    v.Some? && Space(s, v.value) == |s|
  }

  /** The complete text is a number; every other value ends at a character of its own. */
  predicate IsNumberText(s: string) {
    Number(s, Space(s, 0)).Some?
  }

  // ---- Reading the same value in a longer text -------------------------------------------

  /** What may follow a value inside an object or array. */
  predicate IsDelimiter(c: char) {
    IsSpace(c) || c == ',' || c == ']' || c == '}'
  }

  lemma SpaceStable(s: string, t: string, i: nat)
    requires s <= t && i <= |s| && Space(s, i) < |s|
    ensures Space(t, i) == Space(s, i)
    decreases |s| - i
  {
    if !IsSpace(s[i]) {
    } else {
      SpaceStable(s, t, i + 1);
    }
  }

  lemma DigitsStable(s: string, t: string, i: nat)
    requires s <= t && i <= |s| && Digits(s, i) < |s|
    ensures Digits(t, i) == Digits(s, i)
    decreases |s| - i
  {
    if !IsDigit(s[i]) {
    } else {
      DigitsStable(s, t, i + 1);
    }
  }

  lemma StrStable(s: string, t: string, i: nat)
    requires s <= t && i <= |s| && Str(s, i).Some?
    ensures Str(t, i) == Str(s, i)
    decreases |s| - i
  {
    if s[i] == '"' {
    } else if s[i] != '\\' {
      StrStable(s, t, i + 1);
    } else if i + 1 < |s| && s[i + 1] in "\"\\/bfnrt" {
      StrStable(s, t, i + 2);
    } else {
      StrStable(s, t, i + 6);
    }
  }

  lemma FractionStable(s: string, t: string, i: nat)
    requires s <= t && i <= |s| && Fraction(s, i) < |s| && s[Fraction(s, i)] != '.'
    ensures Fraction(t, i) == Fraction(s, i)
  {
    if s[i] == '.' { DigitsStable(s, t, i + 1); }
  }

  lemma ExponentStable(s: string, t: string, i: nat)
    requires s <= t && i <= |s| && Exponent(s, i) < |s| && IsDelimiter(s[Exponent(s, i)])
    ensures Exponent(t, i) == Exponent(s, i)
  {
    if s[i] == 'e' || s[i] == 'E' {
      DigitsStable(s, t, if IsDigit(s[i + 1]) then i + 1 else i + 2);
    }
  }

  lemma MagnitudeStable(s: string, t: string, i: nat)
    requires s <= t && i <= |s| && Magnitude(s, i).Some?
    requires Magnitude(s, i).value < |s| && IsDelimiter(s[Magnitude(s, i).value])
    ensures Magnitude(t, i) == Magnitude(s, i)
  {
    if s[i] != '0' { DigitsStable(s, t, i); }
    var whole := if s[i] == '0' then i + 1 else Digits(s, i);
    FractionStable(s, t, whole);
    ExponentStable(s, t, Fraction(s, whole));
  }

  lemma NumberStable(s: string, t: string, i: nat)
    requires s <= t && i <= |s| && Number(s, i).Some?
    requires Number(s, i).value < |s| && IsDelimiter(s[Number(s, i).value])
    ensures Number(t, i) == Number(s, i)
  {
    MagnitudeStable(s, t, if s[i] == '-' then i + 1 else i);
  }

  lemma {:induction false} SpellsStable(s: string, t: string, i: nat, word: string, k: nat)
    requires s <= t && k <= |word| && Spells(s, i, word, k)
    ensures Spells(t, i, word, k)
    decreases |word| - k
  {
    if k == |word| {
    } else {
      SpellsStable(s, t, i, word, k + 1);
    }
  }

  lemma LiteralStable(s: string, t: string, i: nat, word: string)
    requires s <= t && i <= |s| && word != "" && Literal(s, i, word).Some?
    ensures Literal(t, i, word) == Literal(s, i, word)
  {
    SpellsStable(s, t, i, word, 0);
  }

  /** A value that does not end in a bare number reads the same in any longer text. */
  lemma {:induction false} ValueStable(s: string, t: string, i: nat)
    requires s <= t && i <= |s| && Value(s, i).Some?
    requires Number(s, i).Some? ==> Value(s, i).value < |s| && IsDelimiter(s[Value(s, i).value])
    ensures Value(t, i) == Value(s, i)
    decreases |s| - i, 0
  {
    if s[i] == '"' {
      StrStable(s, t, i + 1);
    } else if s[i] == '{' {
      var j := Space(s, i + 1);
      SpaceStable(s, t, i + 1);
      if s[j] != '}' { MembersStable(s, t, j); }
    } else if s[i] == '[' {
      var j := Space(s, i + 1);
      SpaceStable(s, t, i + 1);
      if s[j] != ']' { ElementsStable(s, t, j); }
    } else if s[i] == 'n' {
      LiteralStable(s, t, i, "null");
    } else if s[i] == 't' {
      LiteralStable(s, t, i, "true");
    } else if s[i] == 'f' {
      LiteralStable(s, t, i, "false");
    } else if s[i] == 'N' {
      LiteralStable(s, t, i, "NaN");
    } else if s[i] == 'I' {
      LiteralStable(s, t, i, "Infinity");
    } else if Number(s, i).Some? {
      NumberStable(s, t, i);
    } else {
      LiteralStable(s, t, i, "-Infinity");
      assert Spells(s, i, "-Infinity", 1) && t[i + 1] == s[i + 1] == 'I';
    }
  }

  lemma {:induction false} MemberStable(s: string, t: string, i: nat)
    requires s <= t && i <= |s| && Member(s, i).Some?
    requires Member(s, i).value < |s| && IsDelimiter(s[Member(s, i).value])
    ensures Member(t, i) == Member(s, i)
    decreases |s| - i, 1
  {
    StrStable(s, t, i + 1);
    var key := Str(s, i + 1).value;
    SpaceStable(s, t, key);
    var colon := Space(s, key);
    SpaceStable(s, t, colon + 1);
    ValueStable(s, t, Space(s, colon + 1));
  }

  /** The first member ends at `v`, and the delimiter at `d` decides how the members go on. */
  predicate GoesOn(s: string, i: nat, v: nat, d: nat)
    requires i <= |s|
  {
    Member(s, i) == Some(v) && v <= |s| && Space(s, v) == d < |s| && (s[d] == '}' || s[d] == ',')
  }

  lemma MembersGoOn(s: string, i: nat, v: nat, d: nat)
    requires i <= |s| && GoesOn(s, i, v, d)
    ensures Members(s, i) == if s[d] == '}' then Some(d + 1) else Members(s, Space(s, d + 1))
  {
  }

  /** One member and the delimiter behind it read the same. */
  lemma {:induction false} FirstMemberStable(s: string, t: string, i: nat) returns (v: nat, d: nat)
    requires s <= t && i <= |s| && Members(s, i).Some?
    ensures i < d < |s| && s[d] == t[d] && GoesOn(s, i, v, d) && GoesOn(t, i, v, d)
    decreases |s| - i, 2
  {
    v := Member(s, i).value;
    d := Space(s, v);
    MemberStable(s, t, i);
    SpaceStable(s, t, v);
  }

  lemma {:induction false} MembersStable(s: string, t: string, i: nat)
    requires s <= t && i <= |s| && Members(s, i).Some?
    ensures Members(t, i) == Members(s, i)
    decreases |s| - i, 3
  {
    var v, d := FirstMemberStable(s, t, i);
    MembersGoOn(s, i, v, d);
    MembersGoOn(t, i, v, d);
    if s[d] == ',' {
      SpaceStable(s, t, d + 1);
      MembersStable(s, t, Space(s, d + 1));
    }
  }

  lemma {:induction false} ElementsStable(s: string, t: string, i: nat)
    requires s <= t && i <= |s| && Elements(s, i).Some?
    ensures Elements(t, i) == Elements(s, i)
    decreases |s| - i, 1
  {
    var v := Value(s, i).value;
    var d := Space(s, v);
    ValueStable(s, t, i);
    SpaceStable(s, t, v);
    if s[d] == ',' {
      SpaceStable(s, t, d + 1);
      ElementsStable(s, t, Space(s, d + 1));
    }
  }

  /** A text of whitespace only. */
  predicate IsBlank(s: string) {
    Space(s, 0) == |s|
  }

  lemma {:induction false} BlankTail(p: string, q: string, e: nat)
    requires e <= |p| && Space(p + q, e) == |p + q|
    ensures forall k :: 0 <= k < |q| ==> IsSpace(q[k])
    decreases |p| + |q| - e
  {
    if e < |p| {
      BlankTail(p, q, e + 1);
    } else {
      AllSpace(p + q, e);
      forall k | 0 <= k < |q| ensures IsSpace(q[k]) {
        assert (p + q)[|p| + k] == q[k];
      }
    }
  }

  lemma {:induction false} AllSpace(s: string, i: nat)
    requires i <= |s| && Space(s, i) == |s|
    ensures forall k :: i <= k < |s| ==> IsSpace(s[k])
    decreases |s| - i
  {
    if i == |s| {
    } else {
      AllSpace(s, i + 1);
    }
  }

  lemma {:induction false} SpacesEnd(s: string, i: nat)
    requires i <= |s| && forall k :: i <= k < |s| ==> IsSpace(s[k])
    ensures Space(s, i) == |s|
    decreases |s| - i
  {
    if i == |s| {
    } else {
      SpacesEnd(s, i + 1);
    }
  }

  /** A complete value that is not a number is complete only up to whitespace: what can follow it
      in a longer complete text is blank. */
  lemma {:induction false} CompletePrefix(p: string, q: string)
    requires IsComplete(p) && IsComplete(p + q) && !IsNumberText(p)
    ensures IsBlank(q)
  {
    var i := Space(p, 0);
    SpaceStable(p, p + q, 0);
    ValueStable(p, p + q, i);
    BlankTail(p, q, Value(p, i).value);
    SpacesEnd(q, 0);
  }

  lemma BlankIncomplete(q: string)
    requires IsBlank(q)
    ensures !IsComplete(q)
  {
  }

  /** A complete text that starts like a number is one from its first prefix on. */
  lemma NumberPrefix(p: string, q: string)
    requires IsComplete(p) && IsNumberText(p)
    ensures IsNumberText(p + q)
  {
    var i := Space(p, 0);
    SpaceStable(p, p + q, 0);
    assert (p + q)[i] == p[i];
    if p[i] == '-' { assert (p + q)[i + 1] == p[i + 1]; }
  }

  /** No split of a complete non-number text gives two complete texts. */
  lemma {:induction false} NoCompleteSplit(p: string, q: string)
    requires IsComplete(p + q) && !IsNumberText(p + q)
    ensures !(IsComplete(p) && IsComplete(q))
  {
    if IsComplete(p) && IsComplete(q) {
      if IsNumberText(p) {
        NumberPrefix(p, q);
      } else {
        CompletePrefix(p, q);
        BlankIncomplete(q);
      }
      assert false;
    }
  }

  /** An object's text cut before a character that is no whitespace is not complete. */
  lemma CutObject(s: string, k: nat)
    requires IsComplete(s) && s[0] == '{' && k < |s| && !IsSpace(s[k])
    ensures !IsComplete(s[..k])
  {
    if IsComplete(s[..k]) {
      assert k > 0 && Space(s[..k], 0) == 0;
      assert s == s[..k] + s[k..];
      CompletePrefix(s[..k], s[k..]);
    }
  }
}
