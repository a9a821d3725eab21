/** Where pieces stand in a text. */
module Layout {

  /** `piece` stands in `text` at `at`. */
  predicate Stands(text: string, at: nat, piece: string) {
    at + |piece| <= |text| && forall k :: 0 <= k < |piece| ==> text[at + k] == piece[k]
  }

  /** How far the piece at `k` is from the start when `gap` characters stand between neighbours. */
  function Offset(pieces: seq<string>, k: nat, gap: nat): nat
    requires k <= |pieces|
  {
    if k == 0 then 0 else Offset(pieces, k - 1, gap) + |pieces[k - 1]| + gap
  }

  predicate PieceAt(text: string, pieces: seq<string>, gap: string, k: nat)
    requires k < |pieces|
  {
    Stands(text, Offset(pieces, k, |gap|), pieces[k])
  }

  /** The gap before the piece at `k`. */
  predicate GapAt(text: string, pieces: seq<string>, gap: string, k: nat)
    requires 0 < k < |pieces|
  {
    Stands(text, Offset(pieces, k - 1, |gap|) + |pieces[k - 1]|, gap)
  }

  /** The text is the pieces in order, with exactly `gap` between neighbours. */
  predicate LaidOut(text: string, pieces: seq<string>, gap: string) {
    && (if pieces == [] then text == "" else |text| + |gap| == Offset(pieces, |pieces|, |gap|))
    && (forall k :: 0 <= k < |pieces| ==> PieceAt(text, pieces, gap, k))
    && (forall k :: 0 < k < |pieces| ==> GapAt(text, pieces, gap, k))
  }

  lemma CharAt(text: string, at: nat, piece: string, k: nat)
    requires Stands(text, at, piece) && k < |piece|
    ensures at + k < |text| && text[at + k] == piece[k]
  {
  }

  /** Two pieces, one behind the other. */
  lemma StandsSplit(text: string, at: nat, a: string, b: string)
    ensures Stands(text, at, a + b) <==> Stands(text, at, a) && Stands(text, at + |a|, b)
  {
    if Stands(text, at, a + b) {
      forall k | 0 <= k < |a| ensures text[at + k] == a[k] { CharAt(text, at, a + b, k); }
      forall k | 0 <= k < |b| ensures text[at + |a| + k] == b[k] { CharAt(text, at, a + b, |a| + k); }
    }
    if Stands(text, at, a) && Stands(text, at + |a|, b) {
      forall k | 0 <= k < |a + b| ensures text[at + k] == (a + b)[k] {
        if k < |a| { CharAt(text, at, a, k); } else { CharAt(text, at + |a|, b, k - |a|); }
      }
    }
  }

  /** Three pieces, one behind the other. */
  lemma StandsInThree(text: string, at: nat, a: string, b: string, c: string)
    requires Stands(text, at, a + (b + c))
    ensures Stands(text, at, a) && Stands(text, at + |a|, b) && Stands(text, at + |a| + |b|, c)
    ensures at + |a| + |b| + |c| == at + |a + (b + c)| <= |text|
  {
    StandsSplit(text, at, a, b + c);
    StandsSplit(text, at + |a|, b, c);
  }

  /** One character and the rest. */
  lemma StandsHead(text: string, at: nat, c: char, rest: string)
    ensures Stands(text, at, [c] + rest) <==> at < |text| && text[at] == c && Stands(text, at + 1, rest)
  {
    StandsSplit(text, at, [c], rest);
    if Stands(text, at, [c]) { CharAt(text, at, [c], 0); }
  }

  /** A text that is not empty, from its first character on. */
  lemma StandsFirst(text: string, at: nat, piece: string)
    requires Stands(text, at, piece) && piece != ""
    ensures at < |text| && text[at] == piece[0] && Stands(text, at + 1, piece[1..])
  {
    assert piece == [piece[0]] + piece[1..];
    StandsHead(text, at, piece[0], piece[1..]);
  }

  lemma StandsLonger(text: string, at: nat, piece: string, more: string)
    requires Stands(text, at, piece)
    ensures Stands(text + more, at, piece)
  {
  }

  lemma StandsAtEnd(text: string, piece: string)
    ensures Stands(text + piece, |text|, piece)
  {
  }

  lemma {:induction false} OffsetSnoc(pieces: seq<string>, last: string, k: nat, gap: nat)
    requires k <= |pieces|
    ensures Offset(pieces + [last], k, gap) == Offset(pieces, k, gap)
  {
    if k == 0 {
    } else {
      OffsetSnoc(pieces, last, k - 1, gap);
    }
  }

  lemma OneLaidOut(piece: string, gap: string)
    ensures LaidOut(piece, [piece], gap)
  {
    assert Offset([piece], 1, |gap|) == Offset([piece], 0, |gap|) + |piece| + |gap|;
  }

  lemma PieceStays(text: string, pieces: seq<string>, gap: string, more: string, last: string, k: nat)
    requires k < |pieces| && PieceAt(text, pieces, gap, k)
    ensures PieceAt(text + more, pieces + [last], gap, k)
  {
    OffsetSnoc(pieces, last, k, |gap|);
    StandsLonger(text, Offset(pieces, k, |gap|), pieces[k], more);
  }

  lemma GapStays(text: string, pieces: seq<string>, gap: string, more: string, last: string, k: nat)
    requires 0 < k < |pieces| && GapAt(text, pieces, gap, k)
    ensures GapAt(text + more, pieces + [last], gap, k)
  {
    OffsetSnoc(pieces, last, k - 1, |gap|);
    StandsLonger(text, Offset(pieces, k - 1, |gap|) + |pieces[k - 1]|, gap, more);
  }

  lemma LastPiece(text: string, pieces: seq<string>, gap: string, last: string)
    requires pieces != [] && |text| + |gap| == Offset(pieces, |pieces|, |gap|)
    ensures var whole, more := text + (gap + last), pieces + [last];
            && PieceAt(whole, more, gap, |pieces|) && GapAt(whole, more, gap, |pieces|)
            && |whole| + |gap| == Offset(more, |more|, |gap|)
  {
    var n := |pieces|;
    OffsetSnoc(pieces, last, n, |gap|);
    OffsetSnoc(pieces, last, n - 1, |gap|);
    assert text + (gap + last) == text + gap + last;
    StandsAtEnd(text + gap, last);
    StandsAtEnd(text, gap);
    StandsLonger(text + gap, |text|, gap, last);
  }

  /** One more piece at the end. */
  lemma LaidOutSnoc(text: string, pieces: seq<string>, gap: string, last: string)
    requires LaidOut(text, pieces, gap) && pieces != []
    ensures LaidOut(text + (gap + last), pieces + [last], gap)
  {
    var whole, more := text + (gap + last), pieces + [last];
    LastPiece(text, pieces, gap, last);
    forall k | 0 <= k < |more| ensures PieceAt(whole, more, gap, k) {
      if k < |pieces| { PieceStays(text, pieces, gap, gap + last, last, k); }
    }
    forall k | 0 < k < |more| ensures GapAt(whole, more, gap, k) {
      if k < |pieces| { GapStays(text, pieces, gap, gap + last, last, k); }
    }
  }

  /** One more piece right behind the others. */
  lemma LaidOutNext(text: string, pieces: seq<string>, last: string)
    requires LaidOut(text, pieces, "")
    ensures LaidOut(text + last, pieces + [last], "")
  {
    if pieces == [] {
      OneLaidOut(last, "");
      assert text + last == last && pieces + [last] == [last];
    } else {
      LaidOutSnoc(text, pieces, "", last);
      assert "" + last == last;
    }
  }
}
