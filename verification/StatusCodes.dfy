/** The status-code list parser of the health-probe annotations. */
module StatusCodes {
  import opened Text

  /** An inclusive range of HTTP status codes; both ends are Go `int32`s. */
  datatype CodeRange = CodeRange(start: int, end: int)

  predicate InRange(c: CodeRange) {
    0 <= c.start <= MAX_INT32 && 0 <= c.end <= MAX_INT32
  }

  /** One bound of a range. */
  function ParseBound(s: string): (r: Option<int>)
    ensures r.Some? && '-' !in s ==> 0 <= r.value <= MAX_INT32
  {
    ParseInt(TrimSpace(s), TWO_TO_THE_31)
  }

  /** What one comma-separated piece adds: None is a parse error. A piece with two or more dashes adds nothing. */
  function ParsePiece(piece: string): (r: Option<seq<CodeRange>>)
    ensures r.Some? ==> forall c | c in r.value :: InRange(c)
  {
    hide ParseBound;
    var bounds := Split(piece, '-');
    if |bounds| == 1 then
      match ParseBound(bounds[0])
      case None => None
      case Some(n) => Some([CodeRange(n, n)])
    else if |bounds| == 2 then
      match ParseBound(bounds[0])
      case None => None
      case Some(a) =>
        match ParseBound(bounds[1])
        case None => None
        case Some(b) => Some([CodeRange(a, b)])
    else Some([])
  }

  /** The ranges of all pieces in order, or None if any piece fails. */
  function ParsePieces(pieces: seq<string>): (r: Option<seq<CodeRange>>)
    ensures r.Some? ==> forall c | c in r.value :: InRange(c)
  {
    if pieces == [] then Some([])
    else
      var init := pieces[..|pieces| - 1];
      match ParsePieces(init)
      case None => None
      case Some(codes) =>
        match ParsePiece(pieces[|pieces| - 1])
        case None => None
        case Some(more) => Some(codes + more)
  }

  lemma ParsePiecesSnoc(init: seq<string>, last: string)
    ensures ParsePieces(init + [last]) ==
            if ParsePieces(init).None? || ParsePiece(last).None? then None
            else Some(ParsePieces(init).value + ParsePiece(last).value)
  {
    assert (init + [last])[..|init|] == init;
  }

  function Parse(value: string): (r: Option<seq<CodeRange>>)
    ensures r.Some? ==> forall c | c in r.value :: InRange(c)
  {
    ParsePieces(Split(value, ','))
  }

  /** The parser as a loop over the pieces. */
  method ParseStatusCodes(value: string) returns (r: Option<seq<CodeRange>>)
    ensures r == Parse(value)
    ensures r.Some? ==> forall c | c in r.value :: InRange(c)
  {
    hide ParseBound;
    hide Split;
    var pieces := Split(value, ',');
    var statusCodes: seq<CodeRange> := [];
    for i := 0 to |pieces|
      invariant ParsePieces(pieces[..i]) == Some(statusCodes)
    {
      var bounds := Split(pieces[i], '-');
      ParsePiecesSnoc(pieces[..i], pieces[i]);
      assert pieces[..i + 1] == pieces[..i] + [pieces[i]];
      if |bounds| == 1 {
        var n := ParseBound(bounds[0]);
        if n.None? {
          FailureIsFinal(pieces, i + 1);
          return None;
        }
        statusCodes := statusCodes + [CodeRange(n.value, n.value)];
      } else if |bounds| == 2 {
        var a := ParseBound(bounds[0]);
        if a.None? {
          FailureIsFinal(pieces, i + 1);
          return None;
        }
        var b := ParseBound(bounds[1]);
        if b.None? {
          FailureIsFinal(pieces, i + 1);
          return None;
        }
        statusCodes := statusCodes + [CodeRange(a.value, b.value)];
      } else {
        assert statusCodes + [] == statusCodes;
      }
    }
    assert pieces[..|pieces|] == pieces;
    return Some(statusCodes);
  }

  /** Once a prefix of the pieces fails, the whole list fails. */
  lemma {:induction false} FailureIsFinal(pieces: seq<string>, n: nat)
    requires n <= |pieces| && ParsePieces(pieces[..n]).None?
    ensures ParsePieces(pieces).None?
  {
    if n < |pieces| {
      var init := pieces[..|pieces| - 1];
      assert init[..n] == pieces[..n];
      FailureIsFinal(init, n);
    } else {
      assert pieces[..n] == pieces;
    }
  }

  // ---------- Round trip ----------

  /** A range printed the canonical way: "a" for a single code, "a-b" otherwise. */
  function PrintRange(c: CodeRange): string
    requires InRange(c)
  {
    if c.start == c.end then Print(c.start) else Print(c.start) + ['-'] + Print(c.end)
  }

  function PrintRanges(codes: seq<CodeRange>): (parts: seq<string>)
    requires forall c | c in codes :: InRange(c)
    ensures |parts| == |codes|
    ensures forall i | 0 <= i < |codes| :: parts[i] == PrintRange(codes[i])
  {
    seq(|codes|, i requires 0 <= i < |codes| => PrintRange(codes[i]))
  }

  /** A range as it may be written: with any space around its ends, and as one number if it is a single code. */
  ghost predicate Spells(piece: string, c: CodeRange)
    requires InRange(c)
  {
    || (exists pre, post ::
          Blank(pre) && Blank(post) && c.start == c.end && piece == pre + Print(c.start) + post)
    || (exists pre, mid, next, post ::
          && Blank(pre) && Blank(mid) && Blank(next) && Blank(post)
          && piece == (pre + Print(c.start) + mid) + ['-'] + (next + Print(c.end) + post))
  }

  lemma BlankIsPlain(s: string)
    requires Blank(s)
    ensures '-' !in s && ',' !in s
  {
  }

  lemma BoundRoundTrip(n: nat, pre: string, post: string)
    requires n <= MAX_INT32 && Blank(pre) && Blank(post)
    ensures ParseBound(pre + Print(n) + post) == Some(n)
    ensures '-' !in pre + Print(n) + post && ',' !in pre + Print(n) + post
  {
    hide Print;
    hide TrimSpace;
    hide Blank;
    TrimOfPrint(n);
    PrintIsTrimmed(n);
    TrimOfPadded(pre, Print(n), post);
    ParseOfPrint(n, TWO_TO_THE_31);
    PrintIsPlain(n);
    BlankIsPlain(pre);
    BlankIsPlain(post);
  }

  lemma PrintIsTrimmed(n: nat)
    ensures Trimmed(Print(n))
  {
    hide Print;
    var s := Print(n);
    assert IsDigit(s[0]) && IsDigit(s[|s| - 1]);
  }

  lemma PieceRoundTrip(piece: string, c: CodeRange)
    requires InRange(c) && Spells(piece, c)
    ensures ParsePiece(piece) == Some([c])
    ensures ',' !in piece
  {
    hide Print;
    hide ParseBound;
    hide Split;
    hide Blank;
    if pre, post :| Blank(pre) && Blank(post) && c.start == c.end && piece == pre + Print(c.start) + post {
      BoundRoundTrip(c.start, pre, post);
      SplitWithoutSeparator(piece, '-');
    } else {
      var pre, mid, next, post :|
        && Blank(pre) && Blank(mid) && Blank(next) && Blank(post)
        && piece == (pre + Print(c.start) + mid) + ['-'] + (next + Print(c.end) + post);
      var a, b := pre + Print(c.start) + mid, next + Print(c.end) + post;
      BoundRoundTrip(c.start, pre, mid);
      BoundRoundTrip(c.end, next, post);
      SplitAtSeparator(a, b, '-');
      SplitWithoutSeparator(b, '-');
      assert [a] + [b] == [a, b];
    }
  }

  lemma {:induction false} PiecesRoundTrip(pieces: seq<string>, codes: seq<CodeRange>)
    requires |pieces| == |codes|
    requires forall i | 0 <= i < |codes| :: InRange(codes[i]) && Spells(pieces[i], codes[i])
    ensures ParsePieces(pieces) == Some(codes)
    ensures forall p | p in pieces :: ',' !in p
  {
    hide ParsePiece;
    hide Spells;
    if codes != [] {
      var init, last := pieces[..|pieces| - 1], pieces[|pieces| - 1];
      PiecesRoundTrip(init, codes[..|codes| - 1]);
      PieceRoundTrip(last, codes[|codes| - 1]);
      ParsePiecesSnoc(init, last);
      assert pieces == init + [last];
      assert codes == codes[..|codes| - 1] + [codes[|codes| - 1]];
    }
  }

  /** Parsing the comma-joined list of any ranges, however they are spelled, returns the ranges. */
  lemma ParseOfSpelledRanges(pieces: seq<string>, codes: seq<CodeRange>)
    requires |pieces| == |codes| >= 1
    requires forall i | 0 <= i < |codes| :: InRange(codes[i]) && Spells(pieces[i], codes[i])
    ensures Parse(Join(pieces, ',')) == Some(codes)
  {
    hide Spells;
    PiecesRoundTrip(pieces, codes);
    SplitOfJoin(pieces, ',');
  }

  lemma PrintSpells(c: CodeRange)
    requires InRange(c)
    ensures Spells(PrintRange(c), c)
  {
    hide Print;
    var a, b := Print(c.start), Print(c.end);
    assert Blank("") && "" + a + "" == a && "" + b + "" == b;
    assert a + ['-'] + b == ("" + a + "") + ['-'] + ("" + b + "");
  }

  /** The canonical print of any non-empty list of ranges is one such list. */
  lemma ParseOfPrintedRanges(codes: seq<CodeRange>)
    requires codes != []
    requires forall c | c in codes :: InRange(c)
    ensures Parse(Join(PrintRanges(codes), ',')) == Some(codes)
  {
    hide Spells;
    hide PrintRange;
    forall i | 0 <= i < |codes| ensures InRange(codes[i]) && Spells(PrintRanges(codes)[i], codes[i]) {
      PrintSpells(codes[i]);
    }
    ParseOfSpelledRanges(PrintRanges(codes), codes);
  }

  // ---------- What the parser drops ----------

  /** At most one dash: a single code or one range. */
  predicate WellShaped(piece: string) {
    |Split(piece, '-')| <= 2
  }

  lemma PieceKept(piece: string)
    requires ParsePiece(piece).Some?
    ensures |ParsePiece(piece).value| == if WellShaped(piece) then 1 else 0
  {
  }

  lemma {:induction false} PiecesKept(pieces: seq<string>)
    requires ParsePieces(pieces).Some?
    ensures |ParsePieces(pieces).value| <= |pieces|
    ensures |ParsePieces(pieces).value| == |pieces| <==> forall p | p in pieces :: WellShaped(p)
  {
    hide ParsePiece;
    hide WellShaped;
    if pieces != [] {
      var init, last := pieces[..|pieces| - 1], pieces[|pieces| - 1];
      assert pieces == init + [last];
      ParsePiecesSnoc(init, last);
      PiecesKept(init);
      PieceKept(last);
    }
  }

  /** An accepted value yields one range for each piece exactly when no piece holds two or more dashes. */
  lemma EveryPieceKeptIff(value: string)
    requires Parse(value).Some?
    ensures |Parse(value).value| == |Split(value, ',')| <==> forall p | p in Split(value, ',') :: WellShaped(p)
  {
    PiecesKept(Split(value, ','));
  }

  /** The list "1-2-3" is accepted without an error and yields no range at all. */
  lemma DroppedPiece()
    ensures Parse("1-2-3") == Some([])
  {
    hide Split;
    hide ParseBound;
    SplitWithoutSeparator("1-2-3", ',');
    assert "1-2-3" == "1" + ['-'] + "2-3" && "2-3" == "2" + ['-'] + "3";
    SplitAtSeparator("1", "2-3", '-');
    SplitAtSeparator("2", "3", '-');
    assert |Split("1-2-3", '-')| >= 3;
    assert ParsePiece("1-2-3") == Some([]);
    ParsePiecesSnoc([], "1-2-3");
    assert [] + ["1-2-3"] == ["1-2-3"];
    var none: seq<CodeRange> := [];
    assert none + none == none;
  }
}
