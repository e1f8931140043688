/**
 * Splitting a schema file into statements or batches with the two regular
 * expressions the setup scripts use: `/\bGO\b|;/` (initialisation) and
 * `/\bGO\b/gi` (production setup).  `\b` is the ECMAScript word boundary
 * over `[A-Za-z0-9_]`; without the `u` flag, ignoring case adds only `g`
 * and `o`.
 */
module SqlScript {
  import opened JsText

  /** Which separators a split recognises. */
  datatype Splitter = Splitter(ignoreCase: bool, onSemicolon: bool)

  /** `/\bGO\b|;/` */
  const StatementSplitter := Splitter(false, true)
  /** `/\bGO\b/gi` */
  const BatchSplitter := Splitter(true, false)

  predicate IsG(c: char, ignoreCase: bool) {
    c == 'G' || (ignoreCase && c == 'g')
  }

  predicate IsO(c: char, ignoreCase: bool) {
    c == 'O' || (ignoreCase && c == 'o')
  }

  /** `\bGO\b` matches at `i`: the two letters, with no word character
      directly before or after them. */
  predicate GoAt(s: string, i: nat, ignoreCase: bool) {
    && i + 2 <= |s|
    && IsG(s[i], ignoreCase) && IsO(s[i + 1], ignoreCase)
    && (i == 0 || !IsWordChar(s[i - 1]))
    && (i + 2 == |s| || !IsWordChar(s[i + 2]))
  }

  /** The length of the separator matching at `i`, 0 when none does; the
      `GO` alternative is tried first. */
  function SeparatorAt(sp: Splitter, s: string, i: nat): (k: nat)
    requires i < |s|
    ensures k <= |s| - i
    ensures k == 0 || k == 1 || k == 2
  {
    if GoAt(s, i, sp.ignoreCase) then 2
    else if sp.onSemicolon && s[i] == ';' then 1
    else 0
  }

  /** One fragment of the split, the separator that ended it (empty for the
      last fragment) and the index in the text where that separator begins. */
  datatype Piece = Piece(text: string, sep: string, at: nat)

  /** Scanning from `i`, the current fragment having begun at `start`. */
  function PiecesFrom(sp: Splitter, s: string, start: nat, i: nat): (r: seq<Piece>)
    requires start <= i <= |s|
    ensures |r| >= 1 && r[|r| - 1].sep == ""
    decreases |s| - i
  {
    if i == |s| then [Piece(s[start..], "", |s|)]
    else
      var k := SeparatorAt(sp, s, i);
      if k > 0 then [Piece(s[start..i], s[i..i + k], i)] + PiecesFrom(sp, s, i + k, i + k)
      else PiecesFrom(sp, s, start, i + 1)
  }

  function Pieces(sp: Splitter, s: string): seq<Piece> {
    PiecesFrom(sp, s, 0, 0)
  }

  /** `s.split(re)`. */
  function Fragments(sp: Splitter, s: string): (r: seq<string>)
    ensures |r| == |Pieces(sp, s)|
  {
    var ps := Pieces(sp, s);
    seq(|ps|, i requires 0 <= i < |ps| => ps[i].text)
  }

  /** The fragments with their separators put back. */
  function Rebuild(ps: seq<Piece>): string {
    if |ps| == 0 then "" else ps[0].text + ps[0].sep + Rebuild(ps[1..])
  }

  /** Splitting loses nothing: the fragments and the separators between
      them spell the input. */
  lemma RebuildCons(p: Piece, ps: seq<Piece>)
    ensures Rebuild([p] + ps) == p.text + p.sep + Rebuild(ps)
  {
    assert ([p] + ps)[0] == p;
    assert ([p] + ps)[1..] == ps;
  }

  lemma {:induction false} RebuildPiecesFrom(sp: Splitter, s: string, start: nat, i: nat)
    requires start <= i <= |s|
    ensures Rebuild(PiecesFrom(sp, s, start, i)) == s[start..]
    decreases |s| - i
  {
    if i == |s| {
      RebuildCons(Piece(s[start..], "", |s|), []);
    } else {
      var k := SeparatorAt(sp, s, i);
      if k > 0 {
        RebuildPiecesFrom(sp, s, i + k, i + k);
        RebuildSeparatorStep(sp, s, start, i);
      } else {
        PlainStep(sp, s, start, i);
        RebuildPiecesFrom(sp, s, start, i + 1);
      }
    }
  }

  lemma RebuildSeparatorStep(sp: Splitter, s: string, start: nat, i: nat)
    requires start <= i < |s| && SeparatorAt(sp, s, i) > 0
    requires var k := SeparatorAt(sp, s, i);
             Rebuild(PiecesFrom(sp, s, i + k, i + k)) == s[i + k..]
    ensures Rebuild(PiecesFrom(sp, s, start, i)) == s[start..]
  {
    var k := SeparatorAt(sp, s, i);
    var rest := PiecesFrom(sp, s, i + k, i + k);
    SeparatorStep(sp, s, start, i);
    RebuildCons(Piece(s[start..i], s[i..i + k], i), rest);
    SliceThree(s, start, i, i + k);
  }

  lemma SliceThree(s: string, a: nat, b: nat, c: nat)
    requires a <= b <= c <= |s|
    ensures s[a..] == s[a..b] + s[b..c] + s[c..]
  {
  }

  lemma RebuildPieces(sp: Splitter, s: string)
    ensures Rebuild(Pieces(sp, s)) == s
  {
    RebuildPiecesFrom(sp, s, 0, 0);
  }

  /** A piece's separator is what the text holds at its index, and it is
      either a `GO` standing alone there (no word character on either side)
      or a `;` where the split cuts on one. */
  predicate GoodSeparator(sp: Splitter, s: string, p: Piece) {
    || p.sep == ""
    || (&& p.at + |p.sep| <= |s| && s[p.at..p.at + |p.sep|] == p.sep
        && ((|p.sep| == 2 && GoAt(s, p.at, sp.ignoreCase)) || (sp.onSemicolon && p.sep == ";")))
  }

  /** Every cut of the split, in any text, is a separator match at its index. */
  lemma {:induction false} SeparatorsFrom(sp: Splitter, s: string, start: nat, i: nat)
    requires start <= i <= |s|
    ensures forall j :: 0 <= j < |PiecesFrom(sp, s, start, i)| ==> GoodSeparator(sp, s, PiecesFrom(sp, s, start, i)[j])
    decreases |s| - i
  {
    if i < |s| {
      var k := SeparatorAt(sp, s, i);
      if k > 0 {
        SeparatorsFrom(sp, s, i + k, i + k);
        SeparatorHere(sp, s, start, i);
        SeparatorStep(sp, s, start, i);
        ConsAll(Piece(s[start..i], s[i..i + k], i), PiecesFrom(sp, s, i + k, i + k), sp, s);
      } else {
        PlainStep(sp, s, start, i);
        SeparatorsFrom(sp, s, start, i + 1);
      }
    }
  }

  /** The separator the scan cuts at `i` is a good one. */
  lemma SeparatorHere(sp: Splitter, s: string, start: nat, i: nat)
    requires start <= i < |s| && SeparatorAt(sp, s, i) > 0
    ensures var k := SeparatorAt(sp, s, i);
            GoodSeparator(sp, s, Piece(s[start..i], s[i..i + k], i))
  {
  }

  lemma ConsAll(p: Piece, ps: seq<Piece>, sp: Splitter, s: string)
    requires GoodSeparator(sp, s, p)
    requires forall j :: 0 <= j < |ps| ==> GoodSeparator(sp, s, ps[j])
    ensures forall j :: 0 <= j < |[p] + ps| ==> GoodSeparator(sp, s, ([p] + ps)[j])
  {
    forall j | 0 <= j < |[p] + ps|
      ensures GoodSeparator(sp, s, ([p] + ps)[j])
    {
      if j > 0 {
        assert ([p] + ps)[j] == ps[j - 1];
      }
    }
  }

  /** So a `GO` with a word character directly before or after it is never
      the separator of any piece. */
  lemma WordGoNeverCuts(sp: Splitter, s: string, p: Piece)
    requires p in Pieces(sp, s) && |p.sep| == 2 && p.at + 2 <= |s|
    ensures p.at > 0 ==> !IsWordChar(s[p.at - 1])
    ensures p.at + 2 < |s| ==> !IsWordChar(s[p.at + 2])
  {
    SeparatorsFrom(sp, s, 0, 0);
    var j :| 0 <= j < |Pieces(sp, s)| && Pieces(sp, s)[j] == p;
    assert GoodSeparator(sp, s, p);
  }

  /** Where `;` splits, no fragment keeps one. */
  lemma {:induction false} NoSemicolonFrom(sp: Splitter, s: string, start: nat, i: nat)
    requires sp.onSemicolon && start <= i <= |s|
    requires forall j :: start <= j < i ==> s[j] != ';'
    ensures forall p :: p in PiecesFrom(sp, s, start, i) ==> ';' !in p.text
    decreases |s| - i
  {
    if i == |s| {
      assert forall c :: c in s[start..] ==> c != ';';
    } else {
      var k := SeparatorAt(sp, s, i);
      if k > 0 {
        assert forall c :: c in s[start..i] ==> c != ';';
        NoSemicolonFrom(sp, s, i + k, i + k);
      } else {
        NoSemicolonFrom(sp, s, start, i + 1);
      }
    }
  }

  lemma NoSemicolonInStatements(s: string)
    ensures forall f :: f in Fragments(StatementSplitter, s) ==> ';' !in f
  {
    NoSemicolonFrom(StatementSplitter, s, 0, 0);
    var ps := Pieces(StatementSplitter, s);
    assert forall f :: f in Fragments(StatementSplitter, s) ==> exists j :: 0 <= j < |ps| && ps[j].text == f;
  }

  /** Scanning a character that starts no separator continues the fragment. */
  lemma PlainStep(sp: Splitter, s: string, start: nat, i: nat)
    requires start <= i < |s| && SeparatorAt(sp, s, i) == 0
    ensures PiecesFrom(sp, s, start, i) == PiecesFrom(sp, s, start, i + 1)
  {
  }

  /** A text that contains no separator at all is a single fragment. */
  lemma {:induction false} NoSeparatorFrom(sp: Splitter, s: string, start: nat, i: nat)
    requires start <= i <= |s|
    requires forall j :: i <= j < |s| ==> SeparatorAt(sp, s, j) == 0
    ensures PiecesFrom(sp, s, start, i) == [Piece(s[start..], "", |s|)]
    decreases |s| - i
  {
    if i < |s| {
      PlainStep(sp, s, start, i);
      NoSeparatorFrom(sp, s, start, i + 1);
    }
  }

  /** A separator at `i` closes the current fragment. */
  lemma SeparatorStep(sp: Splitter, s: string, start: nat, i: nat)
    requires start <= i < |s| && SeparatorAt(sp, s, i) > 0
    ensures var k := SeparatorAt(sp, s, i);
            PiecesFrom(sp, s, start, i) == [Piece(s[start..i], s[i..i + k], i)] + PiecesFrom(sp, s, i + k, i + k)
  {
  }

  /** For instance `GOTO` is one fragment, with or without case. */
  lemma GotoIsOneFragment(sp: Splitter)
    ensures Fragments(sp, "GOTO") == ["GOTO"]
  {
    var s := "GOTO";
    assert !IsWordChar(s[2]) == false;
    forall j | 0 <= j < |s|
      ensures SeparatorAt(sp, s, j) == 0
    {
      assert !GoAt(s, j, sp.ignoreCase);
    }
    NoSeparatorFrom(sp, s, 0, 0);
  }

  /** Lower-case `go` on its own line separates batches but not statements. */
  lemma LowerGoStatements()
    ensures Fragments(StatementSplitter, "a\ngo\nb") == ["a\ngo\nb"]
  {
    var s := "a\ngo\nb";
    forall j | 0 <= j < |s|
      ensures SeparatorAt(StatementSplitter, s, j) == 0
    {
    }
    NoSeparatorFrom(StatementSplitter, s, 0, 0);
  }

  lemma LowerGoBatches()
    ensures Fragments(BatchSplitter, "a\ngo\nb") == ["a\n", "\nb"]
  {
    var s := "a\ngo\nb";
    GoBatchHead(s);
    GoBatchTail(s);
    TwoPieces(BatchSplitter, s, Piece("a\n", "go", 2), Piece("\nb", "", 6));
  }

  /** A split into two pieces has their two texts as its fragments. */
  lemma TwoPieces(sp: Splitter, s: string, p: Piece, q: Piece)
    requires Pieces(sp, s) == [p] + [q]
    ensures Fragments(sp, s) == [p.text, q.text]
  {
  }

  lemma GoBatchHead(s: string)
    requires s == "a\ngo\nb"
    ensures PiecesFrom(BatchSplitter, s, 0, 0) == [Piece("a\n", "go", 2)] + PiecesFrom(BatchSplitter, s, 4, 4)
  {
    var sp := BatchSplitter;
    assert SeparatorAt(sp, s, 0) == 0;
    PlainStep(sp, s, 0, 0);
    assert SeparatorAt(sp, s, 1) == 0;
    PlainStep(sp, s, 0, 1);
    assert GoAt(s, 2, true);
    SeparatorStep(sp, s, 0, 2);
    assert s[0..2] == "a\n" && s[2..4] == "go";
  }

  lemma GoBatchTail(s: string)
    requires s == "a\ngo\nb"
    ensures PiecesFrom(BatchSplitter, s, 4, 4) == [Piece("\nb", "", 6)]
  {
    var sp := BatchSplitter;
    assert SeparatorAt(sp, s, 4) == 0;
    PlainStep(sp, s, 4, 4);
    assert SeparatorAt(sp, s, 5) == 0;
    PlainStep(sp, s, 4, 5);
    assert s[4..] == "\nb";
  }

  /** The production split does not cut at `;`. */
  lemma BatchesKeepSemicolons()
    ensures Fragments(BatchSplitter, "a;b") == ["a;b"]
  {
    var s := "a;b";
    forall j | 0 <= j < |s|
      ensures SeparatorAt(BatchSplitter, s, j) == 0
    {
    }
    NoSeparatorFrom(BatchSplitter, s, 0, 0);
  }

  lemma StatementsSplitAtSemicolon()
    ensures Fragments(StatementSplitter, "a;b") == ["a", "b"]
  {
    var s := "a;b";
    var sp := StatementSplitter;
    assert SeparatorAt(sp, s, 0) == 0;
    PlainStep(sp, s, 0, 0);
    assert SeparatorAt(sp, s, 1) == 1;
    SeparatorStep(sp, s, 0, 1);
    NoSeparatorFrom(sp, s, 2, 2);
    assert s[0..1] == "a" && s[2..] == "b";
    TwoPieces(sp, s, Piece("a", s[1..2], 1), Piece("b", "", 3));
  }
}
