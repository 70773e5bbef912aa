/** The texts normalisation leaves alone are exactly the ones it produces. */
module NormalizeFixpoint {
  import opened NormalizeKo
  import opened NormalizeProofs
  import opened NormalizeTheorems

  // ---------- the normal form, character by character ----------

  predicate Tight(t: string, i: nat)
    requires i + 1 < |t|
  {
    && !(Space(t[i]) && (Punct(t[i + 1]) || Closes(t[i + 1])))
    && !(Opens(t[i]) && Space(t[i + 1]))
  }

  predicate Apart(t: string, i: nat, digit: char -> bool)
    requires i < |t|
  {
    var after := t[i + 1..];
    digit(t[i]) && Run(after) > 0 ==> UnitLen(after[Run(after)..]) == 0
  }

  predicate AllTight(t: string) { forall i :: 0 <= i < |t| - 1 ==> Tight(t, i) }
  predicate AllApart(t: string, digit: char -> bool) { forall i :: 0 <= i < |t| ==> Apart(t, i, digit) }
  predicate NoControl(t: string) { forall i :: 0 <= i < |t| ==> !Control(t[i]) }
  predicate SolidEdges(t: string) { t != [] ==> !Space(t[0]) && !Space(t[|t| - 1]) }

  // No control characters, no space at the edges, runs of blanks collapsed; and as enabled, no space
  // before punctuation and closers or after openers, and none between a digit and a unit.
  predicate Normal(t: string, flags: Flags, digit: char -> bool)
  {
    && NoControl(t) && Collapsed(t) && SolidEdges(t)
    && (flags.punctuation ==> AllTight(t))
    && (flags.number ==> AllApart(t, digit))
  }

  // ---------- a normal text stays ----------

  lemma {:induction false} CleanFixed(t: string)
    requires NoControl(t)
    ensures Clean(t) == t
  {
    if t != [] {
      CleanFixed(t[1..]);
    }
  }

  lemma CollapsedTail(t: string)
    requires Collapsed(t) && t != []
    ensures Collapsed(t[1..])
  {
    forall i | 0 <= i < |t[1..]| - 1 ensures !Pair(t[1..], i) {
      assert !Pair(t, i + 1);
    }
  }

  lemma {:induction false} CollapseFixed(t: string)
    requires Collapsed(t)
    ensures Collapse(t) == t
    decreases |t|
  {
    if t != [] {
      CollapsedTail(t);
      CollapseFixed(t[1..]);
      assert [t[0]] + t[1..] == t;
      if Blank(t[0]) {
        if |t| > 1 {
          assert !Pair(t, 0);
        }
        CollapseRun([' '], t[1..]);
      } else {
        CollapseOther(t);
      }
    }
  }

  lemma StripFixed(t: string)
    requires SolidEdges(t)
    ensures Strip(t) == t
  {
    assert t[0..] == t;
  }

  lemma {:induction false} NoMatch(t: string, k: nat, cls: char -> bool)
    requires k <= Run(t) && forall i :: 0 <= i < |t| - 1 ==> !(Space(t[i]) && cls(t[i + 1]))
    ensures SpacesBefore(t, k, cls) == 0
  {
    if k > 0 {
      if k < |t| {
        assert !(Space(t[k - 1]) && cls(t[k - 1 + 1]));
      }
      NoMatch(t, k - 1, cls);
    }
  }

  lemma {:induction false} BeforeFixed(t: string, cls: char -> bool)
    requires NoSpaces(cls)
    requires forall i :: 0 <= i < |t| - 1 ==> !(Space(t[i]) && cls(t[i + 1]))
    ensures SubBefore(t, cls) == t
    decreases |t|
  {
    if t != [] {
      NoMatch(t, Run(t), cls);
      BeforeMiss(t, cls);
      BeforeFixed(t[1..], cls);
      assert [t[0]] + t[1..] == t;
    }
  }

  lemma {:induction false} OpenFixed(t: string)
    requires AllTight(t)
    ensures SubAfterOpen(t) == t
    decreases |t|
  {
    if t != [] {
      if |t| > 1 {
        assert Tight(t, 0);
      }
      TightTail(t);
      OpenMiss(t);
      OpenFixed(t[1..]);
      assert [t[0]] + t[1..] == t;
    }
  }

  lemma TightTail(t: string)
    requires AllTight(t) && t != []
    ensures AllTight(t[1..])
  {
    forall i | 0 <= i < |t[1..]| - 1 ensures Tight(t[1..], i) {
      assert Tight(t, i + 1);
    }
  }

  lemma NoUnitAfter(t: string)
    requires UnitLen(t[Run(t)..]) == 0
    ensures SpacesBeforeUnit(t, Run(t)) == 0
  {
    if Run(t) > 0 {
      NoUnitInside(t, Run(t) - 1);
    }
  }

  lemma ApartMiss(t: string, digit: char -> bool)
    requires t != [] && Apart(t, 0, digit)
    ensures SubDigitUnit(t, digit) == [t[0]] + SubDigitUnit(t[1..], digit)
  {
    if digit(t[0]) && Run(t[1..]) > 0 {
      NoUnitAfter(t[1..]);
    }
    DigitMiss(t, digit);
  }

  lemma {:induction false} DigitFixed(t: string, digit: char -> bool)
    requires AllApart(t, digit)
    ensures SubDigitUnit(t, digit) == t
    decreases |t|
  {
    if t != [] {
      ApartMiss(t, digit);
      ApartTail(t, digit);
      DigitFixed(t[1..], digit);
      assert [t[0]] + t[1..] == t;
    }
  }

  lemma ApartTail(t: string, digit: char -> bool)
    requires AllApart(t, digit) && t != []
    ensures AllApart(t[1..], digit)
  {
    forall i | 0 <= i < |t[1..]| ensures Apart(t[1..], i, digit) {
      assert Apart(t, i + 1, digit);
      assert t[1..][i + 1..] == t[i + 1 + 1..];
    }
  }

  lemma NormalIsFixed(t: string, flags: Flags, digit: char -> bool)
    requires Normal(t, flags, digit)
    ensures Normalize(t, flags, digit) == t
  {
    CleanFixed(t);
    CollapseFixed(t);
    StripFixed(t);
    if flags.number {
      DigitFixed(t, digit);
    }
    if flags.punctuation {
      forall i | 0 <= i < |t| - 1 ensures !(Space(t[i]) && (Punct(t[i + 1]) || Closes(t[i + 1]))) {
        assert Tight(t, i);
      }
      BeforeFixed(t, Punct);
      OpenFixed(t);
      BeforeFixed(t, Closes);
    }
  }

  // ---------- what comes out is normal ----------

  predicate FirmAt(flags: Flags, digit: char -> bool, cs: seq<Cell>, i: nat)
    requires i < |cs|
  {
    && Collapsed(cs[i].gap)
    && (cs[i].gap != [] ==> i + 1 < |cs| && !Joined(flags, digit, cs, i))
  }

  predicate Firm(flags: Flags, digit: char -> bool, cs: seq<Cell>)
  {
    forall i :: 0 <= i < |cs| ==> FirmAt(flags, digit, cs, i)
  }

  lemma FirmTail(flags: Flags, digit: char -> bool, cs: seq<Cell>)
    requires Firm(flags, digit, cs) && cs != []
    ensures Firm(flags, digit, cs[1..])
  {
    forall i | 0 <= i < |cs[1..]| ensures FirmAt(flags, digit, cs[1..], i) {
      assert FirmAt(flags, digit, cs, i + 1);
    }
  }

  // A unit made of two characters stays apart if it was: nothing ever joins them.
  lemma UnitsStay(flags: Flags, digit: char -> bool, cs: seq<Cell>, i: nat)
    requires Proper(cs) && DigitClass(digit) && i < |cs|
    requires UnitAt(Tidied(flags, digit, cs), i)
    ensures UnitAt(cs, i)
  {
    var fs := Tidied(flags, digit, cs);
    assert fs[i] == Tidy(flags, digit, cs, i);
    if i + 1 < |cs| && cs[i].c == '마' && !OneUnit(cs[i].c) {
      assert fs[i + 1].c == cs[i + 1].c == '리';
      assert !Joined(flags, digit, cs, i);
      CollapsedGap(cs[i].gap);
    }
  }

  lemma TidiedIsFirm(flags: Flags, digit: char -> bool, cs: seq<Cell>)
    requires Proper(cs) && DigitClass(digit)
    ensures Firm(flags, digit, Tidied(flags, digit, cs))
  {
    var fs := Tidied(flags, digit, cs);
    forall i | 0 <= i < |fs| ensures FirmAt(flags, digit, fs, i) {
      assert fs[i] == Tidy(flags, digit, cs, i);
      CollapsedGap(cs[i].gap);
      if i + 1 < |cs| && fs[i].gap != [] {
        assert fs[i + 1].c == cs[i + 1].c;
        if UnitAt(fs, i + 1) {
          UnitsStay(flags, digit, cs, i + 1);
        }
      }
    }
  }

  lemma CollapsedJoin(c: char, g: string, u: string)
    requires !Space(c) && Gap(g) && Collapsed(g) && Collapsed(u) && Solid(u)
    ensures Collapsed([c] + g + u)
  {
    var t := [c] + g + u;
    var n := |g|;
    forall i | 0 <= i < |t| - 1 ensures !Pair(t, i) {
      if 0 < i < n {
        assert !Pair(g, i - 1);
      } else if i > n {
        assert !Pair(u, i - 1 - n);
      }
    }
    forall i | 0 <= i < |t| && Space(t[i]) ensures t[i] == ' ' || t[i] == '\n' {
      assert t[i] == if 0 < i <= n then g[i - 1] else u[i - 1 - n];
    }
  }

  lemma TightJoin(c: char, g: string, u: string)
    requires !Space(c) && Gap(g) && Solid(u) && AllTight(u)
    requires g != [] ==> !Opens(c) && (u != [] ==> !Punct(u[0]) && !Closes(u[0]))
    ensures AllTight([c] + g + u)
  {
    var t := [c] + g + u;
    var n := |g|;
    forall i | 0 <= i < |t| - 1 ensures Tight(t, i) {
      if i > n {
        assert Tight(u, i - 1 - n);
      } else if i < n {
        assert t[i + 1] == g[i];
      } else {
        assert t[i + 1] == u[0];
      }
    }
  }

  lemma ApartHead(c: char, g: string, u: string, digit: char -> bool)
    requires Gap(g) && Solid(u) && (g != [] && digit(c) ==> UnitLen(u) == 0)
    ensures Apart([c] + g + u, 0, digit)
  {
    assert ([c] + g + u)[1..] == g + u;
    RunOfGap(g, u);
    assert (g + u)[|g|..] == u;
  }

  lemma ApartTailPart(t: string, u: string, n: nat, i: nat, digit: char -> bool)
    requires n <= |t| && t[n..] == u && n <= i < |t| && Apart(u, i - n, digit)
    ensures Apart(t, i, digit)
  {
    assert t[i] == u[i - n] && t[i + 1..] == u[i - n + 1..];
  }

  lemma ApartJoin(c: char, g: string, u: string, digit: char -> bool)
    requires !Space(c) && Gap(g) && Solid(u) && AllApart(u, digit) && DigitClass(digit)
    requires g != [] && digit(c) ==> UnitLen(u) == 0
    ensures AllApart([c] + g + u, digit)
  {
    var t := [c] + g + u;
    var n := |g|;
    forall i | 0 <= i < |t| ensures Apart(t, i, digit) {
      if i == 0 {
        ApartHead(c, g, u, digit);
      } else if i > n {
        assert Apart(u, i - (n + 1), digit);
        assert t[n + 1..] == u;
        ApartTailPart(t, u, n + 1, i, digit);
      } else {
        assert t[i] == g[i - 1];
      }
    }
  }

  lemma {:induction false} FirmIsNormal(flags: Flags, digit: char -> bool, cs: seq<Cell>)
    requires Proper(cs) && Firm(flags, digit, cs) && DigitClass(digit)
    ensures var t := Flat(cs);
            && Collapsed(t) && SolidEdges(t)
            && (flags.punctuation ==> AllTight(t)) && (flags.number ==> AllApart(t, digit))
  {
    if cs != [] {
      var c, g, rest := cs[0].c, cs[0].gap, cs[1..];
      var u := Flat(rest);
      FirmTail(flags, digit, cs);
      FirmIsNormal(flags, digit, rest);
      assert FirmAt(flags, digit, cs, 0);
      CollapsedJoin(c, g, u);
      if rest != [] {
        assert rest == cs[1..] && u[0] == cs[1].c;
        UnitOfCells(cs, 1);
      }
      if flags.punctuation {
        TightJoin(c, g, u);
      }
      if flags.number {
        ApartJoin(c, g, u, digit);
      }
      EdgesJoin(c, g, u);
    }
  }

  lemma EdgesJoin(c: char, g: string, u: string)
    requires !Space(c) && SolidEdges(u) && (u == [] ==> g == [])
    ensures SolidEdges([c] + g + u)
  {
    var t := [c] + g + u;
    if u != [] {
      assert t[|t| - 1] == u[|u| - 1];
    }
  }

  // ---------- control characters ----------

  lemma {:induction false} CleanHasNone(t: string)
    ensures NoControl(Clean(t))
  {
    if t != [] {
      CleanHasNone(t[1..]);
    }
  }

  lemma {:induction false} LettersAre(t: string, x: char)
    ensures x in Letters(t) <==> x in t && !Space(x)
  {
    if t != [] {
      LettersAre(t[1..], x);
      assert t == [t[0]] + t[1..];
    }
  }

  lemma NormalizedHasNone(t: string, flags: Flags, digit: char -> bool)
    requires DigitClass(digit) && Collapsed(Normalize(t, flags, digit))
    ensures NoControl(Normalize(t, flags, digit))
  {
    var r := Normalize(t, flags, digit);
    LettersSurvive(t, flags, digit);
    VisibleOfClean(t);
    CleanHasNone(t);
    forall i | 0 <= i < |r| ensures !Control(r[i]) {
      if !Space(r[i]) {
        assert r[i] in r;
        LettersAre(r, r[i]);
        LettersAre(Clean(t), r[i]);
      }
    }
  }

  // ---------- the theorems ----------

  /** Whatever comes in, what comes out is in normal form. */
  lemma NormalizeIsNormal(t: string, flags: Flags, digit: char -> bool)
    requires DigitClass(digit)
    ensures Normal(Normalize(t, flags, digit), flags, digit)
  {
    var cs := Body(t);
    NormalizeByGaps(t, flags, digit);
    TidiedProper(flags, digit, cs);
    TidiedIsFirm(flags, digit, cs);
    FirmIsNormal(flags, digit, Tidied(flags, digit, cs));
    NormalizedHasNone(t, flags, digit);
  }

  /** A text is left alone exactly when it is in normal form. */
  lemma FixedIffNormal(t: string, flags: Flags, digit: char -> bool)
    requires DigitClass(digit)
    ensures Normalize(t, flags, digit) == t <==> Normal(t, flags, digit)
  {
    NormalizeIsNormal(t, flags, digit);
    if Normal(t, flags, digit) {
      NormalIsFixed(t, flags, digit);
    }
  }

  /** Normalising twice is normalising once, with any settings. */
  lemma Idempotent(t: string, flags: Flags, digit: char -> bool)
    requires DigitClass(digit)
    ensures Normalize(Normalize(t, flags, digit), flags, digit) == Normalize(t, flags, digit)
  {
    NormalizeIsNormal(t, flags, digit);
    NormalIsFixed(Normalize(t, flags, digit), flags, digit);
  }
}
