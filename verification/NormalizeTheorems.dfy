/** What normalisation does to a text, as a whole. */
module NormalizeTheorems {
  import opened NormalizeKo
  import opened NormalizeProofs

  // ---------- collapsing and stripping, gap by gap ----------

  predicate Pair(t: string, i: nat) requires i + 1 < |t| { t[i] == ' ' && t[i + 1] == ' ' }

  // Spaces and line ends only, and never two spaces in a row.
  predicate Collapsed(t: string)
  {
    && (forall i :: 0 <= i < |t| && Space(t[i]) ==> t[i] == ' ' || t[i] == '\n')
    && (forall i :: 0 <= i < |t| - 1 ==> !Pair(t, i))
  }

  predicate Blanks(b: string) { b != [] && forall i :: 0 <= i < |b| ==> Blank(b[i]) }

  // A maximal run of blanks becomes one space.
  lemma CollapseRun(b: string, r: string)
    requires Blanks(b) && (r == [] || !Blank(r[0]))
    ensures Collapse(b + r) == [' '] + Collapse(r)
  {
    var t := b + r;
    assert forall i :: 0 <= i < |b| ==> t[i] == b[i];
    assert r != [] ==> t[|b|] == r[0];
    assert t[|b|..] == r;
  }

  lemma CollapseOther(t: string)
    requires t != [] && !Blank(t[0])
    ensures Collapse(t) == [t[0]] + Collapse(t[1..])
  {
  }

  lemma {:induction false} CollapseBlankGap(b: string, r: string, u: string)
    requires Blanks(b) && (r == [] || !Blank(r[0])) && Solid(u)
    requires Collapse(r + u) == Collapse(r) + Collapse(u)
    ensures Collapse((b + r) + u) == Collapse(b + r) + Collapse(u)
  {
    assert r + u == [] || !Blank((r + u)[0]);
    Regroup(b, r, u);
    CollapseRun(b, r);
    CollapseRun(b, r + u);
    Regroup([' '], Collapse(r), Collapse(u));
  }

  lemma CollapseOtherGap(g: string, u: string)
    requires g != [] && !Blank(g[0])
    requires Collapse(g[1..] + u) == Collapse(g[1..]) + Collapse(u)
    ensures Collapse(g + u) == Collapse(g) + Collapse(u)
  {
    var t := g + u;
    assert t[0] == g[0] && t[1..] == g[1..] + u;
    CollapseOther(t);
    CollapseOther(g);
    Regroup([g[0]], Collapse(g[1..]), Collapse(u));
  }

  lemma {:induction false} CollapseGap(g: string, u: string)
    requires Gap(g) && Solid(u)
    ensures Collapse(g + u) == Collapse(g) + Collapse(u)
    decreases |g|
  {
    if g == [] {
      assert g + u == u;
    } else if BlankRun(g) > 0 {
      var b, r := g[..BlankRun(g)], g[BlankRun(g)..];
      assert g == b + r;
      CollapseGap(r, u);
      CollapseBlankGap(b, r, u);
    } else {
      CollapseGap(g[1..], u);
      CollapseOtherGap(g, u);
    }
  }

  lemma CollapseCell(c: char, g: string, u: string)
    requires !Space(c) && Gap(g) && Solid(u)
    ensures Collapse([c] + g + u) == [c] + Collapse(g) + Collapse(u)
  {
    assert ([c] + g + u)[1..] == g + u;
    CollapseGap(g, u);
    Regroup([c], Collapse(g), Collapse(u));
  }

  lemma {:induction false} CollapsedGap(g: string)
    requires Gap(g)
    ensures Gap(Collapse(g)) && Collapsed(Collapse(g)) && (Collapse(g) == [] <==> g == [])
    ensures g != [] && !Blank(g[0]) ==> Collapse(g)[0] == '\n'
    decreases |g|
  {
    if g != [] {
      var k := BlankRun(g);
      CollapsedGap(if k > 0 then g[k..] else g[1..]);
      var rest := Collapse(if k > 0 then g[k..] else g[1..]);
      var out := [if k > 0 then ' ' else g[0]] + rest;
      assert Collapse(g) == out;
      forall i | 0 <= i < |out| - 1 ensures !Pair(out, i) {
        if i > 0 {
          assert !Pair(rest, i - 1);
        }
      }
    }
  }

  function Squeeze(cs: seq<Cell>): seq<Cell>
  {
    seq(|cs|, i requires 0 <= i < |cs| => Cell(cs[i].c, Collapse(cs[i].gap)))
  }

  lemma {:induction false} CollapseSqueezes(cs: seq<Cell>)
    requires Proper(cs)
    ensures Proper(Squeeze(cs)) && Collapse(Flat(cs)) == Flat(Squeeze(cs))
  {
    forall i | 0 <= i < |cs| ensures Gap(Squeeze(cs)[i].gap) {
      CollapsedGap(cs[i].gap);
    }
    if cs != [] {
      CollapseSqueezes(cs[1..]);
      CollapseCell(cs[0].c, cs[0].gap, Flat(cs[1..]));
      assert Squeeze(cs)[1..] == Squeeze(cs[1..]);
    }
  }

  function Trim(cs: seq<Cell>): seq<Cell>
  {
    if cs == [] then [] else cs[..|cs| - 1] + [Cell(cs[|cs| - 1].c, [])]
  }

  lemma FlatHead(c: Cell, rest: seq<Cell>)
    ensures Flat([c] + rest) == [c.c] + c.gap + Flat(rest)
  {
    assert ([c] + rest)[1..] == rest;
  }

  lemma FlatTrimOne(c: Cell)
    requires !Space(c.c) && Gap(c.gap)
    ensures Trim([c]) == [Cell(c.c, [])]
    ensures Flat([c]) == Flat(Trim([c])) + c.gap && Flat(Trim([c])) == [c.c]
  {
    assert [c] == [c] + [] && [Cell(c.c, [])] == [Cell(c.c, [])] + [];
    FlatHead(c, []);
    FlatHead(Cell(c.c, []), []);
    assert [c][..0] == [];
  }

  lemma TrimCons(c: Cell, rest: seq<Cell>)
    requires rest != []
    ensures Trim([c] + rest) == [c] + Trim(rest)
  {
    assert ([c] + rest)[..|rest|] == [c] + rest[..|rest| - 1];
  }

  lemma {:induction false} FlatTrim(cs: seq<Cell>)
    requires Proper(cs) && cs != []
    ensures Flat(cs) == Flat(Trim(cs)) + cs[|cs| - 1].gap
    ensures var t := Flat(Trim(cs)); t != [] && !Space(t[|t| - 1])
  {
    var c, rest := cs[0], cs[1..];
    assert cs == [c] + rest;
    if rest == [] {
      FlatTrimOne(c);
      assert cs == [c];
    } else {
      FlatTrim(rest);
      TrimCons(c, rest);
      FlatHead(c, rest);
      FlatHead(c, Trim(rest));
      Regroup([c.c] + c.gap, Flat(Trim(rest)), rest[|rest| - 1].gap);
    }
  }

  lemma {:induction false} RStripGap(a: string, g: string)
    requires Gap(g) && (a == [] || !Space(a[|a| - 1]))
    ensures RStrip(a + g) == a
    decreases |g|
  {
    if g == [] {
      assert a + g == a;
    } else {
      assert (a + g)[..|a + g| - 1] == a + g[..|g| - 1];
      RStripGap(a, g[..|g| - 1]);
    }
  }

  lemma StripTrims(lead: string, cs: seq<Cell>)
    requires Gap(lead) && Proper(cs)
    ensures Strip(lead + Flat(cs)) == Flat(Trim(cs))
  {
    RunOfGap(lead, Flat(cs));
    assert (lead + Flat(cs))[|lead|..] == Flat(cs);
    if cs == [] {
      assert Flat(cs) == [];
    } else {
      FlatTrim(cs);
      RStripGap(Flat(Trim(cs)), cs[|cs| - 1].gap);
    }
  }

  // The text without control characters and leading space, as cells.
  function Body(t: string): (cs: seq<Cell>)
    ensures Proper(cs)
  {
    var u := Clean(t);
    Cut(u[Run(u)..])
  }

  lemma BodyIsRest(t: string)
    ensures var u := Clean(t); Flat(Body(t)) == u[Run(u)..] && Gap(u[..Run(u)])
  {
  }

  lemma BasicOfCells(lead: string, cs: seq<Cell>)
    requires Gap(lead) && Proper(cs)
    ensures Strip(Collapse(lead + Flat(cs))) == Flat(Trim(Squeeze(cs)))
  {
    CollapseGap(lead, Flat(cs));
    CollapsedGap(lead);
    CollapseSqueezes(cs);
    StripTrims(Collapse(lead), Squeeze(cs));
  }

  lemma BasicByGaps(t: string)
    ensures BasicNormalize(t) == Flat(Trim(Squeeze(Body(t))))
  {
    BodyIsRest(t);
    var u := Clean(t);
    assert u == u[..Run(u)] + u[Run(u)..];
    BasicOfCells(u[..Run(u)], Body(t));
  }

  // ---------- the whole of it ----------

  predicate UnitAt(cs: seq<Cell>, i: nat)
    requires i < |cs|
  {
    || OneUnit(cs[i].c)
    || (i + 1 < |cs| && cs[i].c == '마' && cs[i].gap == [] && cs[i + 1].c == '리')
  }

  // Whether the settings want nothing between a character and the next.
  predicate Joined(flags: Flags, digit: char -> bool, cs: seq<Cell>, i: nat)
    requires i + 1 < |cs|
  {
    || (flags.number && digit(cs[i].c) && UnitAt(cs, i + 1))
    || (flags.punctuation && (Punct(cs[i + 1].c) || Opens(cs[i].c) || Closes(cs[i + 1].c)))
  }

  function Tidy(flags: Flags, digit: char -> bool, cs: seq<Cell>, i: nat): Cell
    requires i < |cs|
  {
    Cell(cs[i].c, if i + 1 == |cs| || Joined(flags, digit, cs, i) then [] else Collapse(cs[i].gap))
  }

  function Tidied(flags: Flags, digit: char -> bool, cs: seq<Cell>): seq<Cell>
  {
    seq(|cs|, i requires 0 <= i < |cs| => Tidy(flags, digit, cs, i))
  }

  lemma UnitOfCells(cs: seq<Cell>, i: nat)
    requires Proper(cs) && i < |cs|
    ensures UnitLen(Flat(cs[i..])) > 0 <==> UnitAt(cs, i)
  {
    var t, rest := Flat(cs[i..]), cs[i..][1..];
    assert t == [cs[i].c] + cs[i].gap + Flat(rest);
    if cs[i].gap == [] {
      if i + 1 < |cs| {
        assert rest[0] == cs[i + 1];
        assert t[1] == cs[i + 1].c;
      } else {
        assert |t| == 1;
      }
    } else {
      assert t[1] == cs[i].gap[0] && Space(t[1]);
    }
  }

  predicate RuleAt(rule: Rule, digit: char -> bool, cs: seq<Cell>, i: nat)
    requires i + 1 < |cs|
  {
    match rule
    case Number => digit(cs[i].c) && UnitAt(cs, i + 1)
    case Punctuation => Punct(cs[i + 1].c)
    case Opening => Opens(cs[i].c)
    case Closing => Closes(cs[i + 1].c)
  }

  function JoinedCell(cs: seq<Cell>, i: nat, joined: bool): Cell
    requires i < |cs|
  {
    Cell(cs[i].c, if joined then [] else cs[i].gap)
  }

  // One substitution, cell by cell.
  function ByRule(rule: Rule, digit: char -> bool, cs: seq<Cell>): (ds: seq<Cell>)
    ensures |ds| == |cs| && forall i :: 0 <= i < |cs| ==> ds[i].c == cs[i].c
  {
    seq(|cs|, i requires 0 <= i < |cs| => JoinedCell(cs, i, i + 1 < |cs| && RuleAt(rule, digit, cs, i)))
  }

  lemma RewriteIsByRule(rule: Rule, digit: char -> bool, cs: seq<Cell>)
    requires Proper(cs)
    ensures Rewrite(rule, digit, cs) == ByRule(rule, digit, cs)
  {
    RewriteAt(rule, digit, cs);
    forall i | 0 <= i < |cs| ensures Rewrite(rule, digit, cs)[i] == ByRule(rule, digit, cs)[i] {
      if i + 1 < |cs| {
        DeletesByCells(rule, digit, cs, i);
        assert ByRule(rule, digit, cs)[i] == JoinedCell(cs, i, RuleAt(rule, digit, cs, i));
      } else {
        assert ByRule(rule, digit, cs)[i] == JoinedCell(cs, i, false);
      }
    }
  }

  lemma ByRuleKeepsShape(rule: Rule, digit: char -> bool, cs: seq<Cell>)
    requires Proper(cs) && Ended(cs)
    ensures Proper(ByRule(rule, digit, cs)) && Ended(ByRule(rule, digit, cs))
  {
    var ds := ByRule(rule, digit, cs);
    forall i | 0 <= i < |cs| ensures !Space(ds[i].c) && Gap(ds[i].gap) && (i + 1 == |cs| ==> ds[i].gap == []) {
      assert ds[i] == JoinedCell(cs, i, i + 1 < |cs| && RuleAt(rule, digit, cs, i));
    }
  }

  lemma RuleByCells(rule: Rule, digit: char -> bool, cs: seq<Cell>)
    requires Proper(cs) && Ended(cs) && DigitClass(digit)
    ensures Apply(rule, digit, Flat(cs)) == Flat(ByRule(rule, digit, cs))
    ensures Proper(ByRule(rule, digit, cs)) && Ended(ByRule(rule, digit, cs))
  {
    SubstitutionDeletesGaps(rule, digit, cs);
    assert Rewrite(rule, digit, cs) == ByRule(rule, digit, cs) by {
      RewriteIsByRule(rule, digit, cs);
    }
    ByRuleKeepsShape(rule, digit, cs);
  }

  lemma DeletesByCells(rule: Rule, digit: char -> bool, cs: seq<Cell>, i: nat)
    requires Proper(cs) && i + 1 < |cs|
    ensures Deletes(rule, digit, cs[i].c, Flat(cs[i + 1..])) <==> RuleAt(rule, digit, cs, i)
  {
    UnitOfCells(cs, i + 1);
  }

  function Punctuated(digit: char -> bool, cs: seq<Cell>): seq<Cell>
  {
    ByRule(Closing, digit, ByRule(Opening, digit, ByRule(Punctuation, digit, cs)))
  }

  lemma PunctuationByCells(digit: char -> bool, cs: seq<Cell>)
    requires Proper(cs) && Ended(cs) && DigitClass(digit)
    ensures SubBefore(SubAfterOpen(SubBefore(Flat(cs), Punct)), Closes) == Flat(Punctuated(digit, cs))
  {
    var a := ByRule(Punctuation, digit, cs);
    RuleByCells(Punctuation, digit, cs);
    RuleByCells(Opening, digit, a);
    RuleByCells(Closing, digit, ByRule(Opening, digit, a));
  }

  lemma PunctuatedAt(digit: char -> bool, cs: seq<Cell>, i: nat)
    requires i < |cs|
    ensures Punctuated(digit, cs)[i]
            == JoinedCell(cs, i, i + 1 < |cs| && (Punct(cs[i + 1].c) || Opens(cs[i].c) || Closes(cs[i + 1].c)))
  {
    var a := ByRule(Punctuation, digit, cs);
    assert a[i] == JoinedCell(cs, i, i + 1 < |cs| && Punct(cs[i + 1].c));
    var b := ByRule(Opening, digit, a);
    assert b[i] == JoinedCell(a, i, i + 1 < |cs| && Opens(cs[i].c));
    assert Punctuated(digit, cs)[i] == JoinedCell(b, i, i + 1 < |cs| && Closes(cs[i + 1].c));
  }

  // The gaps after collapsing and stripping.
  function Basic(cs: seq<Cell>): (ds: seq<Cell>)
    ensures |ds| == |cs|
  {
    seq(|cs|, i requires 0 <= i < |cs| => Cell(cs[i].c, if i + 1 == |cs| then [] else Collapse(cs[i].gap)))
  }

  lemma BasicIsTrim(cs: seq<Cell>)
    requires Proper(cs)
    ensures Trim(Squeeze(cs)) == Basic(cs) && Proper(Basic(cs)) && Ended(Basic(cs))
  {
    CollapseSqueezes(cs);
    var ds := Basic(cs);
    forall i | 0 <= i < |cs| ensures !Space(ds[i].c) && Gap(ds[i].gap) {
      assert !Space(Squeeze(cs)[i].c) && Gap(Squeeze(cs)[i].gap);
    }
    assert Trim(Squeeze(cs)) == ds;
  }

  lemma SameUnits(cs: seq<Cell>, i: nat)
    requires Proper(cs) && i < |cs|
    ensures UnitAt(cs, i) == UnitAt(Basic(cs), i)
  {
    CollapsedGap(cs[i].gap);
    assert Basic(cs)[i].c == cs[i].c;
    if i + 1 < |cs| {
      assert Basic(cs)[i + 1].c == cs[i + 1].c;
    }
  }

  // All the gap decisions in order come to those of `Tidied`.
  lemma DecisionsCompose(flags: Flags, digit: char -> bool, cs: seq<Cell>, i: nat)
    requires Proper(cs) && i < |cs|
    ensures Surfaced(flags, digit, Basic(cs))[i] == Tidy(flags, digit, cs, i)
  {
    var ds := Basic(cs);
    var es := if flags.number then ByRule(Number, digit, ds) else ds;
    if i + 1 < |cs| {
      SameUnits(cs, i + 1);
      assert es[i + 1].c == ds[i + 1].c == cs[i + 1].c;
    }
    assert es[i] == JoinedCell(ds, i, flags.number && i + 1 < |cs| && digit(cs[i].c) && UnitAt(cs, i + 1));
    if flags.punctuation {
      PunctuatedAt(digit, es, i);
    }
  }

  function Surfaced(flags: Flags, digit: char -> bool, ds: seq<Cell>): seq<Cell>
  {
    var es := if flags.number then ByRule(Number, digit, ds) else ds;
    if flags.punctuation then Punctuated(digit, es) else es
  }

  lemma SurfaceByCells(flags: Flags, digit: char -> bool, ds: seq<Cell>)
    requires Proper(ds) && Ended(ds) && DigitClass(digit)
    ensures SurfaceRules(Flat(ds), flags, digit) == Flat(Surfaced(flags, digit, ds))
  {
    if flags.number {
      RuleByCells(Number, digit, ds);
    }
    if flags.punctuation {
      PunctuationByCells(digit, if flags.number then ByRule(Number, digit, ds) else ds);
    }
  }

  lemma SurfacedIsTidied(flags: Flags, digit: char -> bool, cs: seq<Cell>)
    requires Proper(cs)
    ensures Surfaced(flags, digit, Basic(cs)) == Tidied(flags, digit, cs)
  {
    var fs := Surfaced(flags, digit, Basic(cs));
    forall i | 0 <= i < |cs| ensures fs[i] == Tidied(flags, digit, cs)[i] {
      DecisionsCompose(flags, digit, cs, i);
    }
  }

  /** Normalisation is decided gap by gap: the characters stay, each gap between two of them is deleted
      if the settings want them joined and has its runs collapsed otherwise, and the gap at the end goes. */
  lemma NormalizeByGaps(t: string, flags: Flags, digit: char -> bool)
    requires DigitClass(digit)
    ensures Normalize(t, flags, digit) == Flat(Tidied(flags, digit, Body(t)))
  {
    BasicByGaps(t);
    BasicIsTrim(Body(t));
    SurfaceByCells(flags, digit, Basic(Body(t)));
    SurfacedIsTidied(flags, digit, Body(t));
  }

  // ---------- nothing but space is lost ----------

  function Letters(t: string): string
  {
    if t == [] then [] else (if Space(t[0]) then [] else [t[0]]) + Letters(t[1..])
  }

  lemma {:induction false} LettersConcat(a: string, b: string)
    ensures Letters(a + b) == Letters(a) + Letters(b)
  {
    if a == [] {
      assert a + b == b;
    } else {
      assert (a + b)[1..] == a[1..] + b;
      LettersConcat(a[1..], b);
      Regroup(if Space(a[0]) then [] else [a[0]], Letters(a[1..]), Letters(b));
    }
  }

  lemma {:induction false} NoLetters(g: string)
    requires Gap(g)
    ensures Letters(g) == []
  {
    if g != [] {
      NoLetters(g[1..]);
    }
  }

  lemma {:induction false} LettersOfCells(cs: seq<Cell>)
    requires Proper(cs)
    ensures Letters(Flat(cs)) == seq(|cs|, i requires 0 <= i < |cs| => cs[i].c)
  {
    if cs != [] {
      LettersOfCells(cs[1..]);
      NoLetters(cs[0].gap);
      LettersConcat([cs[0].c] + cs[0].gap, Flat(cs[1..]));
      LettersConcat([cs[0].c], cs[0].gap);
      assert [cs[0].c][1..] == [];
      assert Letters([cs[0].c] + cs[0].gap) == [cs[0].c];
    }
  }

  lemma LettersOfTidied(flags: Flags, digit: char -> bool, cs: seq<Cell>)
    requires Proper(cs)
    ensures Letters(Flat(Tidied(flags, digit, cs))) == Letters(Flat(cs))
  {
    TidiedProper(flags, digit, cs);
    LettersOfCells(cs);
    LettersOfCells(Tidied(flags, digit, cs));
  }

  lemma LettersAfter(u: string, n: nat)
    requires n <= |u| && Gap(u[..n])
    ensures Letters(u) == Letters(u[n..])
  {
    var lead, rest := u[..n], u[n..];
    LettersConcat(lead, rest);
    NoLetters(lead);
    assert u == lead + rest;
  }

  lemma LettersOfBody(t: string)
    ensures Letters(Clean(t)) == Letters(Flat(Body(t)))
  {
    BodyIsRest(t);
    LettersAfter(Clean(t), Run(Clean(t)));
  }

  // What is neither space nor control character.
  function Visible(t: string): string
  {
    if t == [] then [] else (if Space(t[0]) || Control(t[0]) then [] else [t[0]]) + Visible(t[1..])
  }

  lemma {:induction false} VisibleOfClean(t: string)
    ensures Letters(Clean(t)) == Visible(t)
  {
    if t != [] {
      VisibleOfClean(t[1..]);
      if !Control(t[0]) {
        assert ([t[0]] + Clean(t[1..]))[1..] == Clean(t[1..]);
      } else {
        assert Clean(t) == Clean(t[1..]);
      }
    }
  }

  /** Only control characters and whitespace are ever deleted: what is left of the rest is all of it, in
      order. */
  lemma {:induction false} LettersSurvive(t: string, flags: Flags, digit: char -> bool)
    requires DigitClass(digit)
    ensures Letters(Normalize(t, flags, digit)) == Visible(t)
  {
    NormalizeByGaps(t, flags, digit);
    LettersOfTidied(flags, digit, Body(t));
    LettersOfBody(t);
    VisibleOfClean(t);
  }

  // ---------- what a kept gap looks like ----------

  /** Blanks in a row become one space. */
  lemma BlanksBecomeOne(b: string)
    requires Blanks(b)
    ensures Collapse(b) == " "
  {
    AllBlank(b);
    assert b[BlankRun(b)..] == [];
  }

  lemma {:induction false} AllBlank(b: string)
    requires forall i :: 0 <= i < |b| ==> Blank(b[i])
    ensures BlankRun(b) == |b|
  {
    if b != [] {
      AllBlank(b[1..]);
    }
  }

  // A line end after a gap that starts with a run of blanks, and after one that does not.
  lemma LineEndAfterRun(b: string, r: string, rest: string)
    requires Blanks(b) && (r == [] || !Blank(r[0])) && rest != [] && rest[0] == '\n'
    requires Collapse(r + rest) == Collapse(r) + Collapse(rest)
    ensures Collapse((b + r) + rest) == Collapse(b + r) + Collapse(rest)
  {
    Regroup(b, r, rest);
    CollapseRun(b, r);
    CollapseRun(b, r + rest);
    Regroup([' '], Collapse(r), Collapse(rest));
  }

  lemma {:induction false} LineEndSplits(g: string, rest: string)
    requires rest != [] && rest[0] == '\n'
    ensures Collapse(g + rest) == Collapse(g) + Collapse(rest)
    decreases |g|
  {
    if g == [] {
      assert g + rest == rest;
    } else if Blank(g[0]) {
      var b, r := g[..BlankRun(g)], g[BlankRun(g)..];
      assert g == b + r;
      LineEndSplits(r, rest);
      LineEndAfterRun(b, r, rest);
    } else {
      LineEndSplits(g[1..], rest);
      CollapseOtherGap(g, rest);
    }
  }

  /** Line ends stay, and the blanks before and after one collapse for themselves. */
  lemma LineEndsStay(g: string, h: string)
    ensures Collapse(g + ("\n" + h)) == Collapse(g) + ("\n" + Collapse(h))
  {
    LineEndSplits(g, "\n" + h);
    assert ("\n" + h)[1..] == h;
    CollapseOther("\n" + h);
  }

  // ---------- the classes ----------

  /** The characters the rules are about. */
  lemma Classes(c: char)
    ensures Punct(c) <==> c in ",.!?;:"
    ensures Opens(c) <==> c in "([{「『"
    ensures Closes(c) <==> c in ")]}」』"
    ensures OneUnit(c) <==> c in "원개명건회층번시분초년월일대권장벌살배포통잔병"
    ensures UnitLen("마리") == 2
    ensures Space(c) <==>
              || c as int in {9, 10, 11, 12, 13, 28, 29, 30, 31, 32, 0x85, 0xA0, 0x1680, 0x2028, 0x2029, 0x202F, 0x205F, 0x3000}
              || 0x2000 <= c as int <= 0x200A
    ensures Control(c) <==> (c as int < 32 && c != '\t' && c != '\n' && c != '\r') || c as int == 127
  {
  }

  lemma TidiedProper(flags: Flags, digit: char -> bool, cs: seq<Cell>)
    requires Proper(cs)
    ensures Proper(Tidied(flags, digit, cs)) && Ended(Tidied(flags, digit, cs))
    ensures forall i :: 0 <= i < |cs| ==> Collapsed(Tidied(flags, digit, cs)[i].gap)
  {
    forall i | 0 <= i < |cs| ensures Gap(Tidy(flags, digit, cs, i).gap) && Collapsed(Tidy(flags, digit, cs, i).gap) {
      CollapsedGap(cs[i].gap);
    }
  }
}
