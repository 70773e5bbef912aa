/** Each substitution deletes whole gaps and nothing else. */
module NormalizeProofs {
  import opened NormalizeKo

  ghost predicate NoSpaces(cls: char -> bool) { forall c :: cls(c) ==> !Space(c) }

  lemma RunOfGap(g: string, u: string)
    requires Gap(g) && Solid(u)
    ensures Run(g + u) == |g|
  {
    assert forall i :: 0 <= i < |g| ==> (g + u)[i] == g[i];
    assert u != [] ==> (g + u)[|g|] == u[0];
  }

  lemma Regroup(a: string, b: string, c: string)
    ensures (a + b) + c == a + (b + c)
  {
  }

  // ---------- \s+([class]) ----------

  lemma {:induction false} NothingInside(t: string, k: nat, cls: char -> bool)
    requires NoSpaces(cls) && k < |t| && forall i :: 0 <= i <= k ==> Space(t[i])
    ensures SpacesBefore(t, k, cls) == 0
  {
    if k > 0 {
      NothingInside(t, k - 1, cls);
    }
  }

  // A position where the pattern does not match.
  lemma BeforeMiss(t: string, cls: char -> bool)
    requires t != [] && SpacesBefore(t, Run(t), cls) == 0
    ensures SubBefore(t, cls) == [t[0]] + SubBefore(t[1..], cls)
  {
  }

  lemma BeforeHit(g: string, u: string, cls: char -> bool)
    requires Gap(g) && Solid(u) && u != [] && cls(u[0])
    ensures SubBefore(g + u, cls) == SubBefore(u, cls)
  {
    var t := g + u;
    RunOfGap(g, u);
    BeforeMiss(u, cls);
    if g == [] {
      assert t == u;
    } else {
      assert t[|g|] == u[0] && t[|g| + 1..] == u[1..];
      assert SpacesBefore(t, |g|, cls) == |g|;
    }
  }

  // A gap kept, put back together.
  lemma HeadJoin(g: string, t: string)
    requires g != []
    ensures [g[0]] + (g[1..] + t) == g + t
  {
  }

  lemma NoneBefore(g: string, u: string, cls: char -> bool)
    requires g != [] && Gap(g) && NoSpaces(cls) && !(u != [] && cls(u[0]))
    ensures SpacesBefore(g + u, |g|, cls) == 0
  {
    var t := g + u;
    forall i | 0 <= i <= |g| - 1 ensures Space(t[i]) {
      assert t[i] == g[i];
    }
    NothingInside(t, |g| - 1, cls);
    assert u != [] ==> t[|g|] == u[0];
  }

  lemma MissedHead(c: char, rest: string, cls: char -> bool)
    requires SpacesBefore([c] + rest, Run([c] + rest), cls) == 0
    ensures SubBefore([c] + rest, cls) == [c] + SubBefore(rest, cls)
  {
    BeforeMiss([c] + rest, cls);
    assert ([c] + rest)[1..] == rest;
  }

  lemma BeforeNothing(g: string, u: string, cls: char -> bool)
    requires g != [] && Gap(g) && Solid(u) && NoSpaces(cls) && !(u != [] && cls(u[0]))
    ensures SubBefore(g + u, cls) == [g[0]] + SubBefore(g[1..] + u, cls)
  {
    RunOfGap(g, u);
    NoneBefore(g, u, cls);
    HeadJoin(g, u);
    MissedHead(g[0], g[1..] + u, cls);
  }

  lemma {:induction false} BeforeGap(g: string, u: string, cls: char -> bool)
    requires Gap(g) && Solid(u) && NoSpaces(cls)
    ensures SubBefore(g + u, cls) == (if u != [] && cls(u[0]) then [] else g) + SubBefore(u, cls)
    decreases |g|
  {
    if u != [] && cls(u[0]) {
      BeforeHit(g, u, cls);
    } else if g == [] {
      assert g + u == u;
    } else {
      BeforeNothing(g, u, cls);
      BeforeGap(g[1..], u, cls);
      HeadJoin(g, SubBefore(u, cls));
    }
  }

  lemma BeforeCell(c: char, g: string, u: string, cls: char -> bool)
    requires !Space(c) && Gap(g) && Solid(u) && NoSpaces(cls)
    ensures SubBefore([c] + g + u, cls) == [c] + (if u != [] && cls(u[0]) then [] else g) + SubBefore(u, cls)
  {
    assert ([c] + g + u)[1..] == g + u;
    BeforeGap(g, u, cls);
    Regroup([c], if u != [] && cls(u[0]) then [] else g, SubBefore(u, cls));
  }

  // ---------- ([opening])\s+ ----------

  lemma OpenMiss(t: string)
    requires t != [] && !(Opens(t[0]) && Run(t[1..]) > 0)
    ensures SubAfterOpen(t) == [t[0]] + SubAfterOpen(t[1..])
  {
  }

  lemma {:induction false} OpenGap(g: string, u: string)
    requires Gap(g)
    ensures SubAfterOpen(g + u) == g + SubAfterOpen(u)
    decreases |g|
  {
    if g == [] {
      assert g + u == u;
    } else {
      var t := g + u;
      assert t[0] == g[0] && t[1..] == g[1..] + u;
      OpenMiss(t);
      OpenGap(g[1..], u);
      Regroup([g[0]], g[1..], SubAfterOpen(u));
      assert [g[0]] + g[1..] == g;
    }
  }

  lemma OpenHit(c: char, g: string, u: string)
    requires Opens(c) && Gap(g) && g != [] && Solid(u)
    ensures SubAfterOpen([c] + g + u) == [c] + SubAfterOpen(u)
  {
    var t := [c] + g + u;
    assert t[1..] == g + u;
    RunOfGap(g, u);
    assert t[1 + |g|..] == u;
  }

  lemma OpenCell(c: char, g: string, u: string)
    requires !Space(c) && Gap(g) && Solid(u)
    ensures SubAfterOpen([c] + g + u) == [c] + (if Opens(c) then [] else g) + SubAfterOpen(u)
  {
    if Opens(c) && g != [] {
      OpenHit(c, g, u);
    } else {
      var t := [c] + g + u;
      assert t[1..] == g + u;
      RunOfGap(g, u);
      OpenGap(g, u);
      OpenMiss(t);
      Regroup([c], g, SubAfterOpen(u));
    }
  }

  // ---------- (\d)\s+(unit) ----------

  lemma NoUnitAtSpace(t: string, k: nat)
    requires k < |t| && Space(t[k])
    ensures UnitLen(t[k..]) == 0
  {
    assert t[k..][0] == t[k];
  }

  lemma {:induction false} NoUnitInside(t: string, k: nat)
    requires k < |t| && forall i :: 0 <= i <= k ==> Space(t[i])
    ensures SpacesBeforeUnit(t, k) == 0
  {
    if k > 0 {
      NoUnitAtSpace(t, k);
      NoUnitInside(t, k - 1);
    }
  }

  lemma SpacesBeforeUnitOfGap(g: string, u: string)
    requires Gap(g) && Solid(u)
    ensures SpacesBeforeUnit(g + u, |g|) == if UnitLen(u) > 0 then |g| else 0
  {
    assert (g + u)[|g|..] == u;
    if g != [] && UnitLen(u) == 0 {
      NoUnitInside(g + u, |g| - 1);
    }
  }

  lemma DigitMiss(t: string, digit: char -> bool)
    requires t != [] && !(digit(t[0]) && SpacesBeforeUnit(t[1..], Run(t[1..])) > 0)
    ensures SubDigitUnit(t, digit) == [t[0]] + SubDigitUnit(t[1..], digit)
  {
  }

  lemma DigitSpace(c: char, rest: string, digit: char -> bool)
    requires Space(c) && DigitClass(digit)
    ensures SubDigitUnit([c] + rest, digit) == [c] + SubDigitUnit(rest, digit)
  {
    assert !digit(c);
    assert ([c] + rest)[1..] == rest;
    DigitMiss([c] + rest, digit);
  }

  lemma {:induction false} DigitGap(g: string, u: string, digit: char -> bool)
    requires Gap(g) && DigitClass(digit)
    ensures SubDigitUnit(g + u, digit) == g + SubDigitUnit(u, digit)
    decreases |g|
  {
    if g == [] {
      assert g + u == u;
    } else {
      DigitSpace(g[0], g[1..] + u, digit);
      HeadJoin(g, u);
      DigitGap(g[1..], u, digit);
      HeadJoin(g, SubDigitUnit(u, digit));
    }
  }

  // A unit holds no digit, so consuming it makes no difference.
  lemma {:induction false} UnitSkips(u: string, digit: char -> bool)
    requires DigitClass(digit)
    ensures SubDigitUnit(u, digit) == u[..UnitLen(u)] + SubDigitUnit(u[UnitLen(u)..], digit)
  {
    if UnitLen(u) == 1 {
      assert u[..1] == [u[0]];
    } else if UnitLen(u) == 2 {
      assert u[1..][1..] == u[2..] && u[..2] == [u[0]] + [u[1]];
      Regroup([u[0]], [u[1]], SubDigitUnit(u[2..], digit));
    } else {
      assert u[..0] == [] && u[0..] == u;
    }
  }

  lemma {:induction false} DigitHit(c: char, g: string, u: string, digit: char -> bool)
    requires digit(c) && g != [] && Gap(g) && Solid(u) && UnitLen(u) > 0
    ensures SubDigitUnit([c] + g + u, digit) == [c] + u[..UnitLen(u)] + SubDigitUnit(u[UnitLen(u)..], digit)
  {
    var t := [c] + g + u;
    assert t[1..] == g + u;
    RunOfGap(g, u);
    SpacesBeforeUnitOfGap(g, u);
    assert (g + u)[|g|..] == u;
  }

  lemma DigitNothing(c: char, g: string, u: string, digit: char -> bool)
    requires Gap(g) && Solid(u) && !(digit(c) && UnitLen(u) > 0 && g != [])
    ensures SubDigitUnit([c] + g + u, digit) == [c] + SubDigitUnit(g + u, digit)
  {
    var t := [c] + g + u;
    assert t[1..] == g + u;
    RunOfGap(g, u);
    SpacesBeforeUnitOfGap(g, u);
    DigitMiss(t, digit);
  }

  lemma {:induction false} DigitCell(c: char, g: string, u: string, digit: char -> bool)
    requires !Space(c) && Gap(g) && Solid(u) && DigitClass(digit)
    ensures SubDigitUnit([c] + g + u, digit)
            == [c] + (if digit(c) && UnitLen(u) > 0 then [] else g) + SubDigitUnit(u, digit)
  {
    if digit(c) && UnitLen(u) > 0 && g != [] {
      DigitHit(c, g, u, digit);
      UnitSkips(u, digit);
      Regroup([c], u[..UnitLen(u)], SubDigitUnit(u[UnitLen(u)..], digit));
    } else {
      DigitNothing(c, g, u, digit);
      DigitGap(g, u, digit);
      Regroup([c], g, SubDigitUnit(u, digit));
    }
  }

  // ---------- any rule ----------

  lemma {:induction false} RuleCell(rule: Rule, digit: char -> bool, c: char, g: string, u: string)
    requires !Space(c) && Gap(g) && Solid(u) && DigitClass(digit) && (u == [] ==> g == [])
    ensures Apply(rule, digit, [c] + g + u)
            == [c] + (if u != [] && Deletes(rule, digit, c, u) then [] else g) + Apply(rule, digit, u)
  {
    match rule
    case Number => DigitCell(c, g, u, digit);
    case Punctuation => BeforeCell(c, g, u, Punct);
    case Opening => OpenCell(c, g, u);
    case Closing => BeforeCell(c, g, u, Closes);
  }

  // No gap at the very end.
  predicate Ended(cs: seq<Cell>) { cs != [] ==> cs[|cs| - 1].gap == [] }

  /** The scanner with its backtracking and its non-overlapping matches does no more and no less than
      delete the gaps its rule names. */
  lemma {:induction false} SubstitutionDeletesGaps(rule: Rule, digit: char -> bool, cs: seq<Cell>)
    requires Proper(cs) && Ended(cs) && DigitClass(digit)
    ensures Apply(rule, digit, Flat(cs)) == Flat(Rewrite(rule, digit, cs))
  {
    if cs != [] {
      var rest := cs[1..];
      SubstitutionDeletesGaps(rule, digit, rest);
      RuleCell(rule, digit, cs[0].c, cs[0].gap, Flat(rest));
      var ds := Rewrite(rule, digit, cs);
      assert ds[1..] == Rewrite(rule, digit, rest);
      assert rest == [] ==> Flat(rest) == [];
    }
  }

  lemma {:induction false} RewriteAt(rule: Rule, digit: char -> bool, cs: seq<Cell>)
    ensures var ds := Rewrite(rule, digit, cs);
            && |ds| == |cs|
            && forall i :: 0 <= i < |cs| ==>
                 ds[i] == Cell(cs[i].c, if i + 1 < |cs| && Deletes(rule, digit, cs[i].c, Flat(cs[i + 1..])) then [] else cs[i].gap)
  {
    if cs != [] {
      var rest, ds := cs[1..], Rewrite(rule, digit, cs);
      RewriteAt(rule, digit, rest);
      forall i | 0 <= i < |cs|
        ensures ds[i] == Cell(cs[i].c, if i + 1 < |cs| && Deletes(rule, digit, cs[i].c, Flat(cs[i + 1..])) then [] else cs[i].gap)
      {
        if i > 0 {
          assert ds[i] == Rewrite(rule, digit, rest)[i - 1];
          assert rest[i..] == cs[i + 1..];
        }
      }
    }
  }
}
