/** Korean text normalisation: regular-expression substitutions, read as a scanner that at each
    position takes the longest match it can find by backtracking. */
module NormalizeKo {

  // ---------- character classes ----------

  // What \s and isspace() accept.
  predicate Space(c: char)
  {
    || '\U{9}' <= c <= '\U{D}' || '\U{1C}' <= c <= '\U{20}' || c == '\U{85}' || c == '\U{A0}'
    || c == '\U{1680}' || '\U{2000}' <= c <= '\U{200A}' || '\U{2028}' <= c <= '\U{2029}'
    || c == '\U{202F}' || c == '\U{205F}' || c == '\U{3000}'
  }

  predicate Control(c: char)
  {
    c <= '\U{8}' || '\U{B}' <= c <= '\U{C}' || '\U{E}' <= c <= '\U{1F}' || c == '\U{7F}'
  }

  predicate Punct(c: char) { c in {',', '.', '!', '?', ';', ':'} }
  predicate Opens(c: char) { c in {'(', '[', '{', '「', '『'} }
  predicate Closes(c: char) { c in {')', ']', '}', '」', '』'} }

  predicate OneUnit(c: char)
  {
    c in {'원', '개', '명', '건', '회', '층', '번', '시', '분', '초', '년', '월', '일', '대', '권', '장', '벌', '살',
          '배', '포', '통', '잔', '병'}
  }

  // The length of the unit a text starts with; one unit has two characters.
  function UnitLen(t: string): (n: nat)
    ensures n <= |t|
  {
    if t == [] then 0
    else if OneUnit(t[0]) then 1
    else if |t| >= 2 && t[0] == '마' && t[1] == '리' then 2
    else 0
  }

  // Any class of decimal digits will do for \d: none of them is a space or part of a unit.
  ghost predicate DigitClass(digit: char -> bool)
  {
    forall c :: digit(c) ==> !Space(c) && !OneUnit(c) && c != '마' && c != '리'
  }

  // ---------- the passes ----------

  function Run(t: string): (n: nat)
    ensures n <= |t| && (forall i :: 0 <= i < n ==> Space(t[i])) && (n < |t| ==> !Space(t[n]))
  {
    if t == [] || !Space(t[0]) then 0 else 1 + Run(t[1..])
  }

  predicate Blank(c: char) { Space(c) && c != '\n' }

  function BlankRun(t: string): (n: nat)
    ensures n <= |t| && (forall i :: 0 <= i < n ==> Blank(t[i])) && (n < |t| ==> !Blank(t[n]))
  {
    if t == [] || !Blank(t[0]) then 0 else 1 + BlankRun(t[1..])
  }

  // `_CONTROL_CHARS.sub("", text)`
  function Clean(t: string): string
  {
    if t == [] then [] else (if Control(t[0]) then [] else [t[0]]) + Clean(t[1..])
  }

  // `_MULTI_SPACE.sub(" ", text)`
  function Collapse(t: string): string
    decreases |t|
  {
    if t == [] then []
    else if BlankRun(t) > 0 then [' '] + Collapse(t[BlankRun(t)..])
    else [t[0]] + Collapse(t[1..])
  }

  function RStrip(t: string): string
  {
    if t == [] || !Space(t[|t| - 1]) then t else RStrip(t[..|t| - 1])
  }

  function Strip(t: string): string { RStrip(t[Run(t)..]) }

  // How many spaces \s+ takes before a character of the class: as many as possible, fewer if that fails.
  function SpacesBefore(t: string, k: nat, cls: char -> bool): (n: nat)
    ensures n <= k && (n > 0 ==> n < |t| && cls(t[n]))
  {
    if k == 0 then 0
    else if k < |t| && cls(t[k]) then k
    else SpacesBefore(t, k - 1, cls)
  }

  // \s+([class])
  function SubBefore(t: string, cls: char -> bool): string
    decreases |t|
  {
    if t == [] then []
    else
      var n := SpacesBefore(t, Run(t), cls);
      if n > 0 then [t[n]] + SubBefore(t[n + 1..], cls) else [t[0]] + SubBefore(t[1..], cls)
  }

  // ([opening])\s+
  function SubAfterOpen(t: string): string
    decreases |t|
  {
    if t == [] then []
    else if Opens(t[0]) && Run(t[1..]) > 0 then [t[0]] + SubAfterOpen(t[1 + Run(t[1..])..])
    else [t[0]] + SubAfterOpen(t[1..])
  }

  function SpacesBeforeUnit(t: string, k: nat): (n: nat)
    requires k <= |t|
    ensures n <= k && (n > 0 ==> UnitLen(t[n..]) > 0)
  {
    if k == 0 then 0
    else if UnitLen(t[k..]) > 0 then k
    else SpacesBeforeUnit(t, k - 1)
  }

  // (\d)\s+(unit)
  function SubDigitUnit(t: string, digit: char -> bool): string
    decreases |t|
  {
    if t == [] then []
    else
      var n := SpacesBeforeUnit(t[1..], Run(t[1..]));
      if digit(t[0]) && n > 0 then
        var u := t[1..][n..];
        [t[0]] + u[..UnitLen(u)] + SubDigitUnit(u[UnitLen(u)..], digit)
      else [t[0]] + SubDigitUnit(t[1..], digit)
  }

  function BasicNormalize(t: string): string { Strip(Collapse(Clean(t))) }

  datatype Flags = Flags(punctuation: bool, number: bool)

  function SurfaceRules(t: string, flags: Flags, digit: char -> bool): string
  {
    var a := if flags.number then SubDigitUnit(t, digit) else t;
    if flags.punctuation then SubBefore(SubAfterOpen(SubBefore(a, Punct)), Closes) else a
  }

  function Normalize(t: string, flags: Flags, digit: char -> bool): string
  {
    SurfaceRules(BasicNormalize(t), flags, digit)
  }

  // ---------- a text as characters and the gaps after them ----------

  datatype Cell = Cell(c: char, gap: string)

  predicate Gap(g: string) { forall i :: 0 <= i < |g| ==> Space(g[i]) }
  predicate Proper(cs: seq<Cell>) { forall i :: 0 <= i < |cs| ==> !Space(cs[i].c) && Gap(cs[i].gap) }

  function Flat(cs: seq<Cell>): (t: string)
    ensures cs != [] ==> t != [] && t[0] == cs[0].c
  {
    if cs == [] then [] else [cs[0].c] + cs[0].gap + Flat(cs[1..])
  }

  function Prepend(c: char, gap: string, cs: seq<Cell>): (ds: seq<Cell>)
    requires !Space(c) && Gap(gap) && Proper(cs)
    ensures Proper(ds) && Flat(ds) == [c] + gap + Flat(cs)
  {
    assert ([Cell(c, gap)] + cs)[1..] == cs;
    [Cell(c, gap)] + cs
  }

  // A text that starts with no space, cut into cells.
  function Cut(t: string): (cs: seq<Cell>)
    requires t == [] || !Space(t[0])
    ensures Proper(cs) && Flat(cs) == t
    decreases |t|
  {
    if t == [] then []
    else
      var n := Run(t[1..]);
      var gap, rest := t[1..][..n], t[1..][n..];
      assert [t[0]] + gap + rest == t;
      Prepend(t[0], gap, Cut(rest))
  }

  predicate Solid(t: string) { t == [] || !Space(t[0]) }

  // Which gaps a substitution deletes, by what stands before and after.
  datatype Rule = Number | Punctuation | Opening | Closing

  predicate Deletes(rule: Rule, digit: char -> bool, c: char, after: string)
  {
    match rule
    case Number => digit(c) && UnitLen(after) > 0
    case Punctuation => after != [] && Punct(after[0])
    case Opening => Opens(c)
    case Closing => after != [] && Closes(after[0])
  }

  function Apply(rule: Rule, digit: char -> bool, t: string): string
  {
    match rule
    case Number => SubDigitUnit(t, digit)
    case Punctuation => SubBefore(t, Punct)
    case Opening => SubAfterOpen(t)
    case Closing => SubBefore(t, Closes)
  }

  function Rewrite(rule: Rule, digit: char -> bool, cs: seq<Cell>): seq<Cell>
  {
    if cs == [] then []
    else
      [Cell(cs[0].c, if |cs| > 1 && Deletes(rule, digit, cs[0].c, Flat(cs[1..])) then [] else cs[0].gap)]
      + Rewrite(rule, digit, cs[1..])
  }
}
