/** The ASCII-to-Unicode conversion of `git log --graph` lines
    (`convert_to_round_style` in the git graph widget): a chain of
    `str::replace` calls, shown here to be one per-character substitution. */
module GitGraph {

  const Bullet: char := '\U{25CF}'        // ●
  const VerticalBar: char := '\U{2502}'   // │
  const FallingDiagonal: char := '\U{2572}' // ╲
  const RisingDiagonal: char := '\U{2571}'  // ╱
  const HorizontalBar: char := '\U{2500}' // ─

  /** `str::replace(pat, rep)`: every non-overlapping occurrence of `pat`, scanned
      from the left, is replaced by `rep`. */
  function ReplaceAll(s: string, pat: string, rep: string): (r: string)
    requires |pat| > 0
    decreases |s|
    ensures |rep| == |pat| ==> |r| == |s|
  {
    if |s| < |pat| then s
    else if s[..|pat|] == pat then rep + ReplaceAll(s[|pat|..], pat, rep)
    else [s[0]] + ReplaceAll(s[1..], pat, rep)
  }

  /** The line with every `c` turned into `d` and every other character kept. */
  function Substitute(s: string, c: char, d: char): (r: string)
    ensures |r| == |s|
    ensures forall i :: 0 <= i < |s| ==> r[i] == if s[i] == c then d else s[i]
  {
    seq(|s|, i requires 0 <= i < |s| => if s[i] == c then d else s[i])
  }

  /** Replacing a single character by a single character is a substitution. */
  lemma {:induction false} ReplaceCharIsSubstitution(s: string, c: char, d: char)
    ensures ReplaceAll(s, [c], [d]) == Substitute(s, c, d)
    decreases |s|
  {
    if |s| >= 1 {
      ReplaceCharIsSubstitution(s[1..], c, d);
      assert s[..1] == [s[0]];
      var head := if s[0] == c then [d] else [s[0]];
      assert ReplaceAll(s, [c], [d]) == head + Substitute(s[1..], c, d);
      assert head + Substitute(s[1..], c, d) == Substitute(s, c, d);
    }
  }

  /** Replacing a pattern by itself changes nothing. */
  lemma {:induction false} ReplaceWithItself(s: string, pat: string)
    requires |pat| > 0
    ensures ReplaceAll(s, pat, pat) == s
    decreases |s|
  {
    if |s| >= |pat| {
      if s[..|pat|] == pat {
        ReplaceWithItself(s[|pat|..], pat);
        assert pat + s[|pat|..] == s;
      } else {
        ReplaceWithItself(s[1..], pat);
        assert [s[0]] + s[1..] == s;
      }
    }
  }

  /** The glyph each ASCII graph character becomes; every other character maps
      to itself. */
  function RoundGlyph(c: char): char {
    if c == '*' then Bullet
    else if c == '|' then VerticalBar
    else if c == '\\' then FallingDiagonal
    else if c == '/' then RisingDiagonal
    else if c == '-' then HorizontalBar
    else c
  }

  /** The reference definition: `RoundGlyph` applied to each character. */
  function RoundStyle(line: string): (r: string)
    ensures |r| == |line|
  {
    seq(|line|, i requires 0 <= i < |line| => RoundGlyph(line[i]))
  }

  /** `convert_to_round_style`, written as the chain of replacements it is. */
  function ConvertToRoundStyle(line: string): (r: string)
    ensures |r| == |line|
  {
    var r := line;
    var r := ReplaceAll(r, "*", [Bullet]);
    var r := ReplaceAll(r, "|", [VerticalBar]);
    var r := ReplaceAll(r, "\\", [FallingDiagonal]);
    var r := ReplaceAll(r, "/", [RisingDiagonal]);
    var r := ReplaceAll(r, "-", [HorizontalBar]);
    // merge patterns
    var r := ReplaceAll(r, [VerticalBar, FallingDiagonal], [VerticalBar, FallingDiagonal]);
    var r := ReplaceAll(r, [VerticalBar, RisingDiagonal], [VerticalBar, RisingDiagonal]);
    var r := ReplaceAll(r, [FallingDiagonal, VerticalBar], [FallingDiagonal, VerticalBar]);
    var r := ReplaceAll(r, [RisingDiagonal, VerticalBar], [RisingDiagonal, VerticalBar]);
    // bullet spacing
    var r := ReplaceAll(r, [' ', ' ', Bullet], [' ', ' ', Bullet]);
    var r := ReplaceAll(r, [Bullet, ' '], [Bullet, ' ']);
    r
  }

  /** The chain of replacements equals the single per-character map: no glyph a
      replacement writes is a character a later replacement looks for, and the
      last six replacements put back exactly what they find. */
  lemma ConvertIsGlyphMap(line: string)
    ensures ConvertToRoundStyle(line) == RoundStyle(line)
  {
    var r1 := ReplaceAll(line, "*", [Bullet]);
    ReplaceCharIsSubstitution(line, '*', Bullet);
    var r2 := ReplaceAll(r1, "|", [VerticalBar]);
    ReplaceCharIsSubstitution(r1, '|', VerticalBar);
    var r3 := ReplaceAll(r2, "\\", [FallingDiagonal]);
    ReplaceCharIsSubstitution(r2, '\\', FallingDiagonal);
    var r4 := ReplaceAll(r3, "/", [RisingDiagonal]);
    ReplaceCharIsSubstitution(r3, '/', RisingDiagonal);
    var r5 := ReplaceAll(r4, "-", [HorizontalBar]);
    ReplaceCharIsSubstitution(r4, '-', HorizontalBar);
    assert r5 == RoundStyle(line);
    ReplaceWithItself(r5, [VerticalBar, FallingDiagonal]);
    ReplaceWithItself(r5, [VerticalBar, RisingDiagonal]);
    ReplaceWithItself(r5, [FallingDiagonal, VerticalBar]);
    ReplaceWithItself(r5, [RisingDiagonal, VerticalBar]);
    ReplaceWithItself(r5, [' ', ' ', Bullet]);
    ReplaceWithItself(r5, [Bullet, ' ']);
  }

  /** The five ASCII graph characters become their glyphs, every other character
      stays as it is, and the line keeps its length. */
  lemma ConvertMapsEachCharacter(line: string)
    ensures |ConvertToRoundStyle(line)| == |line|
    ensures forall i :: 0 <= i < |line| ==> var c, g := line[i], ConvertToRoundStyle(line)[i];
      && (c == '*' ==> g == Bullet)
      && (c == '|' ==> g == VerticalBar)
      && (c == '\\' ==> g == FallingDiagonal)
      && (c == '/' ==> g == RisingDiagonal)
      && (c == '-' ==> g == HorizontalBar)
      && (c !in "*|\\/-" ==> g == c)
  {
    ConvertIsGlyphMap(line);
  }

  /** No ASCII graph character survives the conversion. */
  lemma ConvertLeavesNoAsciiGlyph(line: string)
    ensures forall i :: 0 <= i < |ConvertToRoundStyle(line)| ==> ConvertToRoundStyle(line)[i] !in "*|\\/-"
  {
    ConvertIsGlyphMap(line);
  }

  /** Mapping glyphs twice is mapping them once: no glyph is itself an ASCII
      graph character. */
  lemma RoundStyleIdempotent(line: string)
    ensures RoundStyle(RoundStyle(line)) == RoundStyle(line)
  {
    var once := RoundStyle(line);
    forall i | 0 <= i < |once| ensures RoundStyle(once)[i] == once[i] {
      assert once[i] == RoundGlyph(line[i]);
    }
  }

  /** Converting an already converted line changes nothing. */
  lemma ConvertIdempotent(line: string)
    ensures ConvertToRoundStyle(ConvertToRoundStyle(line)) == ConvertToRoundStyle(line)
  {
    ConvertIsGlyphMap(line);
    ConvertIsGlyphMap(RoundStyle(line));
    RoundStyleIdempotent(line);
  }
}
