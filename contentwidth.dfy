/** The theme's content widths: a desktop and a mobile CSS width per preset, and a widened
    variant of each that takes half of the room left between the width and the viewport.
    The widening reads `clamp(<min>rem, <vw>vw, <max>rem)` or a plain `<vw>vw` out of the
    text the way the two regular expressions do; the number printed back is given by a
    `show` parameter. */
module ContentWidth {
  import opened Wrappers
  import opened Text
  import opened Numbers

  /** A character of `[\d.]`. */
  predicate IsNumChar(c: char) {
    IsDigit(c) || c == '.'
  }

  /** Text matched by `[\d.]+`. */
  predicate NumText(s: string) {
    |s| > 0 && forall k :: 0 <= k < |s| ==> IsNumChar(s[k])
  }

  /** The end of the run of `[\d.]` characters from `i`. */
  function NumRunEnd(s: string, i: nat): (j: nat)
    requires i <= |s|
    ensures i <= j <= |s|
    ensures forall k :: i <= k < j ==> IsNumChar(s[k])
    ensures j < |s| ==> !IsNumChar(s[j])
    decreases |s| - i
  {
    if i < |s| && IsNumChar(s[i]) then NumRunEnd(s, i + 1) else i
  }

  /** The end of the run of `\s` characters from `i`. */
  function SpaceRunEnd(s: string, i: nat): (j: nat)
    requires i <= |s|
    ensures i <= j <= |s|
    ensures forall k :: i <= k < j ==> IsSpace(s[k])
    ensures j < |s| ==> !IsSpace(s[j])
    decreases |s| - i
  {
    if i < |s| && IsSpace(s[i]) then SpaceRunEnd(s, i + 1) else i
  }

  /** A piece of the two patterns: literal text, a captured `([\d.]+)`, or `\s*`. */
  datatype Token = Lit(text: string) | Run | Blank

  /** A pattern: its tokens in order. */
  datatype Pattern = End | Then(token: Token, next: Pattern)

  function Runs(pat: Pattern): nat {
    match pat
    case End => 0
    case Then(t, next) => (if t.Run? then 1 else 0) + Runs(next)
  }

  /** The pattern `pat` matched at position `i` of `s`, with the texts of its runs. Every run
      in the two patterns is followed by a character its class does not hold, so taking each
      run as long as it goes is the only way the regular expression can match. */
  function MatchFrom(s: string, i: nat, pat: Pattern): Option<seq<string>>
    requires i <= |s|
    decreases pat
  {
    match pat
    case End => Some([])
    case Then(Lit(l), next) => if OccursAt(s, l, i) then MatchFrom(s, i + |l|, next) else None
    case Then(Blank, next) => MatchFrom(s, SpaceRunEnd(s, i), next)
    case Then(Run, next) =>
      var j := NumRunEnd(s, i);
      if j == i then None
      else
        match MatchFrom(s, j, next)
        case None => None
        case Some(caps) => Some([s[i..j]] + caps)
  }

  /** A match holds one text per run of the pattern, each of `[\d.]` characters. */
  lemma {:induction false} MatchShape(s: string, i: nat, pat: Pattern)
    requires i <= |s|
    ensures var r := MatchFrom(s, i, pat);
            r.Some? ==> |r.value| == Runs(pat) && forall k :: 0 <= k < |r.value| ==> NumText(r.value[k])
    decreases pat
  {
    match pat
    case End =>
    case Then(Lit(l), next) =>
      if OccursAt(s, l, i) {
        MatchShape(s, i + |l|, next);
      }
    case Then(Blank, next) =>
      MatchShape(s, SpaceRunEnd(s, i), next);
    case Then(Run, next) =>
      var j := NumRunEnd(s, i);
      if j != i {
        MatchShape(s, j, next);
        var r := MatchFrom(s, j, next);
        if r.Some? {
          var run := s[i..j];
          assert forall k :: 0 <= k < |run| ==> run[k] == s[i + k];
          var caps := [run] + r.value;
          assert forall k :: 1 <= k < |caps| ==> caps[k] == r.value[k - 1];
        }
      }
  }

  /** The leftmost position from `p` on where `pat` matches, or `|s| + 1` when there is none. */
  function FirstMatch(s: string, p: nat, pat: Pattern): (q: nat)
    requires p <= |s|
    ensures p <= q <= |s| + 1
    ensures q <= |s| ==> MatchFrom(s, q, pat).Some?
    ensures forall q' :: p <= q' < q && q' <= |s| ==> MatchFrom(s, q', pat).None?
    decreases |s| - p
  {
    if MatchFrom(s, p, pat).Some? then p
    else if p == |s| then |s| + 1
    else FirstMatch(s, p + 1, pat)
  }

  /** `s.match(pattern)`: the match at the leftmost position. */
  function Search(s: string, pat: Pattern): (r: Option<seq<string>>)
    ensures r.None? <==> forall q :: 0 <= q <= |s| ==> MatchFrom(s, q, pat).None?
    ensures r.Some? ==> r == MatchFrom(s, FirstMatch(s, 0, pat), pat)
    ensures r.Some? ==> |r.value| == Runs(pat) && forall k :: 0 <= k < |r.value| ==> NumText(r.value[k])
  {
    var q := FirstMatch(s, 0, pat);
    if q <= |s| then
      assert 0 <= q <= |s| && MatchFrom(s, q, pat).Some?;
      MatchShape(s, q, pat);
      MatchFrom(s, q, pat)
    else None
  }

  /** The text a pattern matches with the given runs, one space for each `\s*`. */
  function Render(pat: Pattern, caps: seq<string>): string {
    match pat
    case End => ""
    case Then(Lit(l), next) => l + Render(next, caps)
    case Then(Blank, next) => " " + Render(next, caps)
    case Then(Run, next) => (if caps == [] then "" else caps[0]) + Render(next, if caps == [] then [] else caps[1..])
  }

  /** The runs suit the pattern: one per run, each followed by a literal that cannot
      continue it, each `\s*` followed by a run. */
  predicate Fits(pat: Pattern, caps: seq<string>) {
    match pat
    case End => caps == []
    case Then(Lit(_), next) => Fits(next, caps)
    case Then(Blank, next) => next.Then? && next.token.Run? && Fits(next, caps)
    case Then(Run, next) =>
      caps != [] && NumText(caps[0]) && next.Then? && next.token.Lit? && next.token.text != []
      && !IsNumChar(next.token.text[0]) && Fits(next, caps[1..])
  }

  lemma NumCharNotSpace(c: char)
    requires IsNumChar(c)
    ensures !IsSpace(c)
  {
  }

  /** `s` holds, from position `i`, what `pat` renders with `caps`. */
  predicate RenderedAt(s: string, i: nat, pat: Pattern, caps: seq<string>) {
    var r := Render(pat, caps);
    i + |r| <= |s| && s[i..i + |r|] == r
  }

  /** Text that holds `a + b` from `i` holds `a` from `i` and then `b`. */
  lemma SplitAt(s: string, i: nat, a: string, b: string)
    requires i + |a| + |b| <= |s| && s[i..i + |a| + |b|] == a + b
    ensures s[i..i + |a|] == a && s[i + |a|..i + |a| + |b|] == b
  {
    var t := s[i..i + |a| + |b|];
    assert t[..|a|] == a && t[|a|..] == b;
    assert s[i..i + |a|] == t[..|a|];
    assert s[i + |a|..i + |a| + |b|] == t[|a|..];
  }

  /** What a pattern renders is matched where it is written, with the same runs. */
  lemma {:induction false} MatchRender(s: string, i: nat, pat: Pattern, caps: seq<string>)
    requires Fits(pat, caps) && RenderedAt(s, i, pat, caps)
    ensures MatchFrom(s, i, pat) == Some(caps)
    decreases pat, 1
  {
    match pat
    case End =>
      assert caps == [];
    case Then(Lit(l), next) =>
      LitCase(s, i, l, next, caps);
    case Then(Blank, next) =>
      BlankCase(s, i, next, caps);
    case Then(Run, next) =>
      RunCase(s, i, next, caps);
  }

  lemma {:induction false} LitCase(s: string, i: nat, l: string, next: Pattern, caps: seq<string>)
    requires Fits(Then(Lit(l), next), caps) && RenderedAt(s, i, Then(Lit(l), next), caps)
    ensures MatchFrom(s, i, Then(Lit(l), next)) == Some(caps)
    decreases Then(Lit(l), next), 0
  {
    MatchLit(s, i, l, next, caps);
    MatchRender(s, i + |l|, next, caps);
  }

  lemma {:induction false} BlankCase(s: string, i: nat, next: Pattern, caps: seq<string>)
    requires Fits(Then(Blank, next), caps) && RenderedAt(s, i, Then(Blank, next), caps)
    ensures MatchFrom(s, i, Then(Blank, next)) == Some(caps)
    decreases Then(Blank, next), 0
  {
    MatchBlank(s, i, next, caps);
    MatchRender(s, i + 1, next, caps);
  }

  lemma {:induction false} RunCase(s: string, i: nat, next: Pattern, caps: seq<string>)
    requires Fits(Then(Run, next), caps) && RenderedAt(s, i, Then(Run, next), caps)
    ensures MatchFrom(s, i, Then(Run, next)) == Some(caps)
    decreases Then(Run, next), 0
  {
    assert caps != [] && NumText(caps[0]) && next.Then? && next.token.Lit? && Fits(next, caps[1..]);
    MatchRun(s, i, next, caps);
    MatchRender(s, i + |caps[0]|, next, caps[1..]);
    RunStep(s, i, next, caps);
  }

  lemma MatchLit(s: string, i: nat, l: string, next: Pattern, caps: seq<string>)
    requires RenderedAt(s, i, Then(Lit(l), next), caps)
    ensures RenderedAt(s, i + |l|, next, caps)
    ensures MatchFrom(s, i, Then(Lit(l), next)) == MatchFrom(s, i + |l|, next)
  {
    SplitAt(s, i, l, Render(next, caps));
    assert OccursAt(s, l, i);
  }

  lemma MatchBlank(s: string, i: nat, next: Pattern, caps: seq<string>)
    requires Fits(Then(Blank, next), caps) && RenderedAt(s, i, Then(Blank, next), caps)
    ensures RenderedAt(s, i + 1, next, caps)
    ensures MatchFrom(s, i, Then(Blank, next)) == MatchFrom(s, i + 1, next)
  {
    var tail := Render(next, caps);
    SplitAt(s, i, " ", tail);
    assert s[i] == ' ';
    assert tail == caps[0] + Render(next.next, caps[1..]);
    assert s[i + 1] == tail[0] == caps[0][0];
    NumCharNotSpace(caps[0][0]);
    assert SpaceRunEnd(s, i + 1) == i + 1;
  }

  lemma MatchRun(s: string, i: nat, next: Pattern, caps: seq<string>)
    requires caps != [] && NumText(caps[0])
    requires next.Then? && next.token.Lit? && next.token.text != [] && !IsNumChar(next.token.text[0])
    requires RenderedAt(s, i, Then(Run, next), caps)
    ensures i + |caps[0]| <= |s| && RenderedAt(s, i + |caps[0]|, next, caps[1..])
    ensures s[i..i + |caps[0]|] == caps[0] && NumRunEnd(s, i) == i + |caps[0]|
  {
    var c := caps[0];
    var tail := Render(next, caps[1..]);
    assert Render(Then(Run, next), caps) == c + tail;
    assert tail != [] && tail[0] == next.token.text[0] by {
      assert tail == next.token.text + Render(next.next, caps[1..]);
    }
    RunAt(s, i, c, tail);
  }

  /** A run written from `i` and followed by text that starts with another character is
      the run the pattern takes there. */
  lemma RunAt(s: string, i: nat, c: string, tail: string)
    requires NumText(c) && tail != [] && !IsNumChar(tail[0])
    requires i + |c| + |tail| <= |s| && s[i..i + |c| + |tail|] == c + tail
    ensures s[i..i + |c|] == c && s[i + |c|..i + |c| + |tail|] == tail
    ensures NumRunEnd(s, i) == i + |c|
  {
    SplitAt(s, i, c, tail);
    SliceHead(s, i + |c|, tail);
    RunEnds(s, i, c);
  }

  lemma SliceHead(s: string, j: nat, t: string)
    requires t != [] && j + |t| <= |s| && s[j..j + |t|] == t
    ensures s[j] == t[0]
  {
    assert s[j..j + |t|][0] == s[j];
  }

  lemma RunStep(s: string, i: nat, next: Pattern, caps: seq<string>)
    requires caps != [] && caps[0] != [] && i + |caps[0]| <= |s|
    requires s[i..i + |caps[0]|] == caps[0] && NumRunEnd(s, i) == i + |caps[0]|
    requires MatchFrom(s, i + |caps[0]|, next) == Some(caps[1..])
    ensures MatchFrom(s, i, Then(Run, next)) == Some(caps)
  {
    assert [caps[0]] + caps[1..] == caps;
  }

  /** A run of `[\d.]` written from `i` and followed by another character ends there. */
  lemma RunEnds(s: string, i: nat, run: string)
    requires NumText(run) && i + |run| < |s| && s[i..i + |run|] == run && !IsNumChar(s[i + |run|])
    ensures NumRunEnd(s, i) == i + |run|
  {
    assert forall k :: i <= k < i + |run| ==> s[k] == run[k - i];
  }

  lemma NotOccurs(s: string, t: string, q: nat)
    requires t != [] && (q < |s| ==> s[q] != t[0])
    ensures !OccursAt(s, t, q)
  {
  }

  /** A pattern that starts with a literal finds nothing in text without its first character. */
  lemma NoLeadMatch(s: string, l: string, next: Pattern)
    requires l != []
    requires forall k :: 0 <= k < |s| ==> s[k] != l[0]
    ensures Search(s, Then(Lit(l), next)).None?
  {
    forall q | 0 <= q <= |s|
      ensures MatchFrom(s, q, Then(Lit(l), next)).None?
    {
      NotOccurs(s, l, q);
    }
  }

  /** `clamp\(([\d.]+)rem,\s*([\d.]+)vw,\s*([\d.]+)rem\)` */
  function ClampPattern(): Pattern {
    Then(Lit("clamp("), Then(Run, Then(Lit("rem,"), Then(Blank, Then(Run, Then(Lit("vw,"),
      Then(Blank, Then(Run, Then(Lit("rem)"), End)))))))))
  }

  /** `([\d.]+)vw` */
  function VwPattern(): Pattern {
    Then(Run, Then(Lit("vw"), End))
  }

  lemma ClampRuns()
    ensures Runs(ClampPattern()) == 3
  {
  }

  lemma VwRuns()
    ensures Runs(VwPattern()) == 1
  {
  }

  /** The three groups of the `clamp` pattern. */
  datatype ClampParts = ClampParts(minRem: string, vw: string, maxRem: string)

  /** `width.match(clampPattern)` */
  function ClampSearch(s: string): (r: Option<ClampParts>)
    ensures r.None? <==> Search(s, ClampPattern()).None?
    ensures r.Some? ==> NumText(r.value.minRem) && NumText(r.value.vw) && NumText(r.value.maxRem)
  {
    ClampRuns();
    match Search(s, ClampPattern())
    case Some(caps) => Some(ClampParts(caps[0], caps[1], caps[2]))
    case None => None
  }

  /** `width.match(vwPattern)` */
  function VwSearch(s: string): (r: Option<string>)
    ensures r.None? <==> Search(s, VwPattern()).None?
    ensures r.Some? ==> NumText(r.value)
  {
    VwRuns();
    match Search(s, VwPattern())
    case Some(caps) => Some(caps[0])
    case None => None
  }

  /** `vw + (100 - vw) / 2` in IEEE terms: `NaN` stays `NaN`, and so does an infinity,
      since it meets the opposite infinity. */
  function Expanded(vw: Num): (r: Num)
    ensures vw.Finite? ==> r.Finite? && r.value == (vw.value + 100.0) / 2.0
    ensures !vw.Finite? ==> r.NaN?
  {
    match vw
    case Finite(x) => Finite(x + (100.0 - x) / 2.0)
    case _ => NaN
  }

  /** The widened width lies halfway between the width and the whole viewport. */
  lemma ExpandedHalfway(x: real)
    requires x <= 100.0
    ensures x <= Expanded(Finite(x)).value <= 100.0
    ensures Expanded(Finite(x)).value == 100.0 <==> x == 100.0
    ensures 100.0 - Expanded(Finite(x)).value == (100.0 - x) / 2.0
  {
  }

  function ExpandedMin(minRem: string): string {
    "calc(" + minRem + "rem - (" + minRem + "rem - 100vw) / 2)"
  }

  function ExpandedMax(maxRem: string): string {
    "calc(" + maxRem + "rem + (100vw - " + maxRem + "rem) / 2)"
  }

  /** `clamp(${expandedMin}, ${expandedVw}vw, ${expandedMax})` */
  function WidenedClamp(minRem: string, vwText: string, maxRem: string): string {
    "clamp(" + ExpandedMin(minRem) + ", " + vwText + ", " + ExpandedMax(maxRem) + ")"
  }

  /** `${expandedVw}vw` */
  function ExpandedVwText(vw: string, show: real -> string): string {
    Show(Expanded(ParseFloat(vw)), show) + "vw"
  }

  /** `calculateExpandedWidth(width)` */
  function ExpandedWidth(width: string, show: real -> string): string {
    match ClampSearch(width)
    case Some(c) => WidenedClamp(c.minRem, ExpandedVwText(c.vw, show), c.maxRem)
    case None =>
      match VwSearch(width)
      case Some(v) => ExpandedVwText(v, show)
      case None => width
  }

  /** `clamp(<min>rem, <vw>vw, <max>rem)`, the form the desktop presets are written in. */
  function ClampText(c: ClampParts): string {
    Render(ClampPattern(), [c.minRem, c.vw, c.maxRem])
  }

  /** `<vw>vw`, the form the mobile presets are written in. */
  function VwText(vw: string): string {
    Render(VwPattern(), [vw])
  }

  /** The `clamp` pattern, token by token from the end. */
  lemma ClampPatternIs() returns (p0: Pattern, p1: Pattern, p2: Pattern, p3: Pattern, p4: Pattern,
                                  p5: Pattern, p6: Pattern, p7: Pattern, p8: Pattern)
    ensures p8 == Then(Lit("rem)"), End) && p7 == Then(Run, p8) && p6 == Then(Blank, p7)
    ensures p5 == Then(Lit("vw,"), p6) && p4 == Then(Run, p5) && p3 == Then(Blank, p4)
    ensures p2 == Then(Lit("rem,"), p3) && p1 == Then(Run, p2) && p0 == Then(Lit("clamp("), p1)
    ensures ClampPattern() == p0
  {
    p8 := Then(Lit("rem)"), End);
    p7 := Then(Run, p8);
    p6 := Then(Blank, p7);
    p5 := Then(Lit("vw,"), p6);
    p4 := Then(Run, p5);
    p3 := Then(Blank, p4);
    p2 := Then(Lit("rem,"), p3);
    p1 := Then(Run, p2);
    p0 := Then(Lit("clamp("), p1);
  }

  lemma ClampTextIs(c: ClampParts)
    ensures ClampText(c) == "clamp(" + c.minRem + "rem," + " " + c.vw + "vw," + " " + c.maxRem + "rem)"
  {
    var p0, p1, p2, p3, p4, p5, p6, p7, p8 := ClampPatternIs();
    var t := ClampTail(p4, c.vw, c.maxRem);
    RenderRun(p2, c.minRem, [c.vw, c.maxRem]);
    assert [c.minRem] + [c.vw, c.maxRem] == [c.minRem, c.vw, c.maxRem];
    var r2 := Render(p2, [c.vw, c.maxRem]);
    assert Render(p3, [c.vw, c.maxRem]) == " " + t;
    assert r2 == "rem," + (" " + t);
    assert ClampText(c) == "clamp(" + (c.minRem + r2);
    JoinOrder(c.minRem, c.vw, c.maxRem);
  }

  /** The `<vw>vw, <max>rem)` end of the `clamp` text. */
  lemma ClampTail(p4: Pattern, vw: string, maxRem: string) returns (t: string)
    requires p4 == ClampPattern().next.next.next.next
    ensures t == vw + ("vw," + (" " + (maxRem + "rem)"))) && Render(p4, [vw, maxRem]) == t
  {
    var p5 := p4.next;
    var p6 := p5.next;
    var p7 := p6.next;
    assert Render(p7.next, []) == "rem)" by {
      assert Render(p7.next.next, []) == "";
    }
    RenderRun(p7.next, maxRem, []);
    assert [maxRem] + [] == [maxRem];
    assert Render(p6, [maxRem]) == " " + (maxRem + "rem)");
    assert Render(p5, [maxRem]) == "vw," + (" " + (maxRem + "rem)"));
    RenderRun(p5, vw, [maxRem]);
    assert [vw] + [maxRem] == [vw, maxRem];
    t := vw + ("vw," + (" " + (maxRem + "rem)")));
  }

  /** A run renders as its text, then the rest with the remaining runs. */
  lemma RenderRun(next: Pattern, c: string, rest: seq<string>)
    ensures Render(Then(Run, next), [c] + rest) == c + Render(next, rest)
  {
    assert ([c] + rest)[1..] == rest;
  }

  lemma JoinOrder(minRem: string, vw: string, maxRem: string)
    ensures "clamp(" + (minRem + ("rem," + (" " + (vw + ("vw," + (" " + (maxRem + "rem)")))))))
            == "clamp(" + minRem + "rem," + " " + vw + "vw," + " " + maxRem + "rem)"
  {
  }

  lemma VwTextIs(vw: string)
    ensures VwText(vw) == vw + "vw"
  {
    assert [vw][1..] == [];
    assert Render(Then(Lit("vw"), End), []) == "vw";
  }

  /** Text in `clamp` form is matched at its start, with its three numbers. */
  lemma ClampTextMatches(c: ClampParts)
    requires NumText(c.minRem) && NumText(c.vw) && NumText(c.maxRem)
    ensures ClampSearch(ClampText(c)) == Some(c)
  {
    var p0, p1, p2, p3, p4, p5, p6, p7, p8 := ClampPatternIs();
    var caps := [c.minRem, c.vw, c.maxRem];
    assert caps[1..] == [c.vw, c.maxRem] && caps[1..][1..] == [c.maxRem] && [c.maxRem][1..] == [];
    assert Fits(p8, []);
    assert Fits(p7, [c.maxRem]);
    assert Fits(p5, [c.maxRem]);
    assert Fits(p4, caps[1..]);
    assert Fits(p2, caps[1..]);
    assert Fits(p0, caps);
    MatchRender(ClampText(c), 0, ClampPattern(), caps);
  }

  /** Text in `<vw>vw` form is matched at its start and is not a `clamp`. */
  lemma VwTextMatches(vw: string)
    requires NumText(vw)
    ensures ClampSearch(VwText(vw)).None?
    ensures VwSearch(VwText(vw)) == Some(vw)
  {
    var s := VwText(vw);
    VwTextIs(vw);
    assert forall k :: 0 <= k < |s| ==> s[k] != 'c' by {
      forall k | 0 <= k < |s|
        ensures s[k] != 'c'
      {
        if k < |vw| {
          assert s[k] == vw[k];
        }
      }
    }
    NoLeadMatch(s, "clamp(", ClampPattern().next);
    assert Fits(VwPattern(), [vw]);
    MatchRender(s, 0, VwPattern(), [vw]);
  }

  /** Text with no match of either pattern comes back as it is. */
  lemma UnmatchedUnchanged(width: string, show: real -> string)
    requires forall q :: 0 <= q <= |width| ==> MatchFrom(width, q, ClampPattern()).None?
    requires forall q :: 0 <= q <= |width| ==> MatchFrom(width, q, VwPattern()).None?
    ensures ExpandedWidth(width, show) == width
  {
  }

  /** The widened form of a `clamp` width: both bounds copied as written, the preferred
      width halfway to the viewport. */
  lemma ExpandedClamp(c: ClampParts, show: real -> string)
    requires NumText(c.minRem) && NumText(c.vw) && NumText(c.maxRem)
    ensures ExpandedWidth(ClampText(c), show)
         == WidenedClamp(c.minRem, ExpandedVwText(c.vw, show), c.maxRem)
  {
    ClampTextMatches(c);
  }

  /** The widened form of a plain `<vw>vw` width. */
  lemma ExpandedPlain(vw: string, show: real -> string)
    requires NumText(vw)
    ensures ExpandedWidth(VwText(vw), show) == ExpandedVwText(vw, show)
  {
    VwTextMatches(vw);
  }

  datatype Preset = Small | SmallMedium | Compact | MediumSmall | Medium | MediumLarge

  datatype Widths = Widths(desktop: string, mobile: string)

  /** A numeral with an optional fraction of `.5`: `Numeral(72, true)` is "72.5". */
  function Numeral(n: nat, half: bool): string {
    if half then NatToString(n) + "." + "5" else NatToString(n)
  }

  /** The preferred desktop width of each preset, in `vw`: 70, 72.5, 75, 77.5, 80, 82.5. */
  function DesktopVw(p: Preset): string {
    Numeral(DesktopWhole(p), p in {SmallMedium, MediumSmall, MediumLarge})
  }

  function DesktopWhole(p: Preset): nat {
    match p
    case Small => 70
    case SmallMedium => 72
    case Compact => 75
    case MediumSmall => 77
    case Medium => 80
    case MediumLarge => 82
  }

  /** The mobile width of each preset, in `vw`: 85 for the largest, 80 for the others. */
  function MobileVw(p: Preset): string {
    if p == MediumLarge then Numeral(85, false) else Numeral(80, false)
  }

  /** `contentWidthMap`: the desktop width is a `clamp` between 40rem and 100rem whose
      preferred width reads as the preset's value, the mobile width a plain `vw` width. */
  function ContentWidth(p: Preset): (w: Widths)
    ensures ClampSearch(w.desktop).Some?
    ensures ClampSearch(w.desktop).value.minRem == "40" && ClampSearch(w.desktop).value.maxRem == "100"
    ensures ParseFloat(ClampSearch(w.desktop).value.vw) == Finite(DesktopValue(p))
    ensures ClampSearch(w.mobile).None? && VwSearch(w.mobile).Some?
    ensures ParseFloat(VwSearch(w.mobile).value) == Finite(if p == MediumLarge then 85.0 else 80.0)
  {
    DesktopVwReads(p);
    PresetBounds();
    ClampTextMatches(ClampParts("40", DesktopVw(p), "100"));
    NumeralReads(85, false);
    NumeralReads(80, false);
    VwTextMatches(MobileVw(p));
    Widths(ClampText(ClampParts("40", DesktopVw(p), "100")), VwText(MobileVw(p)))
  }

  /** `expandedContentWidthMap` */
  function ExpandedContentWidth(p: Preset, show: real -> string): Widths {
    Widths(ExpandedWidth(ContentWidth(p).desktop, show), ExpandedWidth(ContentWidth(p).mobile, show))
  }

  /** The value each desktop preset's `vw` text reads as. */
  function DesktopValue(p: Preset): real {
    match p
    case Small => 70.0
    case SmallMedium => 72.5
    case Compact => 75.0
    case MediumSmall => 77.5
    case Medium => 80.0
    case MediumLarge => 82.5
  }

  lemma DesktopVwReads(p: Preset)
    ensures NumText(DesktopVw(p))
    ensures ParseFloat(DesktopVw(p)) == Finite(DesktopValue(p))
  {
    NumeralReads(DesktopWhole(p), p in {SmallMedium, MediumSmall, MediumLarge});
  }

  /** A numeral is `[\d.]` text and reads back as its value. */
  lemma NumeralReads(n: nat, half: bool)
    ensures NumText(Numeral(n, half))
    ensures ParseFloat(Numeral(n, half)) == Finite(n as real + if half then 0.5 else 0.0)
  {
    if half {
      HalfNumeralText(n);
      HalfNumeralValue(n);
    } else {
      ParseFloatOfNat(n);
    }
  }

  lemma HalfNumeralText(n: nat)
    ensures NumText(NatToString(n) + "." + "5")
  {
    var ip := NatToString(n);
    assert NumText("." + "5");
    NumTextJoin(ip, "." + "5");
    assert ip + ("." + "5") == ip + "." + "5";
  }

  lemma HalfNumeralValue(n: nat)
    ensures ParseFloat(NatToString(n) + "." + "5") == Finite(n as real + 0.5)
  {
    ReadsFraction(NatToString(n) + "." + "5", n, "5");
    FiveTenths(n);
  }

  lemma NumTextJoin(a: string, b: string)
    requires NumText(a) && NumText(b)
    ensures NumText(a + b)
  {
    assert forall k :: 0 <= k < |a + b| ==> (a + b)[k] == if k < |a| then a[k] else b[k - |a|];
  }

  lemma ReadsFraction(t: string, n: nat, fp: string)
    requires AllDigits(fp) && t == NatToString(n) + "." + fp
    ensures ParseFloat(t) == Finite(Decimal(n, DigitsValue(fp), |fp|))
  {
    ParseSignedDecimal(false, NatToString(n), fp);
    assert SignText(false) + NatToString(n) == NatToString(n);
  }

  lemma FiveTenths(n: nat)
    ensures Decimal(n, DigitsValue("5"), |"5"|) == n as real + 0.5
  {
    assert DigitsValue("5") == 5;
    assert Shifted(5.0, 1) == Shifted(5.0, 0) / 10.0 == 0.5;
  }

  /** Every desktop preset widens to `clamp` bounds around the preferred width halfway to
      the viewport. */
  lemma ExpandedDesktop(p: Preset, show: real -> string)
    ensures ExpandedContentWidth(p, show).desktop
         == WidenedClamp("40", show((DesktopValue(p) + 100.0) / 2.0) + "vw", "100")
  {
    PresetBounds();
    WidenedPreset(p, "40", "100", show);
    assert ExpandedContentWidth(p, show).desktop == ExpandedWidth(ClampText(ClampParts("40", DesktopVw(p), "100")), show);
  }

  lemma PresetBounds()
    ensures NumText("40") && NumText("100")
  {
  }

  lemma WidenedPreset(p: Preset, lo: string, hi: string, show: real -> string)
    requires NumText(lo) && NumText(hi)
    ensures ExpandedWidth(ClampText(ClampParts(lo, DesktopVw(p), hi)), show)
         == WidenedClamp(lo, show((DesktopValue(p) + 100.0) / 2.0) + "vw", hi)
  {
    DesktopVwReads(p);
    ExpandedClamp(ClampParts(lo, DesktopVw(p), hi), show);
  }

  /** Every mobile preset widens to its own halfway value. */
  lemma ExpandedMobile(p: Preset, show: real -> string)
    ensures ExpandedContentWidth(p, show).mobile == show(if p == MediumLarge then 92.5 else 90.0) + "vw"
  {
    var m := MobileVw(p);
    if p == MediumLarge {
      NumeralReads(85, false);
    } else {
      NumeralReads(80, false);
    }
    ExpandedPlain(m, show);
  }
}
