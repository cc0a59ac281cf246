/**
 * A worked example of the cleanup of src/utils/text.py: a two-item list, for
 * any item text without markup.
 */
module CleanupExamples {
  import opened Strings
  import opened TextCleanup

  /** The tags a list is written with, as the list section takes them. */
  predicate ListTagsAre(u: string, l: string, cl: string, cu: string)
  {
    && EarlyMisses(u) && ListFirst(u, 0)
    && EarlyMisses(cu) && ListFirst(cu, 1)
    && EarlyMisses(l) && ListFirst(l, 4)
    && EarlyMisses(cl) && ListFirst(cl, 5)
  }

  /** An item text the cleanup leaves as it is. */
  predicate ItemText(a: string)
  {
    '<' !in a && '`' !in a && NoTriple(a) && |a| > 0 && !IsSpace(a[0]) && !IsSpace(a[|a| - 1])
  }

  lemma {:induction false} TextAppend(xs: seq<Piece>, ys: seq<Piece>)
    ensures Text(xs + ys) == Text(xs) + Text(ys)
    decreases |xs|
  {
    if xs == [] {
      assert xs + ys == ys;
    } else {
      assert (xs + ys)[1..] == xs[1..] + ys;
      TextAppend(xs[1..], ys);
    }
  }

  lemma TextOfTwo(p0: Piece, p1: Piece)
    ensures Text([p0, p1]) == PieceText(p0) + PieceText(p1)
  {
    assert [p1][1..] == [];
    assert Text([p1]) == PieceText(p1);
    assert [p0, p1][1..] == [p1];
  }

  lemma TextOfFour(p0: Piece, p1: Piece, p2: Piece, p3: Piece)
    ensures Text([p0, p1, p2, p3]) == PieceText(p0) + PieceText(p1) + PieceText(p2) + PieceText(p3)
  {
    assert [p0, p1, p2, p3] == [p0, p1] + [p2, p3];
    TextAppend([p0, p1], [p2, p3]);
    TextOfTwo(p0, p1);
    TextOfTwo(p2, p3);
  }

  lemma TextOfEight(p0: Piece, p1: Piece, p2: Piece, p3: Piece, p4: Piece, p5: Piece, p6: Piece, p7: Piece)
    ensures Text([p0, p1, p2, p3, p4, p5, p6, p7]) == PieceText(p0) + PieceText(p1) + PieceText(p2) + PieceText(p3) + PieceText(p4) + PieceText(p5) + PieceText(p6) + PieceText(p7)
  {
    assert [p0, p1, p2, p3, p4, p5, p6, p7] == [p0, p1, p2, p3] + [p4, p5, p6, p7];
    TextAppend([p0, p1, p2, p3], [p4, p5, p6, p7]);
    TextOfFour(p0, p1, p2, p3);
    TextOfFour(p4, p5, p6, p7);
  }

  /** The list as pieces: its tags, and its items as plain text. */
  lemma ListWithin(u: string, l: string, cl: string, cu: string, a: string, b: string)
    requires ItemText(a) && ItemText(b)
    ensures PiecesWithin([Tag(u), Tag(l), Plain(a), Tag(cl), Tag(l), Plain(b), Tag(cl), Tag(cu)], [u, l, cl, cu])
  {
  }

  /** The replacement of rule `i` of the list section. */
  function Rep(i: nat): string
    requires i < |ListRules|
  {
    ListRules[i].replacement
  }

  lemma PiecesAfterEight(rules: seq<Rule>, p0: Piece, p1: Piece, p2: Piece, p3: Piece, p4: Piece, p5: Piece, p6: Piece, p7: Piece)
    ensures PiecesAfter(rules, [p0, p1, p2, p3, p4, p5, p6, p7])
      == [PieceAfter(rules, p0), PieceAfter(rules, p1), PieceAfter(rules, p2), PieceAfter(rules, p3),
          PieceAfter(rules, p4), PieceAfter(rules, p5), PieceAfter(rules, p6), PieceAfter(rules, p7)]
  {
    var ps := [p0, p1, p2, p3, p4, p5, p6, p7];
    var qs := [PieceAfter(rules, p0), PieceAfter(rules, p1), PieceAfter(rules, p2), PieceAfter(rules, p3),
               PieceAfter(rules, p4), PieceAfter(rules, p5), PieceAfter(rules, p6), PieceAfter(rules, p7)];
    var r := PiecesAfter(rules, ps);
    assert forall k :: 0 <= k < 8 ==> r[k] == PieceAfter(rules, ps[k]) == qs[k];
  }

  /** Each tag becomes its replacement and each item stays. */
  lemma ListPiecesAfter(u: string, l: string, cl: string, cu: string, a: string, b: string)
    requires ListTagsAre(u, l, cl, cu)
    ensures PiecesAfter(TagRules, [Tag(u), Tag(l), Plain(a), Tag(cl), Tag(l), Plain(b), Tag(cl), Tag(cu)])
      == [Plain(Rep(0)), Plain(Rep(4)), Plain(a), Plain(Rep(5)), Plain(Rep(4)), Plain(b), Plain(Rep(5)), Plain(Rep(1))]
  {
    PiecesAfterEight(TagRules, Tag(u), Tag(l), Plain(a), Tag(cl), Tag(l), Plain(b), Tag(cl), Tag(cu));
    ListTagCleaned(u, 0);
    ListTagCleaned(cu, 1);
    ListTagCleaned(l, 4);
    ListTagCleaned(cl, 5);
    PlainStays(TagRules, a);
    PlainStays(TagRules, b);
  }

  /** The cleanup's substitutions turn the list into its items, each after its tags' replacements. */
  lemma ListPiecesCleaned(u: string, l: string, cl: string, cu: string, a: string, b: string)
    requires ListTagsAre(u, l, cl, cu) && RulesFit(TagRules, [u, l, cl, cu]) && ItemText(a) && ItemText(b)
    ensures ApplyRules(TagRules, u + l + a + cl + l + b + cl + cu)
      == Rep(0) + Rep(4) + a + Rep(5) + Rep(4) + b + Rep(5) + Rep(1)
  {
    var ps := [Tag(u), Tag(l), Plain(a), Tag(cl), Tag(l), Plain(b), Tag(cl), Tag(cu)];
    TextOfEight(Tag(u), Tag(l), Plain(a), Tag(cl), Tag(l), Plain(b), Tag(cl), Tag(cu));
    TextOfEight(Plain(Rep(0)), Plain(Rep(4)), Plain(a), Plain(Rep(5)), Plain(Rep(4)), Plain(b), Plain(Rep(5)), Plain(Rep(1)));
    ListWithin(u, l, cl, cu, a, b);
    ApplyOnPieces(TagRules, ps, [u, l, cl, cu]);
    ListPiecesAfter(u, l, cl, cu, a, b);
  }

  /** Only an item tag leaves text behind: an indented bullet on a new line. */
  lemma ListText(a: string, b: string)
    ensures Rep(0) + Rep(4) + a + Rep(5) + Rep(4) + b + Rep(5) + Rep(1) == "\n   • " + a + "\n   • " + b
  {
    assert Rep(0) == "" && Rep(1) == "" && Rep(5) == "" && Rep(4) == "\n   • ";
    assert "" + "\n   • " + a + "" == "\n   • " + a;
    assert "\n   • " + a + "\n   • " + b + "" + "" == "\n   • " + a + "\n   • " + b;
  }

  /** The bullet lines have no run of three newlines and lose their leading indentation. */
  lemma BulletsNoTriple(a: string, b: string)
    requires ItemText(a) && ItemText(b)
    ensures NoTriple("\n   • " + a + "\n   • " + b)
  {
    var bullet := "\n   • ";
    assert NoTriple(bullet);
    NoTripleConcat(bullet, a);
    NoTripleConcat(bullet + a, bullet);
    NoTripleConcat(bullet + a + bullet, b);
  }

  lemma BulletsStripped(a: string, b: string)
    requires ItemText(b)
    ensures Strip("\n   • " + a + "\n   • " + b) == "• " + a + "\n   • " + b
  {
    var mid := "• " + a + "\n   • " + b;
    assert "\n   • " + a + "\n   • " + b == "\n   " + mid + "";
    StripSurround("\n   ", mid, "");
  }

  lemma BulletsFinished(a: string, b: string)
    requires ItemText(a) && ItemText(b)
    ensures Strip(Collapse("\n   • " + a + "\n   • " + b)) == "• " + a + "\n   • " + b
  {
    BulletsNoTriple(a, b);
    CollapseIdentity("\n   • " + a + "\n   • " + b);
    BulletsStripped(a, b);
  }

  /** `<ul>`, `<li>`, `</li>` and `</ul>` are the tags of a list. */
  lemma ListTagsHold()
    ensures ListTagsAre("<ul>", "<li>", "</li>", "</ul>")
    ensures RulesFit(TagRules, ["<ul>", "<li>", "</li>", "</ul>"])
  {
    UlOpenMisses(); UlCloseMisses(); LiOpenMisses(); LiCloseMisses();
    UlOpenFirst(); UlCloseFirst(); LiOpenFirst(); LiCloseFirst();
    TagRulesFitList();
  }

  /** A two-item list, for any tags the cleanup takes as list tags. */
  lemma CleanListWith(u: string, l: string, cl: string, cu: string, a: string, b: string, s: string)
    requires ListTagsAre(u, l, cl, cu) && RulesFit(TagRules, [u, l, cl, cu]) && ItemText(a) && ItemText(b)
    requires s == u + l + a + cl + l + b + cl + cu
    ensures Clean(s) == "• " + a + "\n   • " + b
  {
    ListPiecesCleaned(u, l, cl, cu, a, b);
    ListText(a, b);
    BulletsFinished(a, b);
  }

  lemma ListWritten(a: string, b: string)
    ensures "<ul><li>" + a + "</li><li>" + b + "</li></ul>" == "<ul>" + "<li>" + a + "</li>" + "<li>" + b + "</li>" + "</ul>"
  {
  }

  /** A two-item list becomes two bullet lines, the first one's indentation stripped. */
  lemma CleanList(a: string, b: string)
    requires ItemText(a) && ItemText(b)
    ensures Clean("<ul><li>" + a + "</li><li>" + b + "</li></ul>") == "• " + a + "\n   • " + b
  {
    ListTagsHold();
    ListWritten(a, b);
    CleanListWith("<ul>", "<li>", "</li>", "</ul>", a, b, "<ul><li>" + a + "</li><li>" + b + "</li></ul>");
  }
}
