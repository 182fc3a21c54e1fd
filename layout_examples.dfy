/**
 * Worked examples: the exact drawing and warnings for a few circuit
 * strings, drawn to the right from any start point `(x, y)` with unit
 * spacing and elements two units long. Each is an instance of a small
 * lemma about parts of the same shape.
 */
module LayoutExamples {
  import opened Geometry
  import opened Notation
  import opened LayoutSpec
  import opened LayoutProperties

  const Opt := Options(Right, 1.0, 2.0)

  // ---------------------------------------------------------------------
  // Shapes
  // ---------------------------------------------------------------------

  /** A single trimmed component: placed at the cursor when its type is a key, otherwise reported. */
  lemma LeafLayout(t: string, start: Point, opt: Options)
    requires t != [] && IsStripped(t) && !IsGroupSyntax(t) && '-' !in t
    ensures Layout(t, start, opt)
         == if IsKnown(t) then LayoutState([Element(t[0], t, start, opt.dir)], [], ElementEnd(start, opt.dir, opt.elemLen))
            else LayoutState([], [UnknownTypeWarning(t[0], t)], start)
  {
    SinglePart(t, start, opt);
    StrippedUnchanged(t);
    if IsKnown(t) {
      KnownLeafStep(t, Fresh(start), opt);
      assert [] + [Element(t[0], t, start, opt.dir)] == [Element(t[0], t, start, opt.dir)];
    } else {
      UnknownLeafStep(t, Fresh(start), opt);
      assert [] + [UnknownTypeWarning(t[0], t)] == [UnknownTypeWarning(t[0], t)];
    }
  }

  lemma SplitPair(a: string, b: string, sep: char)
    requires sep !in a && sep !in b
    ensures Split(a + [sep] + b, sep) == [a, b]
  {
    assert Join([a, b], sep) == a + [sep] + b;
    SplitJoin([a, b], sep);
  }

  lemma PairTokens(a: string, b: string)
    requires IsStripped(a) && ',' !in a
    requires IsStripped(b) && ',' !in b
    ensures Classify("p(" + a + "," + b + ")") == Group([a, b])
  {
    var inner := a + [','] + b;
    assert Split(inner, ',') == [a, b] by {
      SplitPair(a, b, ',');
    }
    assert StripAll([a, b]) == [a, b] by {
      StrippedUnchanged(a);
      StrippedUnchanged(b);
    }
    assert "p(" + a + "," + b + ")" == "p(" + inner + ")";
    GroupPart(inner);
  }

  lemma RecognisePair(a: string, b: string)
    requires a != [] && IsKnown(a) && b != [] && IsKnown(b)
    ensures Recognise([a, b]) == Recognised([Member(a[0], a), Member(b[0], b)], [])
  {
    assert [a, b][..1] == [a] && [a, b][..1][..0] == [];
  }

  /** `p(a,b)` with two recognised members draws the two-branch group and moves the cursor by three. */
  lemma PairLayout(a: string, b: string, start: Point, opt: Options)
    requires a != [] && IsStripped(a) && IsKnown(a) && ',' !in a && '-' !in a
    requires b != [] && IsStripped(b) && IsKnown(b) && ',' !in b && '-' !in b
    ensures Layout("p(" + a + "," + b + ")", start, opt)
         == LayoutState(ParallelPrims(start, opt, [Member(a[0], a), Member(b[0], b)]), [],
                        Move(start, opt.dir, BranchLength))
  {
    var part := "p(" + a + "," + b + ")";
    assert part == "p(" + a + [','] + b + [')'];
    SinglePart(part, start, opt);
    PairTokens(a, b);
    RecognisePair(a, b);
    var prims := ParallelPrims(start, opt, [Member(a[0], a), Member(b[0], b)]);
    assert [] + prims == prims;
  }

  lemma TwoBranches(start: Point, opt: Options, m0: Member, m1: Member)
    ensures ParallelPrims(start, opt, [m0, m1])
         == [Dot(start), Dot(Move(start, opt.dir, BranchLength))]
            + Branch(start, opt, 2, 0, m0) + Branch(start, opt, 2, 1, m1)
  {
    var ms := [m0, m1];
    assert Branches(start, opt, ms, 0) == [];
    assert Branches(start, opt, ms, 1) == Branch(start, opt, 2, 0, m0);
  }

  /** The first of two branches lies half a unit below the axis. */
  lemma LowerBranch(x: real, y: real, m: Member)
    ensures Branch(Point(x, y), Opt, 2, 0, m)
         == [ Line(Point(x, y), Point(x, y - 0.5)),
              Element(m.tag, m.name, Point(x, y - 0.5), Right),
              Line(Point(x + 2.0, y - 0.5), Point(x + 3.0, y - 0.5)),
              Line(Point(x + 3.0, y - 0.5), Point(x + 3.0, y)) ]
  {
    assert Offset(0, 2, 1.0) == -0.5;
  }

  /** The second of two branches lies half a unit above the axis. */
  lemma UpperBranch(x: real, y: real, m: Member)
    ensures Branch(Point(x, y), Opt, 2, 1, m)
         == [ Line(Point(x, y), Point(x, y + 0.5)),
              Element(m.tag, m.name, Point(x, y + 0.5), Right),
              Line(Point(x + 2.0, y + 0.5), Point(x + 3.0, y + 0.5)),
              Line(Point(x + 3.0, y + 0.5), Point(x + 3.0, y)) ]
  {
    assert Offset(1, 2, 1.0) == 0.5;
  }

  /** Two single components in series, the first placed and the second placed or reported. */
  lemma LeafPair(a: string, b: string, start: Point, opt: Options)
    requires a != [] && IsStripped(a) && !IsGroupSyntax(a) && '-' !in a && IsKnown(a)
    requires b != [] && IsStripped(b) && !IsGroupSyntax(b) && '-' !in b
    ensures Layout(a + "-" + b, start, opt)
         == (var mid := ElementEnd(start, opt.dir, opt.elemLen);
             if IsKnown(b) then
               LayoutState([Element(a[0], a, start, opt.dir), Element(b[0], b, mid, opt.dir)], [],
                           ElementEnd(mid, opt.dir, opt.elemLen))
             else
               LayoutState([Element(a[0], a, start, opt.dir)], [UnknownTypeWarning(b[0], b)], mid))
  {
    var mid := ElementEnd(start, opt.dir, opt.elemLen);
    var e0 := Element(a[0], a, start, opt.dir);
    assert Layout(a, start, opt) == LayoutState([e0], [], mid) by {
      LeafLayout(a, start, opt);
    }
    LeafLayout(b, mid, opt);
    LayoutConcat(a, b, start, opt);
    if IsKnown(b) {
      var e1 := Element(b[0], b, mid, opt.dir);
      assert [e0] + [e1] == [e0, e1];
    } else {
      assert [e0] + [] == [e0] && [] + [UnknownTypeWarning(b[0], b)] == [UnknownTypeWarning(b[0], b)];
    }
  }

  /** A group whose interior splits into trimmed tokens is classified as a group of exactly those tokens. */
  lemma GroupOf(inner: string, tokens: seq<string>)
    requires Split(inner, ',') == tokens
    requires forall k :: 0 <= k < |tokens| ==> IsStripped(tokens[k])
    ensures Classify("p(" + inner + ")") == Group(tokens)
  {
    GroupPart(inner);
    forall k | 0 <= k < |tokens| ensures Strip(tokens[k]) == tokens[k] {
      StrippedUnchanged(tokens[k]);
    }
    assert StripAll(tokens) == tokens;
  }

  // ---------------------------------------------------------------------
  // Circuit strings
  // ---------------------------------------------------------------------

  /** `R0-R1`: two resistors end to end. */
  lemma TwoInSeries(x: real, y: real)
    ensures Layout("R0-R1", Point(x, y), Opt)
         == LayoutState([Element('R', "R0", Point(x, y), Right), Element('R', "R1", Point(x + 2.0, y), Right)],
                        [], Point(x + 4.0, y))
  {
    assert "R0-R1" == "R0" + "-" + "R1";
    LeafPair("R0", "R1", Point(x, y), Opt);
  }

  /** `R0-Z9`: the resistor is drawn and `Z9` is only reported. */
  lemma UnknownInSeries(x: real, y: real)
    ensures Layout("R0-Z9", Point(x, y), Opt)
         == LayoutState([Element('R', "R0", Point(x, y), Right)],
                        ["Warning: Unknown component type 'Z' in 'Z9'"], Point(x + 2.0, y))
  {
    assert "R0-Z9" == "R0" + "-" + "Z9";
    assert !IsKnown("Z9") && ElementEnd(Point(x, y), Right, 2.0) == Point(x + 2.0, y);
    assert UnknownTypeWarning('Z', "Z9") == "Warning: Unknown component type 'Z' in 'Z9'";
    LeafPair("R0", "Z9", Point(x, y), Opt);
  }

  /**
   * `CPE1-Zarc0`: both `CPE` and `Zarc` are keys of the table, but only the
   * first character is looked up, so `CPE1` is drawn as a `C` and `Zarc0`
   * is reported.
   */
  lemma MultiLetterKeys(x: real, y: real)
    ensures "CPE" in ComponentKeys && "Zarc" in ComponentKeys
    ensures Layout("CPE1-Zarc0", Point(x, y), Opt)
         == LayoutState([Element('C', "CPE1", Point(x, y), Right)],
                        ["Warning: Unknown component type 'Z' in 'Zarc0'"], Point(x + 2.0, y))
  {
    assert "CPE1-Zarc0" == "CPE1" + "-" + "Zarc0";
    assert !IsKnown("Zarc0") && ElementEnd(Point(x, y), Right, 2.0) == Point(x + 2.0, y);
    assert UnknownTypeWarning('Z', "Zarc0") == "Warning: Unknown component type 'Z' in 'Zarc0'";
    LeafPair("CPE1", "Zarc0", Point(x, y), Opt);
  }

  /** The two branches of a resistor and a capacitor in parallel, half a unit either side of the axis. */
  lemma PairPrimitives(x: real, y: real)
    ensures ParallelPrims(Point(x, y), Opt, [Member('R', "R1"), Member('C', "C1")])
         == [ Dot(Point(x, y)), Dot(Point(x + 3.0, y)),
              Line(Point(x, y), Point(x, y - 0.5)),
              Element('R', "R1", Point(x, y - 0.5), Right),
              Line(Point(x + 2.0, y - 0.5), Point(x + 3.0, y - 0.5)),
              Line(Point(x + 3.0, y - 0.5), Point(x + 3.0, y)),
              Line(Point(x, y), Point(x, y + 0.5)),
              Element('C', "C1", Point(x, y + 0.5), Right),
              Line(Point(x + 2.0, y + 0.5), Point(x + 3.0, y + 0.5)),
              Line(Point(x + 3.0, y + 0.5), Point(x + 3.0, y)) ]
  {
    TwoBranches(Point(x, y), Opt, Member('R', "R1"), Member('C', "C1"));
    LowerBranch(x, y, Member('R', "R1"));
    UpperBranch(x, y, Member('C', "C1"));
  }

  /** `p(R1,C1)`: a resistor and a capacitor side by side; the cursor moves three units. */
  lemma ParallelPair(x: real, y: real)
    ensures Layout("p(R1,C1)", Point(x, y), Opt)
         == LayoutState(ParallelPrims(Point(x, y), Opt, [Member('R', "R1"), Member('C', "C1")]), [], Point(x + 3.0, y))
  {
    assert "p(R1,C1)" == "p(" + "R1" + "," + "C1" + ")";
    PairLayout("R1", "C1", Point(x, y), Opt);
  }

  lemma SplitMixedTokens()
    ensures Split("R1,,Z9,CPE3", ',') == ["R1", "", "Z9", "CPE3"]
  {
    assert Join(["R1", "", "Z9", "CPE3"], ',') == "R1,,Z9,CPE3";
    SplitJoin(["R1", "", "Z9", "CPE3"], ',');
  }

  /** `p(R1,,Z9,CPE3)` is a group of four tokens, the second one empty. */
  lemma MixedGroup()
    ensures Classify("p(R1,,Z9,CPE3)") == Group(["R1", "", "Z9", "CPE3"])
  {
    SplitMixedTokens();
    assert "p(R1,,Z9,CPE3)" == "p(" + "R1,,Z9,CPE3" + ")";
    GroupOf("R1,,Z9,CPE3", ["R1", "", "Z9", "CPE3"]);
  }

  /**
   * Of the tokens of `p(R1,,Z9,CPE3)`, the empty one is skipped, `Z9` is
   * reported, and `CPE3` is recognised by its first letter as a `C`.
   */
  lemma MixedMembers()
    ensures Recognise(["R1", "", "Z9", "CPE3"])
         == Recognised([Member('R', "R1"), Member('C', "CPE3")], ["Warning: Unknown component type 'Z' in 'Z9'"])
  {
    var tokens := ["R1", "", "Z9", "CPE3"];
    var r1, w := Member('R', "R1"), UnknownTypeWarning('Z', "Z9");
    assert Recognise(["R1"]) == Recognised([r1], []) by {
      assert ["R1"][..0] == [];
    }
    assert Recognise(["R1", ""]) == Recognised([r1], []) by {
      assert ["R1", ""][..1] == ["R1"];
    }
    assert Recognise(["R1", "", "Z9"]) == Recognised([r1], [w]) by {
      assert ["R1", "", "Z9"][..2] == ["R1", ""];
    }
    assert Recognise(tokens) == Recognised([r1, Member('C', "CPE3")], [w]) by {
      assert tokens[..3] == ["R1", "", "Z9"];
    }
    assert w == "Warning: Unknown component type 'Z' in 'Z9'";
  }

  /** `p(R1` lacks its `)`: it is a single component of type `p`, labelled `p(R1`. */
  lemma UnbalancedGroup(x: real, y: real)
    ensures Layout("p(R1", Point(x, y), Opt)
         == LayoutState([Element('p', "p(R1", Point(x, y), Right)], [], Point(x + 2.0, y))
  {
    assert !IsGroupSyntax("p(R1") by {
      assert "p(R1"[|"p(R1"| - 1..] == "1";
    }
    LeafLayout("p(R1", Point(x, y), Opt);
  }

  /** `p()` is a group of one empty token. */
  lemma EmptyGroupTokens()
    ensures Classify("p()") == Group([""])
  {
    assert Split("", ',') == [""];
    GroupOf("", [""]);
  }

  /** `p()` has no members: nothing is drawn, nothing reported, and the cursor stays. */
  lemma EmptyGroup(x: real, y: real)
    ensures Layout("p()", Point(x, y), Opt) == LayoutState([], [], Point(x, y))
  {
    EmptyGroupTokens();
    assert Recognise([""]) == Recognised([], []);
    SinglePart("p()", Point(x, y), Opt);
    MemberlessGroupStep(Fresh(Point(x, y)), "p()", Opt);
  }
}
